/**
 The invocations publish makes, as values: callbacks are foreign code, so each
 call is recorded as the callback and the argument list it is applied to.
 */
module FanOut {
  import opened Wrappers

  /** One call `callback.apply(d, args)`. */
  datatype Invocation<F, V> = Invocation(callback: F, args: seq<V>)

  /** The calls `d.each(cbs, ...)` makes: every callback once, in stored order, each with `args`. */
  function Invoke<F, V>(cbs: seq<F>, args: seq<V>): (r: seq<Invocation<F, V>>)
    ensures |r| == |cbs|
    ensures forall i :: 0 <= i < |r| ==> r[i] == Invocation(cbs[i], args)
  {
    if cbs == [] then [] else [Invocation(cbs[0], args)] + Invoke(cbs[1..], args)
  }

  /** The calls for two lists of callbacks, one after the other, are the calls for the first list followed by those for the second. */
  lemma InvokeAppend<F, V>(a: seq<F>, b: seq<F>, args: seq<V>)
    ensures Invoke(a + b, args) == Invoke(a, args) + Invoke(b, args)
  {
  }

  /** The callbacks a tier slot holds; a hole holds none. */
  function Entries<F>(o: Option<seq<F>>): seq<F>
  {
    if o.Some? then o.value else []
  }

  /** The callbacks met when iterating the array `slots` from index 0 up to its
      length, tier by tier and in stored order within a tier. */
  function Flatten<F>(slots: seq<Option<seq<F>>>): seq<F>
  {
    if slots == [] then [] else Flatten(slots[..|slots| - 1]) + Entries(slots[|slots| - 1])
  }

  /** The walk meets every callback of every slot, and no callback that is in no slot. */
  lemma {:induction false} FlattenMembers<F>(slots: seq<Option<seq<F>>>)
    ensures forall i, c :: 0 <= i < |slots| && c in Entries(slots[i]) ==> c in Flatten(slots)
    ensures forall c :: c in Flatten(slots) ==> exists i :: 0 <= i < |slots| && c in Entries(slots[i])
    decreases |slots|
  {
    if slots != [] {
      var init := slots[..|slots| - 1];
      FlattenMembers(init);
      assert forall i :: 0 <= i < |init| ==> init[i] == slots[i];
    }
  }

  /** Iterating two arrays one after the other meets their callbacks one after the other. */
  lemma {:induction false} FlattenAppend<F>(a: seq<Option<seq<F>>>, b: seq<Option<seq<F>>>)
    ensures Flatten(a + b) == Flatten(a) + Flatten(b)
    decreases |b|
  {
    if b == [] {
      assert a + b == a;
    } else {
      var b' := b[..|b| - 1];
      assert (a + b)[..|a + b| - 1] == a + b';
      assert (a + b)[|a + b| - 1] == b[|b| - 1];
      FlattenAppend(a, b');
    }
  }

  /** Tier `p` is met as one contiguous block, after every lower tier and before every higher one. */
  lemma {:induction false} FlattenSplit<F>(slots: seq<Option<seq<F>>>, p: nat)
    requires p < |slots|
    ensures Flatten(slots) == Flatten(slots[..p]) + Entries(slots[p]) + Flatten(slots[p + 1..])
  {
    var pre, mid, post := slots[..p], [slots[p]], slots[p + 1..];
    assert slots == pre + mid + post;
    FlattenAppend(pre + mid, post);
    FlattenAppend(pre, mid);
    assert mid[..0] == [];
    assert Flatten(mid) == Flatten(mid[..0]) + Entries(mid[0]);
  }

  /** Five blocks joined as `a + b` followed by the other three are the five blocks joined left to right. */
  lemma Regroup<T>(a: seq<T>, b: seq<T>, c: seq<T>, d: seq<T>, e: seq<T>)
    ensures a + b + (c + d + e) == a + b + c + d + e
  {
  }

  /** Past tier `p`, tier `q` is met as one block between the tiers strictly between them and those above `q`. */
  lemma {:induction false} FlattenTail<F>(slots: seq<Option<seq<F>>>, p: nat, q: nat)
    requires p < q < |slots|
    ensures Flatten(slots[p + 1..]) == Flatten(slots[p + 1..q]) + Entries(slots[q]) + Flatten(slots[q + 1..])
  {
    var rest := slots[p + 1..];
    FlattenSplit(rest, q - p - 1);
    assert rest[..q - p - 1] == slots[p + 1..q];
    assert rest[q - p..] == slots[q + 1..];
  }

  /** Tiers are visited in ascending priority: for `p < q` the whole of tier `p` comes before tier `q`. */
  lemma {:induction false} FlattenOrder<F>(slots: seq<Option<seq<F>>>, p: nat, q: nat)
    requires p < q < |slots|
    ensures Flatten(slots) == Flatten(slots[..p]) + Entries(slots[p]) + Flatten(slots[p + 1..q])
                              + Entries(slots[q]) + Flatten(slots[q + 1..])
  {
    var a, b, c, d, e := Flatten(slots[..p]), Entries(slots[p]), Flatten(slots[p + 1..q]),
                         Entries(slots[q]), Flatten(slots[q + 1..]);
    FlattenSplit(slots, p);
    FlattenTail(slots, p, q);
    Regroup(a, b, c, d, e);
  }

  /** An array whose slots are holes or empty tiers yields no callback. */
  lemma {:induction false} FlattenNothing<F>(slots: seq<Option<seq<F>>>)
    requires forall i :: 0 <= i < |slots| ==> Entries(slots[i]) == []
    ensures Flatten(slots) == []
    decreases |slots|
  {
    if slots != [] {
      var init := slots[..|slots| - 1];
      assert forall i :: 0 <= i < |init| ==> init[i] == slots[i];
      FlattenNothing(init);
    }
  }

  /** Putting an empty tier in a hole, or growing the array by holes and an empty tier, changes nothing that fan-out meets. */
  lemma {:induction false} FlattenEmptyTier<F>(slots: seq<Option<seq<F>>>, n: nat)
    requires n < |slots| ==> slots[n] == None
    ensures n < |slots| ==> Flatten(slots[n := Some([])]) == Flatten(slots)
    ensures n >= |slots| ==> Flatten(slots + seq(n - |slots|, _ => None) + [Some([])]) == Flatten(slots)
  {
    if n < |slots| {
      var t := slots[n := Some([])];
      FlattenSplit(slots, n);
      FlattenSplit(t, n);
      assert t[..n] == slots[..n] && t[n + 1..] == slots[n + 1..];
    } else {
      var tail := seq(n - |slots|, _ => None) + [Some([])];
      assert slots + seq(n - |slots|, _ => None) + [Some([])] == slots + tail;
      FlattenAppend(slots, tail);
      FlattenNothing(tail);
    }
  }
}
