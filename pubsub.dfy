/**
 The topic registry of the jQuery publish/subscribe plugin: a hash from topic
 to a priority table (an array of tiers, each an array of callbacks in
 registration order) and the three operations subscribe, publish and
 unsubscribe.
 */
module PubSub {
  import opened Wrappers
  import opened Tables
  import opened Splice
  import opened FanOut

  /** The topic/subscription hash: topic name to that topic's priority table. */
  type Cache<F(==)> = map<string, Table<F>>

  /** The array `[topic, callback, priority]` subscribe returns and unsubscribe takes. */
  datatype Handle<F> = Handle(topic: string, callback: F, priority: Key<F>)

  /** The value in publish's second position: absent, a number, or the argument array itself. */
  datatype PublishArg<V> = NoArg | Priority(p: nat) | Args(values: seq<V>)

  /** `cache[topic][key]`, absent when either level is missing. */
  function TierOf<F(==)>(cache: Cache<F>, topic: string, key: Key<F>): (r: Option<seq<F>>)
    ensures r.Some? ==> topic in cache
  {
    if topic in cache then Get(cache[topic], key) else None
  }

  /** The callbacks stored at `cache[topic][key]`; a missing level holds none. */
  function Contents<F(==)>(cache: Cache<F>, topic: string, key: Key<F>): seq<F>
  {
    Entries(TierOf(cache, topic, key))
  }

  /** `cache[topic]`, or the empty array a first subscription creates. */
  function TableOf<F(==,!new)>(cache: Cache<F>, topic: string): Table<F>
  {
    if topic in cache then cache[topic] else Empty()
  }

  /** The registry after `cache[topic][key].push(cb)`, the topic and the tier created first when missing. */
  function Subscribed<F(==,!new)>(cache: Cache<F>, topic: string, key: Key<F>, cb: F): (r: Cache<F>)
    ensures r.Keys == cache.Keys + {topic}
    ensures TierOf(r, topic, key) == Some(Contents(cache, topic, key) + [cb])
    ensures forall t, k :: (t, k) != (topic, key) ==> TierOf(r, t, k) == TierOf(cache, t, k)
    ensures forall t :: t in cache && t != topic ==> r[t] == cache[t]
  {
    cache[topic := Put(TableOf(cache, topic), key, Contents(cache, topic, key) + [cb])]
  }

  /** The registry after unsubscribe's scan of `cache[h.topic][h.priority]`; nothing happens when either level is missing. */
  function Unsubscribed<F(==,!new)>(cache: Cache<F>, h: Handle<F>): (r: Cache<F>)
    ensures r.Keys == cache.Keys
    ensures TierOf(cache, h.topic, h.priority) == None ==> r == cache
    ensures TierOf(cache, h.topic, h.priority).Some? ==>
              TierOf(r, h.topic, h.priority) == Some(SpliceMatches(TierOf(cache, h.topic, h.priority).value, h.callback))
    ensures forall t, k :: (t, k) != (h.topic, h.priority) ==> TierOf(r, t, k) == TierOf(cache, t, k)
    ensures forall t :: t in cache && t != h.topic ==> r[t] == cache[t]
  {
    match TierOf(cache, h.topic, h.priority)
    case None => cache
    case Some(s) => cache[h.topic := Put(cache[h.topic], h.priority, SpliceMatches(s, h.callback))]
  }

  /** The argument list of a priority-scoped publish: the third argument, or `[]`. */
  function ScopedArgs<V>(third: Option<seq<V>>): seq<V>
  {
    if third.Some? then third.value else []
  }

  /** The argument list of a fan-out publish: the second argument itself, or `[]`. */
  function FanOutArgs<V>(second: PublishArg<V>): seq<V>
  {
    if second.Args? then second.values else []
  }

  /** The calls `publish(topic, second, third)` makes. A numeric second argument
      restricts delivery to that one tier; otherwise every array index of the
      topic's table is visited in ascending order, and non-index tiers are not. */
  function Dispatch<F(==,!new), V>(cache: Cache<F>, topic: string, second: PublishArg<V>, third: Option<seq<V>>)
    : (r: seq<Invocation<F, V>>)
    ensures topic !in cache ==> r == []
    ensures second.Priority? ==>
              var cbs := Contents(cache, topic, IntKey(second.p));
              |r| == |cbs| && forall i :: 0 <= i < |r| ==> r[i] == Invocation(cbs[i], ScopedArgs(third))
    ensures !second.Priority? ==> r == Invoke(Flatten(TableOf(cache, topic).slots), FanOutArgs(second))
  {
    if topic !in cache then []
    else if second.Priority? then
      match Get(cache[topic], IntKey(second.p))
      case None => []
      case Some(cbs) => Invoke(cbs, ScopedArgs(third))
    else Invoke(Flatten(cache[topic].slots), FanOutArgs(second))
  }

  /** Scoped publish after a subscription at the same tier makes the earlier calls and then one call of the new callback. */
  lemma PublishAfterSubscribe<F(!new), V>(cache: Cache<F>, topic: string, p: nat, cb: F, third: Option<seq<V>>)
    ensures Dispatch(Subscribed(cache, topic, IntKey(p), cb), topic, Priority(p), third)
         == Dispatch(cache, topic, Priority(p), third) + [Invocation(cb, ScopedArgs(third))]
  {
  }

  /** Scoped publish ignores every other tier: a subscription anywhere else leaves it unchanged. */
  lemma PublishIsolated<F(!new), V>(cache: Cache<F>, topic: string, key: Key<F>, cb: F, t: string, p: nat,
                                  third: Option<seq<V>>)
    requires (t, IntKey(p)) != (topic, key)
    ensures Dispatch(Subscribed(cache, topic, key, cb), t, Priority(p), third) == Dispatch(cache, t, Priority(p), third)
  {
  }

  /** A subscription under a key that is not an array index (the two-argument shorthand's callback key, or a number of
      2^32 - 1 or more) changes no fan-out publish, because fan-out only walks the array's slots. */
  lemma NonIndexNotFannedOut<F(!new), V>(cache: Cache<F>, topic: string, key: Key<F>, cb: F, t: string,
                                       second: PublishArg<V>, third: Option<seq<V>>)
    requires !IsIndex(key) && !second.Priority?
    ensures Dispatch(Subscribed(cache, topic, key, cb), t, second, third) == Dispatch(cache, t, second, third)
  {
    var after := Subscribed(cache, topic, key, cb);
    assert TableOf(after, topic).slots == TableOf(cache, topic).slots;
    if t != topic {
      assert TableOf(after, t) == TableOf(cache, t);
    }
  }

  /** A subscription under an array index is reached by every fan-out publish to its topic, with the fan-out arguments. */
  lemma SubscribedFannedOut<F(!new), V>(cache: Cache<F>, topic: string, key: Key<F>, cb: F, second: PublishArg<V>,
                                      third: Option<seq<V>>)
    requires IsIndex(key) && !second.Priority?
    ensures Invocation(cb, FanOutArgs(second)) in Dispatch(Subscribed(cache, topic, key, cb), topic, second, third)
  {
    var after := Subscribed(cache, topic, key, cb);
    var slots := after[topic].slots;
    assert Get(after[topic], key) == Some(Contents(cache, topic, key) + [cb]);
    assert key.n < |slots| && cb in Entries(slots[key.n]);
    FlattenMembers(slots);
    assert cb in Flatten(slots);
    var calls := Invoke(Flatten(slots), FanOutArgs(second));
    var i :| 0 <= i < |Flatten(slots)| && Flatten(slots)[i] == cb;
    assert calls[i] == Invocation(cb, FanOutArgs(second));
  }

  /** In a fresh registry, subscribing at tier 10 leaves a topic array whose walk meets exactly that callback. */
  lemma DefaultTierWalk<F(!new)>(topic: string, cb: F)
    ensures var after := Subscribed(map[], topic, IntKey(10), cb);
            topic in after && Flatten(after[topic].slots) == [cb]
  {
    var none: Cache<F> := map[];
    var after := Subscribed(none, topic, IntKey(10), cb);
    var slots := after[topic].slots;
    assert Contents(none, topic, IntKey(10)) == [];
    assert TierOf(after, topic, IntKey(10)) == Some([] + [cb]);
    assert [] + [cb] == [cb];
    assert |slots| == 11 && slots[10] == Some([cb]);
    assert forall i :: 0 <= i < 10 ==> slots[..10][i] == None;
    FlattenNothing(slots[..10]);
    FlattenSplit(slots, 10);
    assert slots[11..] == [];
  }

  /** The documented `subscribe(topic, fn)` followed by the documented `publish(topic, args)` calls nothing as written,
      while the same callback subscribed at the default tier 10 is called once with `args`. */
  lemma ShorthandMissesPublish<F(!new), V>(topic: string, cb: F, args: seq<V>)
    ensures Dispatch(Subscribed(map[], topic, FnKey(cb), cb), topic, Args(args), None) == []
    ensures Dispatch(Subscribed(map[], topic, IntKey(10), cb), topic, Args(args), None) == [Invocation(cb, args)]
  {
    var none: Cache<F> := map[];
    assert Subscribed(none, topic, FnKey(cb), cb)[topic].slots == [];
    DefaultTierWalk(topic, cb);
  }

  /** Fan-out publish at a topic meets every tier of the topic's array, in ascending priority, and each tier's callbacks in
      registration order. */
  lemma PublishFanOutOrder<F(!new), V>(cache: Cache<F>, topic: string, p: nat, q: nat, second: PublishArg<V>,
                                     third: Option<seq<V>>)
    requires !second.Priority?
    requires topic in cache && p < q < |cache[topic].slots|
    ensures var slots := cache[topic].slots;
            Dispatch(cache, topic, second, third)
            == Invoke(Flatten(slots[..p]) + Entries(slots[p]) + Flatten(slots[p + 1..q])
                      + Entries(slots[q]) + Flatten(slots[q + 1..]), FanOutArgs(second))
  {
    FlattenOrder(cache[topic].slots, p, q);
  }

  /** Subscribing a callback that its tier does not yet hold and then unsubscribing the returned handle brings every tier
      back to its former contents; a tier that existed before is restored exactly, and so is the whole registry. */
  lemma SubscribeUnsubscribeRoundTrip<F(!new)>(cache: Cache<F>, topic: string, key: Key<F>, cb: F)
    requires cb !in Contents(cache, topic, key)
    ensures var r := Unsubscribed(Subscribed(cache, topic, key, cb), Handle(topic, cb, key));
            && r.Keys == cache.Keys + {topic}
            && (forall t, k :: Contents(r, t, k) == Contents(cache, t, k))
            && (TierOf(cache, topic, key).Some? ==> r == cache)
  {
    var s := Contents(cache, topic, key);
    var mid := Subscribed(cache, topic, key, cb);
    var r := Unsubscribed(mid, Handle(topic, cb, key));
    SpliceMatchesAppended(s, cb);
    assert r == cache[topic := Put(Put(TableOf(cache, topic), key, s + [cb]), key, s)];
    PutPut(TableOf(cache, topic), key, s + [cb], s);
    if TierOf(cache, topic, key).Some? {
      PutSame(cache[topic], key, s);
    }
  }

  /** An empty tier written under a key that held none is invisible to fan-out. */
  lemma EmptyTierUnseen<F(!new)>(table: Table<F>, key: Key<F>)
    requires Get(table, key) == None
    ensures Flatten(Put(table, key, []).slots) == Flatten(table.slots)
  {
    if IsIndex(key) {
      FlattenEmptyTier(table.slots, key.n);
    }
  }

  /** After the round trip no publish can tell the registries apart, even where it left an empty tier behind. */
  lemma RoundTripUnobservable<F(!new), V>(cache: Cache<F>, topic: string, key: Key<F>, cb: F,
                                        t: string, second: PublishArg<V>, third: Option<seq<V>>)
    requires cb !in Contents(cache, topic, key)
    ensures var r := Unsubscribed(Subscribed(cache, topic, key, cb), Handle(topic, cb, key));
            Dispatch(r, t, second, third) == Dispatch(cache, t, second, third)
  {
    var r := Unsubscribed(Subscribed(cache, topic, key, cb), Handle(topic, cb, key));
    SubscribeUnsubscribeRoundTrip(cache, topic, key, cb);
    if TierOf(cache, topic, key).Some? {
      assert r == cache;
    } else if t == topic {
      var old_ := TableOf(cache, topic);
      assert r[topic] == Put(old_, key, []) by {
        PutPut(old_, key, [] + [cb], []);
      }
      if !second.Priority? {
        EmptyTierUnseen(old_, key);
      }
    } else {
      assert TableOf(r, t) == TableOf(cache, t);
    }
  }

  /** The registry: the `cache` hash and `d.subscribe.default_priority`, with the plugin's operations. */
  class Registry<F(==,!new)> {
    var cache: Cache<F>
    /** The tier a subscription without a (non-zero) priority goes to. */
    var defaultPriority: nat

    constructor ()
      ensures cache == map[] && defaultPriority == 10
    {
      cache := map[];
      defaultPriority := 10;
    }

    /** Creates `cache[topic]` and `cache[topic][key]` when missing, then pushes `callback` onto that tier. */
    method AddToTier(topic: string, key: Key<F>, callback: F) returns (handle: Handle<F>)
      modifies this`cache
      ensures cache == Subscribed(old(cache), topic, key, callback)
      ensures handle == Handle(topic, callback, key)
    {
      var table := if topic in cache then cache[topic] else Empty();
      if Get(table, key) == None {
        table := Put(table, key, []);
      }
      var tier := Get(table, key).value;
      assert tier == Contents(cache, topic, key);
      assert Put(table, key, tier + [callback]) == Put(TableOf(cache, topic), key, tier + [callback]) by {
        PutPut(TableOf(cache, topic), key, [], tier + [callback]);
      }
      table := Put(table, key, tier + [callback]);
      cache := cache[topic := table];
      handle := Handle(topic, callback, key);
    }

    /** `subscribe(topic, priority, callback)`: a zero priority (standing also for a missing one) selects the default
        tier, any other is used as given. */
    method Subscribe(topic: string, priority: nat, callback: F) returns (handle: Handle<F>)
      modifies this`cache
      ensures handle == Handle(topic, callback, IntKey(if priority == 0 then defaultPriority else priority))
      ensures cache == Subscribed(old(cache), topic, handle.priority, callback)
    {
      var p := if priority == 0 then defaultPriority else priority;
      handle := AddToTier(topic, IntKey(p), callback);
    }

    /** `subscribe(topic, callback)`: the callback moves into the callback position but also stays in the priority position,
        so it is stored under itself as a non-index key. */
    method SubscribeShorthand(topic: string, callback: F) returns (handle: Handle<F>)
      modifies this`cache
      ensures handle == Handle(topic, callback, FnKey(callback))
      ensures cache == Subscribed(old(cache), topic, FnKey(callback), callback)
    {
      handle := AddToTier(topic, FnKey(callback), callback);
    }

    /** `publish(topic, second, third)`, returning the calls it makes in the order it makes them. */
    method Publish<V>(topic: string, second: PublishArg<V>, third: Option<seq<V>>) returns (calls: seq<Invocation<F, V>>)
      ensures calls == Dispatch(cache, topic, second, third)
    {
      calls := [];
      if topic !in cache {
        return;
      }
      var table := cache[topic];
      if second.Priority? {
        var tier := Get(table, IntKey(second.p));
        if tier.Some? {
          calls := EachApply(tier.value, ScopedArgs(third));
        }
      } else {
        calls := EachTier(table.slots, FanOutArgs(second));
      }
    }

    /** The outer iteration of fan-out: every array index in ascending order, each tier's calls in stored order; a hole
        makes none. */
    static method EachTier<V>(slots: seq<Option<seq<F>>>, args: seq<V>) returns (calls: seq<Invocation<F, V>>)
      ensures calls == Invoke(Flatten(slots), args)
    {
      calls := [];
      var p := 0;
      while p < |slots|
        invariant p <= |slots|
        invariant calls == Invoke(Flatten(slots[..p]), args)
      {
        var more := EachApply(Entries(slots[p]), args);
        InvokeAppend(Flatten(slots[..p]), Entries(slots[p]), args);
        assert slots[..p + 1][..p] == slots[..p];
        calls := calls + more;
        p := p + 1;
      }
      assert slots[..p] == slots;
    }

    /** The iteration over one tier: each stored callback applied to `args`, in stored order. */
    static method EachApply<V>(cbs: seq<F>, args: seq<V>) returns (calls: seq<Invocation<F, V>>)
      ensures calls == Invoke(cbs, args)
    {
      calls := [];
      var i := 0;
      while i < |cbs|
        invariant i <= |cbs|
        invariant calls == Invoke(cbs[..i], args)
      {
        InvokeAppend(cbs[..i], [cbs[i]], args);
        assert cbs[..i + 1] == cbs[..i] + [cbs[i]];
        calls := calls + [Invocation(cbs[i], args)];
        i := i + 1;
      }
      assert cbs[..i] == cbs;
    }

    /** `unsubscribe(handle)`: nothing happens unless `cache[t][p]` exists; otherwise that tier is scanned. */
    method Unsubscribe(handle: Handle<F>)
      modifies this`cache
      ensures cache == Unsubscribed(old(cache), handle)
    {
      var t, p := handle.topic, handle.priority;
      if t in cache && Get(cache[t], p).Some? {
        var tier := EachSplice(Get(cache[t], p).value, handle.callback);
        cache := cache[t := Put(cache[t], p, tier)];
      }
    }

    /** Unsubscribe's scan of one tier: an index loop whose bound is the length at entry, reading the live array and
        splicing out the entry at the current index when it is `== x`. */
    static method EachSplice(original: seq<F>, x: F) returns (tier: seq<F>)
      ensures tier == SpliceMatches(original, x)
    {
      tier := original;
      var n := |tier|;
      var idx := 0;
      while idx < n
        invariant idx <= n && |tier| <= n
        invariant Scanned(tier, idx, x) == SpliceMatches(original, x)
      {
        SplicedStep(tier, idx, x);
        if idx < |tier| && tier[idx] == x {
          tier := tier[..idx] + tier[idx + 1..];
        }
        idx := idx + 1;
      }
      assert idx == |tier| ==> tier[..idx] == tier && tier[idx..] == [];
    }
  }
}
