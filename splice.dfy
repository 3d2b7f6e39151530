/**
 What unsubscribe's scan leaves of one tier. jQuery's `each` fixes the length
 when it starts and reads the live array by index, and the callback splices out
 each entry `==` to the handle's callback that the scan reaches; after a splice
 the entry shifted into the spliced slot is skipped.
 */
module Splice {

  /** The tier `s` after the scan for `x`: an entry `== x` is removed and the entry after it kept unexamined. */
  function SpliceMatches<F(==)>(s: seq<F>, x: F): (r: seq<F>)
    ensures |r| <= |s|
    decreases |s|
  {
    if s == [] then []
    else if s[0] != x then [s[0]] + SpliceMatches(s[1..], x)
    else if |s| == 1 then []
    else [s[1]] + SpliceMatches(s[2..], x)
  }

  /** `r` is `s` with some entries equal to `x` deleted and every other entry kept, in order. */
  ghost predicate DropsOnly<F>(s: seq<F>, r: seq<F>, x: F)
    decreases |s|
  {
    if s == [] then r == []
    else (r != [] && r[0] == s[0] && DropsOnly(s[1..], r[1..], x))
         || (s[0] == x && DropsOnly(s[1..], r, x))
  }

  /** The scan removes nothing but entries `== x` and keeps the survivors in their relative order. */
  lemma {:induction false} SpliceMatchesDropsOnly<F>(s: seq<F>, x: F)
    ensures DropsOnly(s, SpliceMatches(s, x), x)
    decreases |s|
  {
    if s == [] {
    } else if s[0] != x {
      SpliceMatchesDropsOnly(s[1..], x);
    } else if |s| > 1 {
      SpliceMatchesDropsOnly(s[2..], x);
      assert s[1..][1..] == s[2..];
    }
  }

  /** A tier that does not hold `x` is left as it is. */
  lemma {:induction false} SpliceMatchesAbsent<F>(s: seq<F>, x: F)
    requires x !in s
    ensures SpliceMatches(s, x) == s
    decreases |s|
  {
    if s != [] {
      assert s[1..] + [] == s[1..];
      SpliceMatchesAbsent(s[1..], x);
      assert s == [s[0]] + s[1..];
    }
  }

  /** A tier that holds `x` loses at least one entry. */
  lemma {:induction false} SpliceMatchesRemoves<F>(s: seq<F>, x: F)
    requires x in s
    ensures |SpliceMatches(s, x)| < |s|
    decreases |s|
  {
    if s[0] != x {
      assert x in s[1..];
      SpliceMatchesRemoves(s[1..], x);
    }
  }

  /** When no two adjacent entries are both `x`, every entry `== x` is removed
      (so `[f, g, f]` becomes `[g]`). */
  lemma {:induction false} SpliceMatchesSpaced<F>(s: seq<F>, x: F)
    requires forall i :: 0 <= i < |s| - 1 ==> s[i] != x || s[i + 1] != x
    ensures x !in SpliceMatches(s, x)
    decreases |s|
  {
    if s == [] {
    } else if s[0] != x {
      var t := s[1..];
      assert forall i :: 0 <= i < |t| - 1 ==> t[i] != x || t[i + 1] != x by {
        forall i | 0 <= i < |t| - 1 ensures t[i] != x || t[i + 1] != x {
          assert t[i] == s[i + 1] && t[i + 1] == s[i + 2];
        }
      }
      SpliceMatchesSpaced(t, x);
    } else if |s| > 1 {
      assert s[1] != x;
      var t := s[2..];
      assert forall i :: 0 <= i < |t| - 1 ==> t[i] != x || t[i + 1] != x by {
        forall i | 0 <= i < |t| - 1 ensures t[i] != x || t[i + 1] != x {
          assert t[i] == s[i + 2] && t[i + 1] == s[i + 3];
        }
      }
      SpliceMatchesSpaced(t, x);
    }
  }

  /** `k` adjacent copies of `x`; `RunEntries` states that every entry is `x`. */
  function Run<F>(x: F, k: nat): (r: seq<F>)
    ensures |r| == k
  {
    if k == 0 then [] else [x] + Run(x, k - 1)
  }

  /** Every entry of a run is `x`. */
  lemma {:induction false} RunEntries<F>(x: F, k: nat)
    ensures forall i :: 0 <= i < k ==> Run(x, k)[i] == x
    decreases k
  {
    if k > 0 {
      RunEntries(x, k - 1);
    }
  }

  /** In a run of `k` adjacent duplicates only every other one is removed: `k / 2` of them are left. */
  lemma {:induction false} SpliceMatchesRun<F>(x: F, k: nat)
    ensures SpliceMatches(Run(x, k), x) == Run(x, k / 2)
    decreases k
  {
    if k >= 2 {
      assert Run(x, k)[2..] == Run(x, k - 2);
      SpliceMatchesRun(x, k - 2);
      assert [x] + Run(x, (k - 2) / 2) == Run(x, k / 2);
    }
  }

  /** A scan of `a + c` where `a` does not end with `x` treats the two parts independently: no skip crosses the
      boundary. */
  lemma {:induction false} SpliceMatchesConcat<F>(a: seq<F>, c: seq<F>, x: F)
    requires a == [] || a[|a| - 1] != x
    ensures SpliceMatches(a + c, x) == SpliceMatches(a, x) + SpliceMatches(c, x)
    decreases |a|
  {
    if a == [] {
      assert a + c == c;
    } else if a[0] != x {
      assert (a + c)[1..] == a[1..] + c;
      SpliceMatchesConcat(a[1..], c, x);
    } else {
      assert |a| >= 2;
      assert (a + c)[2..] == a[2..] + c;
      SpliceMatchesConcat(a[2..], c, x);
    }
  }

  /** Of two leading copies of `x` the scan splices the first and skips the second. */
  lemma SpliceMatchesPair<F>(x: F, t: seq<F>)
    ensures SpliceMatches([x, x] + t, x) == [x] + SpliceMatches(t, x)
  {
    assert ([x, x] + t)[2..] == t;
  }

  /** A single copy of `x` before a part that does not start with `x` is spliced, and the part's first entry is
      skipped but kept. */
  lemma SpliceMatchesOneBefore<F>(x: F, b: seq<F>)
    requires b == [] || b[0] != x
    ensures SpliceMatches([x] + b, x) == SpliceMatches(b, x)
  {
    if b != [] {
      assert ([x] + b)[2..] == b[1..];
    }
  }

  /** When the scan of `rest` is `kept + tail`, two more leading copies of `x` add one to `kept`. */
  lemma SpliceMatchesPairAhead<F>(x: F, rest: seq<F>, kept: seq<F>, tail: seq<F>)
    requires SpliceMatches(rest, x) == kept + tail
    ensures SpliceMatches([x, x] + rest, x) == [x] + kept + tail
  {
    SpliceMatchesPair(x, rest);
    assert [x] + (kept + tail) == [x] + kept + tail;
  }

  /** A run of at least two copies is two copies followed by the shorter run. */
  lemma RunTwo<F>(x: F, k: nat, b: seq<F>)
    requires k >= 2
    ensures Run(x, k) + b == [x, x] + (Run(x, k - 2) + b)
  {
    assert Run(x, k) == [x, x] + Run(x, k - 2);
  }

  /** Halving a run of at least two copies takes off one copy. */
  lemma RunHalf<F>(x: F, k: nat)
    requires k >= 2
    ensures Run(x, k / 2) == [x] + Run(x, (k - 2) / 2)
  {
    assert k / 2 == (k - 2) / 2 + 1;
  }

  /** A run of `k` copies of `x` followed by a part that does not start with `x` keeps `k / 2` copies. */
  lemma {:induction false} SpliceMatchesRunBefore<F>(x: F, k: nat, b: seq<F>)
    requires b == [] || b[0] != x
    ensures SpliceMatches(Run(x, k) + b, x) == Run(x, k / 2) + SpliceMatches(b, x)
    decreases k
  {
    if k == 0 {
      assert Run(x, k) + b == b;
    } else if k == 1 {
      assert Run(x, k) + b == [x] + b;
      SpliceMatchesOneBefore(x, b);
    } else {
      SpliceMatchesRunBefore(x, k - 2, b);
      SpliceMatchesPairAhead(x, Run(x, k - 2) + b, Run(x, (k - 2) / 2), SpliceMatches(b, x));
      RunTwo(x, k, b);
      RunHalf(x, k);
    }
  }

  /** Wherever a maximal run of `k` adjacent copies of `x` stands in a tier, only alternating copies are removed:
      `k / 2` of them remain, and the parts around the run are scanned on their own. */
  lemma SpliceMatchesRunIn<F>(a: seq<F>, x: F, k: nat, b: seq<F>)
    requires a == [] || a[|a| - 1] != x
    requires b == [] || b[0] != x
    ensures SpliceMatches(a + Run(x, k) + b, x) == SpliceMatches(a, x) + Run(x, k / 2) + SpliceMatches(b, x)
  {
    assert a + Run(x, k) + b == a + (Run(x, k) + b);
    SpliceMatchesConcat(a, Run(x, k) + b, x);
    SpliceMatchesRunBefore(x, k, b);
  }

  /** Removing the callback just appended restores the tier when it held no other copy of it. */
  lemma {:induction false} SpliceMatchesAppended<F>(s: seq<F>, x: F)
    requires x !in s
    ensures SpliceMatches(s + [x], x) == s
    decreases |s|
  {
    if s != [] {
      assert (s + [x])[1..] == s[1..] + [x];
      SpliceMatchesAppended(s[1..], x);
      assert s == [s[0]] + s[1..];
    }
  }

  /** The outcome of the scan when it is at index `idx` of the live array `tier`: the entries before `idx` are final and
      the rest is still to be scanned. */
  function Scanned<F(==)>(tier: seq<F>, idx: nat, x: F): seq<F>
  {
    if idx <= |tier| then tier[..idx] + SpliceMatches(tier[idx..], x) else tier
  }

  /** One step of the scan, splicing at `idx` when the entry there is `== x`, keeps the outcome. */
  lemma SplicedStep<F>(tier: seq<F>, idx: nat, x: F)
    ensures var next := if idx < |tier| && tier[idx] == x then tier[..idx] + tier[idx + 1..] else tier;
            Scanned(next, idx + 1, x) == Scanned(tier, idx, x)
  {
    if idx < |tier| {
      var rest := tier[idx..];
      if tier[idx] == x {
        var next := tier[..idx] + tier[idx + 1..];
        if idx + 1 < |tier| {
          assert rest[2..] == tier[idx + 2..];
          assert next[..idx + 1] == tier[..idx] + [tier[idx + 1]];
          assert next[idx + 1..] == tier[idx + 2..];
        } else {
          assert next == tier[..idx];
        }
      } else {
        assert rest[1..] == tier[idx + 1..];
        assert tier[..idx + 1] == tier[..idx] + [tier[idx]];
      }
    }
  }
}
