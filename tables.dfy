/**
 A topic's priority table as the registry stores it: a JavaScript array whose
 array indices are the priority tiers (an index never assigned is a hole) and
 which may also carry plain, non-index properties. Two kinds of key land in the
 properties: a number too large to be an array index, and the callback itself,
 which the two-argument form of subscribe uses as its key.
 */
module Tables {
  import opened Wrappers

  /** The key a tier is stored under: a number, or a callback used as a property name. */
  datatype Key<F> = IntKey(n: nat) | FnKey(f: F)

  /** Array indices are the integers below 2^32 - 1; a larger number is an ordinary property name. */
  const IndexBound: nat := 0xFFFF_FFFF

  /** Whether `k` addresses an array slot rather than a property. */
  predicate IsIndex<F>(k: Key<F>)
  {
    k.IntKey? && k.n < IndexBound
  }

  /** `slots[i]` is the tier at index `i` (`None` is a hole); `named` holds the tiers under non-index keys. */
  datatype Table<F(==)> = Table(slots: seq<Option<seq<F>>>, named: map<Key<F>, seq<F>>)

  /** The array literal `[]`. */
  function Empty<F(==,!new)>(): (t: Table<F>)
    ensures forall k :: Get(t, k) == None
  {
    Table([], map[])
  }

  /** Reading `table[k]`: a hole, an index past the end and a missing property all read as absent. */
  function Get<F(==)>(t: Table<F>, k: Key<F>): (r: Option<seq<F>>)
    ensures r.Some? && IsIndex(k) ==> k.n < |t.slots| && t.slots[k.n] == r
    ensures r.Some? && !IsIndex(k) ==> k in t.named && t.named[k] == r.value
  {
    if IsIndex(k) then (if k.n < |t.slots| then t.slots[k.n] else None)
    else if k in t.named then Some(t.named[k]) else None
  }

  /** Assigning `table[k] = s`. An index at or past the end grows the array to
      `k + 1` elements, leaving holes in between; any other key sets a property
      and leaves the array's slots and length alone. */
  function Put<F(==,!new)>(t: Table<F>, k: Key<F>, s: seq<F>): (r: Table<F>)
    ensures Get(r, k) == Some(s)
    ensures forall k' :: k' != k ==> Get(r, k') == Get(t, k')
    ensures !IsIndex(k) ==> r.slots == t.slots
    ensures IsIndex(k) ==> r.named == t.named
    ensures IsIndex(k) ==> |r.slots| == if k.n < |t.slots| then |t.slots| else k.n + 1
  {
    if IsIndex(k) then
      if k.n < |t.slots| then t.(slots := t.slots[k.n := Some(s)])
      else t.(slots := t.slots + seq(k.n - |t.slots|, _ => None) + [Some(s)])
    else t.(named := t.named[k := s])
  }

  /** Writing back what a key already holds changes nothing. */
  lemma PutSame<F(!new)>(t: Table<F>, k: Key<F>, s: seq<F>)
    requires Get(t, k) == Some(s)
    ensures Put(t, k, s) == t
  {
  }

  /** A second assignment to the same key overrides the first entirely, array length included. */
  lemma PutPut<F(!new)>(t: Table<F>, k: Key<F>, a: seq<F>, b: seq<F>)
    ensures Put(Put(t, k, a), k, b) == Put(t, k, b)
  {
  }
}
