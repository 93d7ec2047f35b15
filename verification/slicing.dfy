/**
 `MetricSnapshotFactory.sortDescendingAndSlice`: the entries of a frequency
 map are sorted by count and the first `maxEntries` are kept. The entries
 arrive in the map's iteration order, given here as a sequence (whose keys
 are distinct). A stream over a map's entries is unordered, so the source
 does not promise which of several equal counts comes first; the model fixes
 that order: the insertion sort below is stable with respect to the given
 sequence.

 The source sorts with `Map.Entry.comparingByValue()`, which is ASCENDING, so
 it keeps the `maxEntries` SMALLEST counts, although the method's name and its
 test ask for the largest. `SliceAscending` is that code as written;
 `SliceDescending` is the intended top-N selection. The snapshot is modelled
 in both directions.
 */
module Slicing {

  /** A map entry: a key and its count. */
  type Entry = (string, nat)

  datatype Direction = Ascending | Descending

  /** `a` may precede `b` in a sequence sorted in direction `d`. */
  predicate InOrder(d: Direction, a: Entry, b: Entry)
  {
    match d
    case Ascending => a.1 <= b.1
    case Descending => a.1 >= b.1
  }

  predicate Sorted(d: Direction, s: seq<Entry>)
  {
    forall i, j | 0 <= i < j < |s| :: InOrder(d, s[i], s[j])
  }

  predicate DistinctKeys(s: seq<Entry>)
  {
    forall i, j | 0 <= i < j < |s| :: s[i].0 != s[j].0
  }

  /** In a sequence with distinct keys no entry occurs twice. */
  lemma {:induction false} DistinctKeysOccurOnce(s: seq<Entry>, x: Entry)
    requires DistinctKeys(s)
    ensures multiset(s)[x] <= 1
    decreases |s|
  {
    if s != [] {
      assert s == [s[0]] + s[1..];
      assert DistinctKeys(s[1..]);
      DistinctKeysOccurOnce(s[1..], x);
      if x == s[0] {
        forall j | 0 <= j < |s[1..]|
          ensures s[1..][j] != x
        {
          assert s[1..][j] == s[j + 1];
        }
      }
    }
  }

  /**
   Entries drawn from a sequence with distinct keys, where equal keys come with
   equal counts, have distinct keys too.
   */
  lemma DistinctSubMultiset(t: seq<Entry>, s: seq<Entry>)
    requires DistinctKeys(s) && multiset(t) <= multiset(s)
    requires forall i, j | 0 <= i < j < |t| && t[i].0 == t[j].0 :: t[i].1 == t[j].1
    ensures DistinctKeys(t)
  {
    forall i, j | 0 <= i < j < |t|
      ensures t[i].0 != t[j].0
    {
      DistinctKeysOccurOnce(s, t[i]);
      assert t == t[..j] + t[j..];
      assert t[i] in t[..j];
      assert multiset(t)[t[i]] == multiset(t[..j])[t[i]] + multiset(t[j..])[t[i]];
      assert t[j] in t[j..];
    }
  }

  function Min(a: nat, b: nat): nat
  {
    if a <= b then a else b
  }

  /** Inserts `x` before the first element it may precede (so after all it must follow). */
  function Insert(d: Direction, x: Entry, s: seq<Entry>): (r: seq<Entry>)
    requires Sorted(d, s)
    ensures Sorted(d, r)
    ensures multiset(r) == multiset(s) + multiset{x}
  {
    if s == [] || InOrder(d, x, s[0]) then
      [x] + s
    else
      assert s == [s[0]] + s[1..];
      var rest := Insert(d, x, s[1..]);
      FirstPrecedesInsert(d, x, s, rest);
      [s[0]] + rest
  }

  /** The head of a sorted `s` that `x` may not precede may precede everything `Insert` builds from the tail. */
  lemma FirstPrecedesInsert(d: Direction, x: Entry, s: seq<Entry>, rest: seq<Entry>)
    requires Sorted(d, s) && s != [] && !InOrder(d, x, s[0])
    requires multiset(rest) == multiset(s[1..]) + multiset{x}
    ensures forall j | 0 <= j < |rest| :: InOrder(d, s[0], rest[j])
  {
    forall j | 0 <= j < |rest|
      ensures InOrder(d, s[0], rest[j])
    {
      assert rest[j] in multiset(rest);
      if rest[j] != x {
        assert rest[j] in multiset(s[1..]);
        var k :| 0 <= k < |s[1..]| && s[1..][k] == rest[j];
        assert s[k + 1] == rest[j];
      }
    }
  }

  /** In a sorted sequence, everything before position `k` may precede everything from `k` on. */
  lemma SortedSplit(d: Direction, t: seq<Entry>, k: nat)
    requires Sorted(d, t) && k <= |t|
    ensures forall y, x | y in t[..k] && x in t[k..] :: InOrder(d, y, x)
  {
    forall y, x | y in t[..k] && x in t[k..]
      ensures InOrder(d, y, x)
    {
      var i :| 0 <= i < k && t[..k][i] == y;
      var j :| 0 <= j < |t| - k && t[k..][j] == x;
      assert t[i] == y && t[k + j] == x;
    }
  }

  /** A stable insertion sort. */
  function Sort(d: Direction, s: seq<Entry>): (r: seq<Entry>)
    ensures Sorted(d, r)
    ensures multiset(r) == multiset(s)
    ensures |r| == |s|
  {
    if s == [] then []
    else
      assert s == [s[0]] + s[1..];
      Insert(d, s[0], Sort(d, s[1..]))
  }

  /** Stability on sorted input: the sort leaves a sequence already in order exactly as it is. */
  lemma {:induction false} SortKeepsSorted(d: Direction, s: seq<Entry>)
    requires Sorted(d, s)
    ensures Sort(d, s) == s
    decreases |s|
  {
    if s != [] {
      assert Sorted(d, s[1..]);
      SortKeepsSorted(d, s[1..]);
      assert s == [s[0]] + s[1..];
    }
  }

  /** Stability at the tail: an entry that may precede nothing of a sorted `s` goes after all of it. */
  lemma {:induction false} InsertAfterAll(d: Direction, x: Entry, s: seq<Entry>)
    requires Sorted(d, s)
    requires forall i | 0 <= i < |s| :: !InOrder(d, x, s[i])
    ensures Insert(d, x, s) == s + [x]
    decreases |s|
  {
    if s != [] {
      assert Sorted(d, s[1..]);
      InsertAfterAll(d, x, s[1..]);
      assert s == [s[0]] + s[1..];
    }
  }

  function Reverse(s: seq<Entry>): (r: seq<Entry>)
    ensures |r| == |s|
  {
    if s == [] then [] else Reverse(s[1..]) + [s[0]]
  }

  lemma {:induction false} ReverseAt(s: seq<Entry>, i: nat)
    requires i < |s|
    ensures Reverse(s)[i] == s[|s| - 1 - i]
    decreases |s|
  {
    if i < |s| - 1 {
      ReverseAt(s[1..], i);
    }
  }

  /** The counts strictly increase along `s`. */
  predicate Increasing(s: seq<Entry>)
  {
    forall i, j | 0 <= i < j < |s| :: s[i].1 < s[j].1
  }

  /** The head of an increasing `s` may precede nothing that a permutation `t` of its tail holds, in descending order. */
  lemma HeadBelowTail(s: seq<Entry>, t: seq<Entry>)
    requires Increasing(s) && s != [] && multiset(t) == multiset(s[1..])
    ensures forall i | 0 <= i < |t| :: !InOrder(Descending, s[0], t[i])
  {
    forall i | 0 <= i < |t|
      ensures !InOrder(Descending, s[0], t[i])
    {
      assert t[i] in multiset(s[1..]);
      var k :| 0 <= k < |s[1..]| && s[1..][k] == t[i];
      assert s[k + 1] == t[i];
    }
  }

  /** Entries whose counts strictly increase come out of the descending sort in reverse. */
  lemma {:induction false} SortReversesIncreasing(s: seq<Entry>)
    requires Increasing(s)
    ensures Sort(Descending, s) == Reverse(s)
    decreases |s|
  {
    if s != [] {
      var t := Sort(Descending, s[1..]);
      assert Increasing(s[1..]);
      SortReversesIncreasing(s[1..]);
      HeadBelowTail(s, t);
      InsertAfterAll(Descending, s[0], t);
      assert s == [s[0]] + s[1..];
    }
  }

  /** Of entries whose counts strictly increase, the ascending slice to two keeps the first two as they are. */
  lemma BottomTwoOfIncreasing(s: seq<Entry>)
    requires Increasing(s)
    requires |s| >= 2
    ensures SliceAscending(s, 2) == [s[0], s[1]]
  {
    assert Sorted(Ascending, s);
    SortKeepsSorted(Ascending, s);
    SliceIsSortedPrefix(Ascending, s, 2);
    assert s[..2] == [s[0], s[1]];
  }

  /** Of entries whose counts strictly increase, the descending slice to two keeps the last two, last first. */
  lemma TopTwoOfIncreasing(s: seq<Entry>)
    requires Increasing(s)
    requires |s| >= 2
    ensures SliceDescending(s, 2) == [s[|s| - 1], s[|s| - 2]]
  {
    SortReversesIncreasing(s);
    ReverseAt(s, 0);
    ReverseAt(s, 1);
    var r := Reverse(s);
    assert Sort(Descending, s)[..2] == [r[0], r[1]];
    SliceIsSortedPrefix(Descending, s, 2);
  }

  /** The slice is the sorted sequence cut to length. */
  lemma SliceIsSortedPrefix(d: Direction, s: seq<Entry>, maxEntries: nat)
    ensures Slice(d, s, maxEntries) == Sort(d, s)[..Min(maxEntries, |s|)]
  {
  }

  /**
   Sort in direction `d`, then keep the first `maxEntries`: the result is as long
   as it can be, is taken from the input, is sorted, and every entry left out
   comes after every entry kept.
   */
  function Slice(d: Direction, s: seq<Entry>, maxEntries: nat): (r: seq<Entry>)
    ensures |r| == Min(maxEntries, |s|)
    ensures multiset(r) <= multiset(s)
    ensures Sorted(d, r)
    ensures forall y, x | y in r && x in multiset(s) - multiset(r) :: InOrder(d, y, x)
  {
    var t := Sort(d, s);
    assert |multiset(t)| == |multiset(s)|;
    var k := Min(maxEntries, |t|);
    PrefixOfSorted(d, s, t, k);
    t[..k]
  }

  /** The facts `Slice` promises, for the prefix of length `k` of a sorted permutation `t` of `s`. */
  lemma PrefixOfSorted(d: Direction, s: seq<Entry>, t: seq<Entry>, k: nat)
    requires Sorted(d, t) && multiset(t) == multiset(s) && k <= |t|
    ensures multiset(t[..k]) <= multiset(s)
    ensures Sorted(d, t[..k])
    ensures forall y, x | y in t[..k] && x in multiset(s) - multiset(t[..k]) :: InOrder(d, y, x)
  {
    var r := t[..k];
    assert t == r + t[k..];
    assert multiset(t) == multiset(r) + multiset(t[k..]);
    assert multiset(s) - multiset(r) == multiset(t[k..]);
    SortedSplit(d, t, k);
    forall y, x | y in r && x in multiset(s) - multiset(r)
      ensures InOrder(d, y, x)
    {
      assert x in multiset(t[k..]);
      assert x in t[k..];
    }
  }

  /** `sortDescendingAndSlice` as written: the `maxEntries` smallest counts. */
  function SliceAscending(s: seq<Entry>, maxEntries: nat): (r: seq<Entry>)
    ensures |r| == Min(maxEntries, |s|)
    ensures multiset(r) <= multiset(s)
    ensures forall y, x | y in r && x in multiset(s) - multiset(r) :: y.1 <= x.1
  {
    Slice(Ascending, s, maxEntries)
  }

  /** The intended top-N selection: the `maxEntries` largest counts, largest first. */
  function SliceDescending(s: seq<Entry>, maxEntries: nat): (r: seq<Entry>)
    ensures |r| == Min(maxEntries, |s|)
    ensures multiset(r) <= multiset(s)
    ensures Sorted(Descending, r)
    ensures forall y, x | y in r && x in multiset(s) - multiset(r) :: y.1 >= x.1
  {
    Slice(Descending, s, maxEntries)
  }
}
