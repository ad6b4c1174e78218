/** Median time past (calcMedianTimePast in internal/consensus/validation.go). */
module MedianTime {
  import opened Types

  // ---------------------------------------------------------------------- insertion sort

  /** Puts a key into a sorted list, behind everything not above it. */
  function Insert(s: seq<u32>, key: u32): (r: seq<u32>)
    ensures |r| == |s| + 1
  {
    if s == [] || s[|s| - 1] <= key then s + [key]
    else Insert(s[..|s| - 1], key) + [s[|s| - 1]]
  }

  function Sorted(ts: seq<u32>): (r: seq<u32>)
    ensures |r| == |ts|
  {
    if ts == [] then [] else Insert(Sorted(ts[..|ts| - 1]), ts[|ts| - 1])
  }

  ghost predicate Ascending(s: seq<u32>) {
    forall i, j :: 0 <= i < j < |s| ==> s[i] <= s[j]
  }

  lemma {:induction false} InsertKeeps(s: seq<u32>, key: u32)
    ensures multiset(Insert(s, key)) == multiset(s) + multiset{key}
  {
    if s != [] && s[|s| - 1] > key {
      var init, last := s[..|s| - 1], s[|s| - 1];
      assert s == init + [last];
      InsertKeeps(init, key);
    }
  }

  lemma {:induction false} InsertSorts(s: seq<u32>, key: u32)
    requires Ascending(s)
    ensures Ascending(Insert(s, key))
  {
    if s != [] && s[|s| - 1] > key {
      var init, last := s[..|s| - 1], s[|s| - 1];
      InsertSorts(init, key);
      InsertKeeps(init, key);
      var r := Insert(init, key);
      forall i | 0 <= i < |r| ensures r[i] <= last {
        assert r[i] in multiset(r);
        assert r[i] == key || r[i] in init;
      }
    }
  }

  /** The result is the same timestamps in ascending order. */
  lemma {:induction false} SortedIsSorted(ts: seq<u32>)
    ensures Ascending(Sorted(ts)) && multiset(Sorted(ts)) == multiset(ts)
  {
    if ts != [] {
      var init, last := ts[..|ts| - 1], ts[|ts| - 1];
      assert ts == init + [last];
      SortedIsSorted(init);
      InsertSorts(Sorted(init), last);
      InsertKeeps(Sorted(init), last);
    }
  }

  lemma {:induction false} InsertShifts(s: seq<u32>, key: u32, j: nat)
    requires j < |s| && s[j] > key
    ensures Insert(s[..j + 1], key) + s[j + 1..] == Insert(s[..j], key) + s[j..]
  {
    assert s[..j + 1][..j] == s[..j];
    assert [s[j]] + s[j + 1..] == s[j..];
  }

  /** With everything above the key shifted up, the key written into the gap completes the insertion. */
  lemma {:induction false} InsertLands(s: seq<u32>, key: u32, j: nat, r: seq<u32>)
    requires j <= |s| && (j > 0 ==> s[j - 1] <= key) && |r| == |s| + 1
    requires Insert(s, key) == Insert(s[..j], key) + s[j..]
    requires r[j] == key && (forall k :: 0 <= k < j ==> r[k] == s[k]) && (forall k :: j < k < |r| ==> r[k] == s[k - 1])
    ensures r == Insert(s, key)
  {
    assert Insert(s, key) == s[..j] + [key] + s[j..];
    assert r == s[..j] + [key] + s[j..];
  }

  /** The in-place inner loop: shift larger entries up, then write the key. */
  method InsertInPlace(a: array<u32>, i: nat)
    requires i < a.Length
    modifies a
    ensures a[..i + 1] == Insert(old(a[..i]), old(a[i]))
    ensures forall k :: i < k < a.Length ==> a[k] == old(a[k])
  {
    hide Insert;
    ghost var s := a[..i];
    var key := a[i];
    var j: int := i - 1;
    assert s[..j + 1] == s && s[j + 1..] == [];
    while j >= 0 && a[j] > key
      invariant -1 <= j < i
      invariant forall k :: 0 <= k <= j ==> a[k] == s[k]
      invariant forall k :: j + 2 <= k <= i ==> a[k] == s[k - 1]
      invariant forall k :: i < k < a.Length ==> a[k] == old(a[k])
      invariant Insert(s, key) == Insert(s[..j + 1], key) + s[j + 1..]
    {
      InsertShifts(s, key, j);
      a[j + 1] := a[j];
      j := j - 1;
    }
    a[j + 1] := key;
    InsertLands(s, key, j + 1, a[..i + 1]);
  }

  method SortInPlace(a: array<u32>)
    modifies a
    ensures a[..] == Sorted(old(a[..]))
  {
    ghost var ts := a[..];
    for i := 0 to a.Length
      invariant a[..i] == Sorted(ts[..i])
      invariant forall k :: i <= k < a.Length ==> a[k] == ts[k]
    {
      assert ts[..i + 1][..i] == ts[..i];
      InsertInPlace(a, i);
    }
    assert a[..] == a[..a.Length];
    assert ts[..a.Length] == ts;
  }

  // ------------------------------------------------------------------------------ median

  function Median(ts: seq<u32>): u32 {
    if ts == [] then 0 else Sorted(ts)[|ts| / 2]
  }

  function CountBelow(ts: seq<u32>, m: u32): nat {
    if ts == [] then 0 else CountBelow(ts[..|ts| - 1], m) + if ts[|ts| - 1] < m then 1 else 0
  }

  lemma {:induction false} CountBelowInsert(s: seq<u32>, key: u32, m: u32)
    ensures CountBelow(Insert(s, key), m) == CountBelow(s, m) + if key < m then 1 else 0
  {
    if s == [] || s[|s| - 1] <= key {
      assert (s + [key])[..|s|] == s;
    } else {
      var init, last := s[..|s| - 1], s[|s| - 1];
      CountBelowInsert(init, key, m);
      assert (Insert(init, key) + [last])[..|s|] == Insert(init, key);
    }
  }

  lemma {:induction false} CountBelowSorted(ts: seq<u32>, m: u32)
    ensures CountBelow(Sorted(ts), m) == CountBelow(ts, m)
  {
    if ts != [] {
      CountBelowSorted(ts[..|ts| - 1], m);
      CountBelowInsert(Sorted(ts[..|ts| - 1]), ts[|ts| - 1], m);
    }
  }

  /** In an ascending list the entry at `k` reaches `m` exactly when at most `k` entries are below `m`. */
  lemma {:induction false} RankDecides(s: seq<u32>, m: u32, k: nat)
    requires Ascending(s) && k < |s|
    ensures s[k] >= m <==> CountBelow(s, m) <= k
    ensures CountBelow(s, m) <= |s|
    ensures s[|s| - 1] < m ==> CountBelow(s, m) == |s|
  {
    var n := |s| - 1;
    var init := s[..n];
    if n > 0 {
      RankDecides(init, m, if k < n then k else n - 1);
      assert init[n - 1] == s[n - 1];
    } else {
      assert CountBelow(init, m) == 0;
    }
  }

  lemma {:induction false} MedianByCount(ts: seq<u32>, m: u32)
    requires ts != []
    ensures Median(ts) >= m <==> CountBelow(ts, m) <= |ts| / 2
  {
    SortedIsSorted(ts);
    RankDecides(Sorted(ts), m, |ts| / 2);
    CountBelowSorted(ts, m);
  }

  lemma {:induction false} CountBelowPrepend(t: u32, ts: seq<u32>, m: u32)
    ensures CountBelow([t] + ts, m) == CountBelow(ts, m) + if t < m then 1 else 0
  {
    if ts == [] {
      assert [t] + ts == [t] && [t][..0] == [];
      assert CountBelow([t][..0], m) == 0;
    } else {
      assert ([t] + ts)[..|ts|] == [t] + ts[..|ts| - 1];
      CountBelowPrepend(t, ts[..|ts| - 1], m);
    }
  }

  lemma {:induction false} CountBelowPrefix(ts: seq<u32>, k: nat, m: u32)
    requires k <= |ts|
    ensures CountBelow(ts[..k], m) <= CountBelow(ts, m)
  {
    if k == |ts| {
      assert ts[..k] == ts;
    } else {
      assert ts[..|ts| - 1][..k] == ts[..k];
      CountBelowPrefix(ts[..|ts| - 1], k, m);
    }
  }

  const MEDIAN_COUNT: nat := 11

  /** The window after one more block: the new time, then all but the oldest of a full window. */
  function Slide(ts: seq<u32>, t: u32): seq<u32> {
    [t] + if |ts| < MEDIAN_COUNT then ts else ts[..MEDIAN_COUNT - 1]
  }

  /** A time above the median never lowers the median, full window or not. */
  lemma {:induction false} MedianNeverDecreases(ts: seq<u32>, t: u32)
    requires 0 < |ts| <= MEDIAN_COUNT && t > Median(ts)
    ensures Median(Slide(ts, t)) >= Median(ts)
  {
    var m := Median(ts);
    var kept := if |ts| < MEDIAN_COUNT then ts else ts[..MEDIAN_COUNT - 1];
    MedianByCount(ts, m);
    if |ts| == MEDIAN_COUNT { CountBelowPrefix(ts, MEDIAN_COUNT - 1, m); }
    CountBelowPrepend(t, kept, m);
    MedianByCount([t] + kept, m);
  }
}
