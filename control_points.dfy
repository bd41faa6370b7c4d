/**
 * The control-point lists kept by Gradient, Terrace and Curve: sorted by key, and
 * searched by one scan that stops at the first key greater than the looked-up value.
 */
module ControlPoints {

  /** The keys of a list of (key, value) entries. */
  function Keys<V>(s: seq<(real, V)>): (keys: seq<real>)
    ensures |keys| == |s|
    ensures forall i :: 0 <= i < |s| ==> keys[i] == s[i].0
  {
    seq(|s|, i requires 0 <= i < |s| => s[i].0)
  }

  ghost predicate StrictlyIncreasing(keys: seq<real>)
  {
    forall i, j :: 0 <= i < j < |keys| ==> keys[i] < keys[j]
  }

  ghost predicate Ascending(keys: seq<real>)
  {
    forall i, j :: 0 <= i < j < |keys| ==> keys[i] <= keys[j]
  }

  /**
   * Where the lookup scans stop: the index of the first key greater than `v`, or
   * |keys| when no key is.
   */
  function FirstAbove(keys: seq<real>, v: real): (i: nat)
    ensures i <= |keys|
    ensures forall j :: 0 <= j < i ==> keys[j] <= v
    ensures i < |keys| ==> v < keys[i]
  {
    if keys == [] then 0
    else if v < keys[0] then 0
    else 1 + FirstAbove(keys[1..], v)
  }

  /** The two properties of FirstAbove's contract determine its result. */
  lemma FirstAboveUnique(keys: seq<real>, v: real, i: nat)
    requires i <= |keys|
    requires forall j :: 0 <= j < i ==> keys[j] <= v
    requires i < |keys| ==> v < keys[i]
    ensures i == FirstAbove(keys, v)
  {
  }

  /** In an ascending list the scan stops at 0 exactly below the first key and at |keys| exactly at or above the last. */
  lemma FirstAboveEnds(keys: seq<real>, v: real)
    requires |keys| >= 1 && Ascending(keys)
    ensures FirstAbove(keys, v) == 0 <==> v < keys[0]
    ensures FirstAbove(keys, v) == |keys| <==> v >= keys[|keys| - 1]
  {
  }

  /** In an ascending list, a bracketing pair of neighbours fixes where the scan stops. */
  lemma FirstAboveBracket(keys: seq<real>, v: real, i: nat)
    requires Ascending(keys)
    requires i + 1 < |keys| && keys[i] <= v < keys[i + 1]
    ensures FirstAbove(keys, v) == i + 1
  {
    forall j | 0 <= j < i + 1
      ensures keys[j] <= v
    {
      if j < i {
        assert keys[j] <= keys[i];
      }
    }
    FirstAboveUnique(keys, v, i + 1);
  }

  /** Index of the first entry whose key is `key`, or |s| when there is none. */
  function FirstKeyIndex<V>(s: seq<(real, V)>, key: real): (i: nat)
    ensures i <= |s|
    ensures forall j :: 0 <= j < i ==> s[j].0 != key
    ensures i < |s| ==> s[i].0 == key
  {
    if s == [] then 0
    else if s[0].0 == key then 0
    else 1 + FirstKeyIndex(s[1..], key)
  }

  /** The two properties of FirstKeyIndex's contract determine its result. */
  lemma FirstKeyIndexUnique<V>(s: seq<(real, V)>, key: real, i: nat)
    requires i <= |s|
    requires forall j :: 0 <= j < i ==> s[j].0 != key
    requires i < |s| ==> s[i].0 == key
    ensures i == FirstKeyIndex(s, key)
  {
  }

  /** `s` with entry `k` removed, or `s` itself when `k` is past its end. */
  function RemoveAt<T>(s: seq<T>, k: nat): (r: seq<T>)
    ensures k < |s| ==> |r| == |s| - 1
    ensures k >= |s| ==> r == s
    ensures forall j :: 0 <= j < k && j < |r| ==> r[j] == s[j]
    ensures forall j :: k <= j < |r| ==> r[j] == s[j + 1]
  {
    if k < |s| then s[..k] + s[k + 1..] else s
  }

  /** `s` with `e` inserted before position `k`. */
  function InsertAt<T>(s: seq<T>, k: nat, e: T): (r: seq<T>)
    requires k <= |s|
    ensures |r| == |s| + 1 && r[k] == e
    ensures forall j :: 0 <= j < k ==> r[j] == s[j]
    ensures forall j :: k < j < |r| ==> r[j] == s[j - 1]
    ensures multiset(r) == multiset(s) + multiset{e}
  {
    assert s == s[..k] + s[k..];
    s[..k] + [e] + s[k..]
  }

  /** `e` placed after every entry whose key is at most its own: one step of a stable insertion sort. */
  function InsertSorted<V>(s: seq<(real, V)>, e: (real, V)): seq<(real, V)>
  {
    InsertAt(s, FirstAbove(Keys(s), e.0), e)
  }

  /**
   * `List.Sort` by key: the entries of `s` rearranged so their keys ascend. The model
   * is a stable insertion sort; on lists with distinct keys every sort agrees with it.
   */
  function SortByKey<V>(s: seq<(real, V)>): (r: seq<(real, V)>)
    ensures |r| == |s| && multiset(r) == multiset(s)
  {
    if s == [] then []
    else
      assert s == s[..|s| - 1] + [s[|s| - 1]];
      InsertSorted(SortByKey(s[..|s| - 1]), s[|s| - 1])
  }

  /** Inserting into an ascending list keeps it ascending. */
  lemma InsertSortedAscending<V>(s: seq<(real, V)>, e: (real, V))
    requires Ascending(Keys(s))
    ensures Ascending(Keys(InsertSorted(s, e)))
  {
    var j := FirstAbove(Keys(s), e.0);
    var r := InsertSorted(s, e);
    forall a, b | 0 <= a < b < |r|
      ensures Keys(r)[a] <= Keys(r)[b]
    {
      if b < j {
        assert Keys(s)[a] <= Keys(s)[b];
      } else if b == j {
        assert Keys(s)[a] <= e.0;
      } else if a < j {
        assert Keys(s)[a] <= e.0 < Keys(s)[j];
        assert j == b - 1 || Keys(s)[j] <= Keys(s)[b - 1];
      } else if a == j {
        assert j == b - 1 || Keys(s)[j] <= Keys(s)[b - 1];
      } else {
        assert Keys(s)[a - 1] <= Keys(s)[b - 1];
      }
    }
  }

  /** The sort leaves the keys ascending. */
  lemma {:induction false} SortByKeyAscending<V>(s: seq<(real, V)>)
    ensures Ascending(Keys(SortByKey(s)))
  {
    if s != [] {
      SortByKeyAscending(s[..|s| - 1]);
      InsertSortedAscending(SortByKey(s[..|s| - 1]), s[|s| - 1]);
    }
  }

  /** The sort leaves an already ascending list as it is. */
  lemma {:induction false} SortByKeyOfAscending<V>(s: seq<(real, V)>)
    requires Ascending(Keys(s))
    ensures SortByKey(s) == s
  {
    if s != [] {
      var n := |s| - 1;
      var init := s[..n];
      assert Ascending(Keys(init)) by {
        forall a, b | 0 <= a < b < |init|
          ensures Keys(init)[a] <= Keys(init)[b]
        {
          assert Keys(s)[a] <= Keys(s)[b];
        }
      }
      SortByKeyOfAscending(init);
      forall j | 0 <= j < n
        ensures Keys(init)[j] <= s[n].0
      {
        assert Keys(s)[j] <= Keys(s)[n];
      }
      FirstAboveUnique(Keys(init), s[n].0, n);
      InsertAtEnd(init, s[n]);
      assert s == init + [s[n]];
    }
  }

  lemma InsertAtEnd<T>(s: seq<T>, e: T)
    ensures InsertAt(s, |s|, e) == s + [e]
  {
    assert s[..|s|] == s && s[|s|..] == [];
  }

  /** Appending one entry to an ascending list and sorting inserts it where the lookup scan stops. */
  lemma SortAppend<V>(s: seq<(real, V)>, e: (real, V))
    requires Ascending(Keys(s))
    ensures SortByKey(s + [e]) == InsertSorted(s, e)
  {
    assert (s + [e])[..|s|] == s;
    SortByKeyOfAscending(s);
  }

  /** The lookup scan of Gradient, Terrace and Curve: the first index whose key exceeds `v`. */
  method ScanAbove(keys: seq<real>, v: real) returns (i: nat)
    ensures i == FirstAbove(keys, v)
  {
    i := 0;
    while i < |keys|
      invariant i <= |keys|
      invariant forall j :: 0 <= j < i ==> keys[j] <= v
    {
      if v < keys[i] {
        break;
      }
      i := i + 1;
    }
    FirstAboveUnique(keys, v, i);
  }

  /** A list of plain values seen as entries without a payload, so that `SortByKey` orders it. */
  function Tagged(s: seq<real>): (t: seq<(real, ())>)
    ensures |t| == |s| && Keys(t) == s
  {
    seq(|s|, i requires 0 <= i < |s| => (s[i], ()))
  }

  /** `List<double>.Sort`: the values of `s` in ascending order. */
  function SortValues(s: seq<real>): (r: seq<real>)
    ensures |r| == |s| && Ascending(r)
    ensures multiset(r) == multiset(s)
  {
    SortByKeyAscending(Tagged(s));
    SortByKeyKeys(Tagged(s));
    Keys(SortByKey(Tagged(s)))
  }

  /** The keys of the sorted list are a rearrangement of the keys. */
  lemma {:induction false} SortByKeyKeys<V>(s: seq<(real, V)>)
    ensures multiset(Keys(SortByKey(s))) == multiset(Keys(s))
  {
    if s != [] {
      var init, e := s[..|s| - 1], s[|s| - 1];
      assert s == init + [e];
      SortByKeyKeys(init);
      var t := SortByKey(init);
      KeysInsertAt(t, FirstAbove(Keys(t), e.0), e);
      assert Keys(s) == Keys(init) + [e.0];
    }
  }

  lemma KeysInsertAt<V>(s: seq<(real, V)>, k: nat, e: (real, V))
    requires k <= |s|
    ensures Keys(InsertAt(s, k, e)) == InsertAt(Keys(s), k, e.0)
  {
  }

  /** Sorting an ascending list leaves it as it is. */
  lemma SortValuesOfAscending(s: seq<real>)
    requires Ascending(s)
    ensures SortValues(s) == s
  {
    SortByKeyOfAscending(Tagged(s));
  }

  /** Appending a value to an ascending list and sorting inserts it where the lookup scan stops. */
  lemma SortValuesAppend(s: seq<real>, v: real)
    requires Ascending(s)
    ensures SortValues(s + [v]) == InsertAt(s, FirstAbove(s, v), v)
  {
    assert Tagged(s + [v]) == Tagged(s) + [(v, ())];
    SortAppend(Tagged(s), (v, ()));
    KeysInsertAt(Tagged(s), FirstAbove(s, v), (v, ()));
  }
}
