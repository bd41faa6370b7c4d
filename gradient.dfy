/**
 * The colour gradient of Gradient.cs: a list of (position, colour) stops kept sorted
 * by position. Reading a position interpolates between the two stops around it.
 * Colours are opaque, and `Color.Lerp` is supplied by the caller.
 */
module Gradients {
  import opened Wrappers
  import opened ModuleBase
  import opened Utils
  import opened ControlPoints

  /** The interpolation weight between stops at `lo` and `hi`, reversed when inverted. */
  function Factor(lo: real, hi: real, position: real, inverted: bool): (a: real)
    requires lo < hi
    ensures lo <= position < hi ==> (if inverted then 0.0 < a <= 1.0 else 0.0 <= a < 1.0)
    ensures inverted ==> a == 1.0 - Factor(lo, hi, position, false)
  {
    var a := (position - lo) / (hi - lo);
    RatioInUnit(position - lo, hi - lo);
    if inverted then 1.0 - a else a
  }

  /**
   * What the indexer getter returns: the stops `i0 = i - 1` and `i1 = i` around the
   * first stop above `position`, both clamped into the list.
   */
  function Lookup<C>(data: seq<(real, C)>, inverted: bool, position: real, lerp: (C, C, real) -> C): C
    requires |data| >= 1
  {
    var i := FirstAbove(Keys(data), position);
    var i0 := ClampInt(i - 1, 0, |data| - 1);
    var i1 := ClampInt(i, 0, |data| - 1);
    if i0 == i1 then data[i1].1
    else lerp(data[i0].1, data[i1].1, Factor(data[i0].0, data[i1].0, position, inverted))
  }

  /** What the indexer setter leaves: the first stop at `position` removed, then the new stop added and the list sorted. */
  function Upsert<C>(data: seq<(real, C)>, position: real, colour: C): seq<(real, C)>
  {
    SortByKey(RemoveAt(data, FirstKeyIndex(data, position)) + [(position, colour)])
  }

  /** The setter's first loop: removes the first stop at `position`, if there is one. */
  method RemoveFirstAt<C>(data: seq<(real, C)>, position: real) returns (r: seq<(real, C)>)
    ensures r == RemoveAt(data, FirstKeyIndex(data, position))
  {
    r := data;
    var i := 0;
    while i < |r|
      invariant 0 <= i <= |r| && r == data
      invariant forall j :: 0 <= j < i ==> r[j].0 != position
    {
      if r[i].0 == position {
        r := r[..i] + r[i + 1..];
        FirstKeyIndexUnique(data, position, i);
        return;
      }
      i := i + 1;
    }
    FirstKeyIndexUnique(data, position, i);
  }

  /** A position below the first stop reads the first colour. */
  lemma LookupBelowFirst<C>(data: seq<(real, C)>, inverted: bool, position: real, lerp: (C, C, real) -> C)
    requires |data| >= 1 && position < data[0].0
    ensures Lookup(data, inverted, position, lerp) == data[0].1
  {
    assert FirstAbove(Keys(data), position) == 0;
  }

  /** In a sorted list, a position at or above the last stop reads the last colour. */
  lemma LookupAtOrAboveLast<C>(data: seq<(real, C)>, inverted: bool, position: real, lerp: (C, C, real) -> C)
    requires |data| >= 1 && Ascending(Keys(data)) && position >= data[|data| - 1].0
    ensures Lookup(data, inverted, position, lerp) == data[|data| - 1].1
  {
    FirstAboveEnds(Keys(data), position);
  }

  /**
   * In a sorted list, a position between neighbouring stops i and i + 1 interpolates
   * their colours by a weight in [0, 1) (in (0, 1] when inverted: only the weight is
   * reversed, never the colours).
   */
  lemma LookupInterior<C>(data: seq<(real, C)>, inverted: bool, position: real, lerp: (C, C, real) -> C, i: nat)
    requires Ascending(Keys(data))
    requires i + 1 < |data| && data[i].0 <= position < data[i + 1].0
    ensures Lookup(data, inverted, position, lerp)
         == lerp(data[i].1, data[i + 1].1, Factor(data[i].0, data[i + 1].0, position, inverted))
    ensures !inverted ==> 0.0 <= Factor(data[i].0, data[i + 1].0, position, inverted) < 1.0
    ensures inverted ==> 0.0 < Factor(data[i].0, data[i + 1].0, position, inverted) <= 1.0
  {
    FirstAboveBracket(Keys(data), position, i);
  }

  /** Removing one stop keeps the positions strictly increasing. */
  lemma RemoveKeepsOrder<C>(data: seq<(real, C)>, k: nat)
    requires StrictlyIncreasing(Keys(data))
    ensures StrictlyIncreasing(Keys(RemoveAt(data, k)))
  {
    var rest := RemoveAt(data, k);
    forall a, b | 0 <= a < b < |rest|
      ensures Keys(rest)[a] < Keys(rest)[b]
    {
      var a' := if a < k then a else a + 1;
      var b' := if b < k then b else b + 1;
      assert Keys(data)[a'] < Keys(data)[b'];
    }
  }

  /** After removing the first stop at `position` from a strictly sorted list, none is left. */
  lemma RemoveFirstLeavesNone<C>(data: seq<(real, C)>, position: real)
    requires StrictlyIncreasing(Keys(data))
    ensures forall a :: 0 <= a < |RemoveAt(data, FirstKeyIndex(data, position))| ==>
      RemoveAt(data, FirstKeyIndex(data, position))[a].0 != position
  {
    var k := FirstKeyIndex(data, position);
    var rest := RemoveAt(data, k);
    forall a | 0 <= a < |rest|
      ensures rest[a].0 != position
    {
      if a >= k {
        assert Keys(data)[k] < Keys(data)[a + 1];
      }
    }
  }

  /** Inserting a new position at the place the scan finds keeps the list strictly sorted. */
  lemma InsertKeepsOrder<C>(rest: seq<(real, C)>, position: real, colour: C)
    requires StrictlyIncreasing(Keys(rest))
    requires forall a :: 0 <= a < |rest| ==> rest[a].0 != position
    ensures StrictlyIncreasing(Keys(InsertAt(rest, FirstAbove(Keys(rest), position), (position, colour))))
  {
    var keys := Keys(rest);
    var j := FirstAbove(keys, position);
    var r := InsertAt(rest, j, (position, colour));
    forall a, b | 0 <= a < b < |r|
      ensures Keys(r)[a] < Keys(r)[b]
    {
      if b < j {
        assert keys[a] < keys[b];
      } else if b == j {
        assert keys[a] <= position && keys[a] != position;
      } else if a < j {
        assert keys[a] <= position && keys[a] != position;
        assert position < keys[j];
        assert j == b - 1 || keys[j] < keys[b - 1];
      } else if a == j {
        assert position < keys[j];
        assert j == b - 1 || keys[j] < keys[b - 1];
      } else {
        assert keys[a - 1] < keys[b - 1];
      }
    }
  }

  /** Removing the entry at `k` keeps every entry at another position. */
  lemma RemoveKeepsOthers<C>(data: seq<(real, C)>, position: real, e: (real, C))
    requires e.0 != position
    ensures e in RemoveAt(data, FirstKeyIndex(data, position)) <==> e in data
  {
    var k := FirstKeyIndex(data, position);
    var rest := RemoveAt(data, k);
    if k < |data| {
      assert data == rest[..k] + [data[k]] + rest[k..];
      assert rest == rest[..k] + rest[k..];
    }
  }

  /** On a strictly sorted list the setter's sort just inserts the new stop where the lookup scan stops. */
  lemma UpsertIsInsert<C>(data: seq<(real, C)>, position: real, colour: C)
    requires StrictlyIncreasing(Keys(data))
    ensures var rest := RemoveAt(data, FirstKeyIndex(data, position));
      Upsert(data, position, colour) == InsertAt(rest, FirstAbove(Keys(rest), position), (position, colour))
  {
    var rest := RemoveAt(data, FirstKeyIndex(data, position));
    RemoveKeepsOrder(data, FirstKeyIndex(data, position));
    SortAppend(rest, (position, colour));
  }

  /** The setter keeps the stops strictly sorted. */
  lemma UpsertSorted<C>(data: seq<(real, C)>, position: real, colour: C)
    requires StrictlyIncreasing(Keys(data))
    ensures StrictlyIncreasing(Keys(Upsert(data, position, colour)))
  {
    var rest := RemoveAt(data, FirstKeyIndex(data, position));
    RemoveKeepsOrder(data, FirstKeyIndex(data, position));
    RemoveFirstLeavesNone(data, position);
    UpsertIsInsert(data, position, colour);
    InsertKeepsOrder(rest, position, colour);
  }

  /** After the setter there is a stop at `position`, and every stop there holds `colour`. */
  lemma UpsertStores<C>(data: seq<(real, C)>, position: real, colour: C)
    requires StrictlyIncreasing(Keys(data))
    ensures var r := Upsert(data, position, colour);
      && (exists k :: 0 <= k < |r| && r[k] == (position, colour))
      && (forall k :: 0 <= k < |r| && r[k].0 == position ==> r[k].1 == colour)
  {
    var rest := RemoveAt(data, FirstKeyIndex(data, position));
    RemoveFirstLeavesNone(data, position);
    UpsertIsInsert(data, position, colour);
    var j := FirstAbove(Keys(rest), position);
    var r := InsertAt(rest, j, (position, colour));
    assert r[j] == (position, colour);
    forall k | 0 <= k < |r| && r[k].0 == position
      ensures r[k].1 == colour
    {
      assert k == j;
    }
  }

  /** The setter keeps every stop at another position, and adds none there. */
  lemma UpsertKeepsOthers<C>(data: seq<(real, C)>, position: real, colour: C, e: (real, C))
    requires StrictlyIncreasing(Keys(data)) && e.0 != position
    ensures e in Upsert(data, position, colour) <==> e in data
  {
    var rest := RemoveAt(data, FirstKeyIndex(data, position));
    UpsertIsInsert(data, position, colour);
    var r := InsertAt(rest, FirstAbove(Keys(rest), position), (position, colour));
    assert e in r <==> e in multiset(r);
    assert e in rest <==> e in multiset(rest);
    RemoveKeepsOthers(data, position, e);
  }

  /** The setter grows the list by one exactly when `position` was new. */
  lemma UpsertCount<C>(data: seq<(real, C)>, position: real, colour: C)
    ensures |Upsert(data, position, colour)| == if position in Keys(data) then |data| else |data| + 1
  {
    var k := FirstKeyIndex(data, position);
    if position in Keys(data) {
      var p :| 0 <= p < |data| && Keys(data)[p] == position;
      assert k <= p;
    }
  }

  /** `m_data`: the list object holding the colour stops, shared by every copy of a gradient. */
  class Stops<C> {
    var data: seq<(real, C)>

    constructor (data: seq<(real, C)>)
      ensures this.data == data
    {
      this.data := data;
    }
  }

  /**
   * Gradient.cs declares a struct of the stop list and the inversion flag. Copying a
   * gradient copies the flag but not the list: every copy reads and writes the same
   * `Stops` object, while setting `IsInverted` on one copy leaves the others' flags.
   */
  datatype Gradient<C> = Gradient(stops: Stops<C>, inverted: bool)
  {
    /** At least two stops, at strictly increasing positions. */
    ghost predicate Valid()
      reads stops
    {
      |stops.data| >= 2 && StrictlyIncreasing(Keys(stops.data))
    }

    /** `Gradient(Color color)`: a new list with two stops of one colour, at -1 and 1. */
    static method Solid(colour: C) returns (g: Gradient<C>)
      ensures fresh(g.stops) && g.stops.data == [(-1.0, colour), (1.0, colour)] && !g.inverted
      ensures g.Valid()
    {
      var stops := new Stops([(-1.0, colour), (1.0, colour)]);
      g := Gradient(stops, false);
    }

    /** `Gradient(Color start, Color end)`: a new list with `start` at -1 and `end` at 1. */
    static method FromTo(start: C, end: C) returns (g: Gradient<C>)
      ensures fresh(g.stops) && g.stops.data == [(-1.0, start), (1.0, end)] && !g.inverted
      ensures g.Valid()
    {
      var stops := new Stops([(-1.0, start), (1.0, end)]);
      g := Gradient(stops, false);
    }

    /** The indexer getter: scans for the first stop above `position`, then interpolates. */
    method Get(position: real, lerp: (C, C, real) -> C) returns (colour: C)
      requires Valid()
      ensures colour == Lookup(stops.data, inverted, position, lerp)
    {
      var data := stops.data;
      var i: int := ScanAbove(Keys(data), position);
      var i0 := ClampInt(i - 1, 0, |data| - 1);
      var i1 := ClampInt(i, 0, |data| - 1);
      if i0 == i1 {
        return data[i1].1;
      }
      var ip0 := data[i0].0;
      var ip1 := data[i1].0;
      assert ip0 < ip1 by {
        assert i0 == i - 1 && i1 == i;
      }
      var a := (position - ip0) / (ip1 - ip0);
      if inverted {
        a := 1.0 - a;
        ip0, ip1 := ip1, ip0;
      }
      assert a == Factor(data[i0].0, data[i1].0, position, inverted);
      colour := lerp(data[i0].1, data[i1].1, a);
    }

    /**
     * The indexer setter: drops the first stop at `position`, adds the new one, sorts.
     * It changes the shared list, so every copy of the gradient sees the new stop.
     */
    method Set(position: real, colour: C)
      requires Valid()
      modifies stops
      ensures stops.data == Upsert(old(stops.data), position, colour)
      ensures Valid()
    {
      var data := stops.data;
      UpsertSorted(data, position, colour);
      UpsertCount(data, position, colour);
      data := RemoveFirstAt(data, position);
      data := data + [(position, colour)];
      stops.data := SortByKey(data);
    }

    /**
     * The `IsInverted` setter, applied to one copy: that copy gets the new flag and
     * keeps sharing the same list; other copies keep theirs.
     */
    function SetInverted(value: bool): (g: Gradient<C>)
      ensures g.stops == stops && g.inverted == value
    {
      Gradient(stops, value)
    }

    /** `Clear`: the shared list becomes two stops at 0 and 1, both the transparent colour `clear`. */
    method Clear(clear: C)
      modifies stops
      ensures stops.data == [(0.0, clear), (1.0, clear)]
      ensures Valid()
    {
      stops.data := [(0.0, clear), (1.0, clear)];
    }

    /** `Invert` is not implemented and always throws. */
    method Invert() returns (r: Outcome<Fault>)
      ensures r == Fail(NotImplemented)
    {
      r := Fail(NotImplemented);
    }
  }

  /**
   * A copy given its own flag: a stop set through the copy lands in the original's
   * list too, while the original's flag is whatever it was.
   */
  method SetThroughCopy<C>(g: Gradient<C>, value: bool, position: real, colour: C) returns (copy: Gradient<C>)
    requires g.Valid()
    modifies g.stops
    ensures copy.stops == g.stops && copy.inverted == value
    ensures g.stops.data == Upsert(old(g.stops.data), position, colour) && g.Valid()
  {
    copy := g.SetInverted(value);
    copy.Set(position, colour);
  }
}
