/** Values shared by every part of the model. */
module Common {

  /** A nullable value: Kotlin's `T?`, and a document field that may be absent. */
  datatype Option<+T> = None | Some(value: T) {
    function GetOr(default: T): T {
      match this
      case Some(v) => v
      case None => default
    }
  }

  /** A map position in degrees (`LatLng`); the coordinates are exact reals here. */
  datatype LatLng = LatLng(latitude: real, longitude: real)

  /** `Location.distanceBetween`: the surface distance in metres between two positions. */
  type Distance = (LatLng, LatLng) -> real

  /** The elements of a sequence, as a set. */
  function Elements<T>(s: seq<T>): (r: set<T>)
    ensures forall i :: 0 <= i < |s| ==> s[i] in r
    ensures forall x :: x in r ==> exists i :: 0 <= i < |s| && s[i] == x
  {
    set x | x in s
  }

  /** No element occurs twice (a snapshot never lists one document id twice). */
  predicate Distinct<T(==)>(s: seq<T>) {
    forall i, j :: 0 <= i < j < |s| ==> s[i] != s[j]
  }

  /** `filter`: the elements satisfying `p`, in their order. */
  function Filter<T>(s: seq<T>, p: T -> bool): (r: seq<T>)
    ensures |r| <= |s|
  {
    if s == [] then []
    else if p(s[|s| - 1]) then Filter(s[..|s| - 1], p) + [s[|s| - 1]]
    else Filter(s[..|s| - 1], p)
  }

  /**
   * `Filter` keeps exactly the elements satisfying `p`, in order: `idx` picks
   * them out of `s`, strictly increasing, and misses none.
   */
  lemma {:induction false} FilterPicks<T>(s: seq<T>, p: T -> bool) returns (idx: seq<int>)
    ensures |idx| == |Filter(s, p)|
    ensures forall k :: 0 <= k < |idx| ==> 0 <= idx[k] < |s| && Filter(s, p)[k] == s[idx[k]] && p(s[idx[k]])
    ensures forall k, l :: 0 <= k < l < |idx| ==> idx[k] < idx[l]
    ensures forall i :: 0 <= i < |s| && p(s[i]) ==> i in idx
  {
    if s == [] {
      return [];
    }
    var n := |s| - 1;
    var init := s[..n];
    var prev := FilterPicks(init, p);
    var r := Filter(s, p);
    idx := if p(s[n]) then prev + [n] else prev;
    assert r == if p(s[n]) then Filter(init, p) + [s[n]] else Filter(init, p);
    forall k | 0 <= k < |idx|
      ensures 0 <= idx[k] < |s| && r[k] == s[idx[k]] && p(s[idx[k]])
    {
      if k < |prev| {
        assert idx[k] == prev[k] && r[k] == Filter(init, p)[k] == init[prev[k]];
      }
    }
    forall i | 0 <= i < |s| && p(s[i])
      ensures i in idx
    {
      if i < n {
        assert init[i] == s[i];
      }
    }
  }

  /** Filtering with two predicates that agree on every element gives the same result. */
  lemma {:induction false} FilterCongruent<T>(s: seq<T>, p: T -> bool, q: T -> bool)
    requires forall x :: x in s ==> p(x) == q(x)
    ensures Filter(s, p) == Filter(s, q)
  {
    if s != [] {
      FilterCongruent(s[..|s| - 1], p, q);
    }
  }

  /** A predicate every element satisfies filters nothing out. */
  lemma {:induction false} FilterAll<T>(s: seq<T>, p: T -> bool)
    requires forall x :: x in s ==> p(x)
    ensures Filter(s, p) == s
  {
    if s != [] {
      var n := |s| - 1;
      FilterAll(s[..n], p);
      assert s[..n] + [s[n]] == s;
    }
  }
}
