/** `Array.prototype.filter` and `slice(0, end)` on sequences. */
module JsArray {

  /** `s.filter(keep)`: the elements satisfying `keep`, in their order in `s`. */
  function Filter<T>(s: seq<T>, keep: T -> bool): (r: seq<T>)
    ensures |r| <= |s|
    ensures forall i :: 0 <= i < |r| ==> keep(r[i]) && r[i] in s
  {
    if s == [] then []
    else
      var rest := Filter(s[..|s| - 1], keep);
      assert forall x :: x in s[..|s| - 1] ==> x in s;
      rest + (if keep(s[|s| - 1]) then [s[|s| - 1]] else [])
  }

  /** Every element of `s` that satisfies `keep` survives the filter. */
  lemma {:induction false} FilterKeeps<T>(s: seq<T>, keep: T -> bool, x: T)
    requires x in s && keep(x)
    ensures x in Filter(s, keep)
  {
    var p := s[..|s| - 1];
    assert s == p + [s[|s| - 1]];
    if x != s[|s| - 1] {
      FilterKeeps(p, keep, x);
    }
  }

  /** The filter keeps every copy of an element that satisfies `keep` and no copy of one that does not. */
  lemma {:induction false} FilterCounts<T>(s: seq<T>, keep: T -> bool, x: T)
    ensures multiset(Filter(s, keep))[x] == if keep(x) then multiset(s)[x] else 0
  {
    if s != [] {
      var p := s[..|s| - 1];
      assert s == p + [s[|s| - 1]];
      FilterCounts(p, keep, x);
    }
  }

  /** A filter that keeps every element returns the sequence itself. */
  lemma {:induction false} FilterAll<T>(s: seq<T>, keep: T -> bool)
    requires forall i :: 0 <= i < |s| ==> keep(s[i])
    ensures Filter(s, keep) == s
  {
    if s != [] {
      var p := s[..|s| - 1];
      assert s == p + [s[|s| - 1]];
      FilterAll(p, keep);
    }
  }

  /** Filtering a concatenation filters each part. */
  lemma {:induction false} FilterAppend<T>(s: seq<T>, x: T, keep: T -> bool)
    ensures Filter(s + [x], keep) == Filter(s, keep) + (if keep(x) then [x] else [])
  {
    assert (s + [x])[..|s + [x]| - 1] == s;
  }

  /** The positions in `s` of the elements the filter keeps. */
  ghost function KeptIndices<T>(s: seq<T>, keep: T -> bool): seq<int> {
    if s == [] then []
    else KeptIndices(s[..|s| - 1], keep) + (if keep(s[|s| - 1]) then [|s| - 1] else [])
  }

  /**
   * The filter is the subsequence of `s` at increasing positions that holds
   * every element satisfying `keep`: the kept elements keep their order.
   */
  lemma {:induction false} FilterOrder<T>(s: seq<T>, keep: T -> bool)
    ensures |KeptIndices(s, keep)| == |Filter(s, keep)|
    ensures forall k :: 0 <= k < |KeptIndices(s, keep)| ==>
      0 <= KeptIndices(s, keep)[k] < |s| && Filter(s, keep)[k] == s[KeptIndices(s, keep)[k]]
    ensures forall k, l :: 0 <= k < l < |KeptIndices(s, keep)| ==>
      KeptIndices(s, keep)[k] < KeptIndices(s, keep)[l]
    ensures forall i :: 0 <= i < |s| && keep(s[i]) ==> i in KeptIndices(s, keep)
  {
    if s != [] {
      var p := s[..|s| - 1];
      FilterOrder(p, keep);
      var ks0, ks := KeptIndices(p, keep), KeptIndices(s, keep);
      var r0, r := Filter(p, keep), Filter(s, keep);
      if keep(s[|s| - 1]) {
        assert ks == ks0 + [|s| - 1] && r == r0 + [s[|s| - 1]];
        forall k | 0 <= k < |ks|
          ensures 0 <= ks[k] < |s| && r[k] == s[ks[k]]
        {
          if k < |ks0| {
            assert ks[k] == ks0[k] && r[k] == r0[k];
          }
        }
        forall k, l | 0 <= k < l < |ks|
          ensures ks[k] < ks[l]
        {
          assert ks[k] == ks0[k];
          if l < |ks0| {
            assert ks[l] == ks0[l];
          }
        }
      } else {
        assert ks == ks0 && r == r0;
      }
      forall i | 0 <= i < |s| && keep(s[i])
        ensures i in ks
      {
        if i < |p| {
          assert p[i] == s[i];
          assert i in ks0;
        }
      }
    }
  }

  /** Two filters whose conditions never hold together keep at most `|s|` elements between them. */
  lemma {:induction false} FilterDisjoint<T>(s: seq<T>, p: T -> bool, q: T -> bool)
    requires forall x :: x in s ==> !(p(x) && q(x))
    ensures |Filter(s, p)| + |Filter(s, q)| <= |s|
  {
    if s != [] {
      var pre := s[..|s| - 1];
      assert forall x :: x in pre ==> x in s;
      FilterDisjoint(pre, p, q);
    }
  }

  /** `s.map(f)`. */
  function Project<T, U>(s: seq<T>, f: T -> U): (r: seq<U>)
    ensures |r| == |s|
    ensures forall i :: 0 <= i < |s| ==> r[i] == f(s[i])
  {
    seq(|s|, i requires 0 <= i < |s| => f(s[i]))
  }

  /** `s.filter((x) => key(x) === k)`. */
  function Where<T>(s: seq<T>, key: T -> string, k: string): (r: seq<T>)
    ensures forall i :: 0 <= i < |r| ==> key(r[i]) == k && r[i] in s
  {
    Filter(s, x => key(x) == k)
  }

  /** Filtering on a key's value keeps exactly as many elements as the key takes that value. */
  lemma {:induction false} WhereCount<T>(s: seq<T>, key: T -> string, k: string)
    ensures |Where(s, key, k)| == multiset(Project(s, key))[k]
  {
    if s != [] {
      var p := s[..|s| - 1];
      WhereCount(p, key, k);
      assert Project(s, key) == Project(p, key) + [key(s[|s| - 1])];
    }
  }

  /** `s.slice(0, end)`: a negative `end` counts back from the end of `s`. */
  function SliceTo<T>(s: seq<T>, end: int): (r: seq<T>)
    ensures |r| <= |s| && r == s[..|r|]
    ensures 0 <= end ==> |r| == if end < |s| then end else |s|
    ensures end < 0 ==> |r| == if |s| + end < 0 then 0 else |s| + end
  {
    var k := if end < 0 then (if |s| + end < 0 then 0 else |s| + end)
             else if end < |s| then end else |s|;
    s[..k]
  }
}
