/**
 * `Array.prototype.sort` with a comparator of the form `(a, b) => key(b) - key(a)`:
 * a stable sort into non-increasing key order. A stable sort with a consistent
 * comparator has exactly one possible result, so insertion sort describes it
 * exactly.
 */
module StableSort {

  ghost predicate SortedDesc<T>(s: seq<T>, key: T -> int) {
    forall i, j :: 0 <= i < j < |s| ==> key(s[i]) >= key(s[j])
  }

  /** `rank` strictly increases along `s` (the order of `s` is the order of `rank`). */
  ghost predicate RankIncreasing<T>(s: seq<T>, rank: T -> int) {
    forall i, j :: 0 <= i < j < |s| ==> rank(s[i]) < rank(s[j])
  }

  /** Elements of `s` with equal keys appear in increasing `rank`. */
  ghost predicate StableBy<T>(s: seq<T>, key: T -> int, rank: T -> int) {
    forall i, j :: 0 <= i < j < |s| && key(s[i]) == key(s[j]) ==> rank(s[i]) < rank(s[j])
  }

  /** Puts `x` in front of the first element whose key is not larger than its own. */
  function Insert<T>(x: T, s: seq<T>, key: T -> int): (r: seq<T>)
    ensures multiset(r) == multiset(s) + multiset{x}
    ensures |r| == |s| + 1
  {
    if s == [] || key(x) >= key(s[0]) then [x] + s
    else
      assert s == [s[0]] + s[1..];
      [s[0]] + Insert(x, s[1..], key)
  }

  /** Every element of `Insert(x, s, key)` is `x` or an element of `s`. */
  lemma {:induction false} InsertMembers<T>(x: T, s: seq<T>, key: T -> int)
    ensures forall j :: 0 <= j < |Insert(x, s, key)| ==>
      Insert(x, s, key)[j] == x || Insert(x, s, key)[j] in s
  {
    if s != [] && key(x) < key(s[0]) {
      InsertMembers(x, s[1..], key);
      var t := Insert(x, s[1..], key);
      assert Insert(x, s, key) == [s[0]] + t;
      forall j | 0 < j < |t| + 1
        ensures ([s[0]] + t)[j] == x || ([s[0]] + t)[j] in s
      {
        assert ([s[0]] + t)[j] == t[j - 1];
        assert t[j - 1] in s[1..] ==> t[j - 1] in s;
      }
    }
  }

  lemma {:induction false} InsertSorted<T>(x: T, s: seq<T>, key: T -> int)
    requires SortedDesc(s, key)
    ensures SortedDesc(Insert(x, s, key), key)
  {
    var r := Insert(x, s, key);
    if s == [] || key(x) >= key(s[0]) {
      assert r == [x] + s;
      forall i, j | 0 <= i < j < |r|
        ensures key(r[i]) >= key(r[j])
      {
        assert r[j] == s[j - 1];
        if i > 0 {
          assert r[i] == s[i - 1];
        } else {
          assert key(s[0]) >= key(s[j - 1]);
        }
      }
    } else {
      var t := Insert(x, s[1..], key);
      InsertSorted(x, s[1..], key);
      InsertMembers(x, s[1..], key);
      assert r == [s[0]] + t;
      forall i, j | 0 <= i < j < |r|
        ensures key(r[i]) >= key(r[j])
      {
        assert r[j] == t[j - 1];
        if i > 0 {
          assert r[i] == t[i - 1];
        } else if t[j - 1] != x {
          var k :| 0 <= k < |s[1..]| && s[1..][k] == t[j - 1];
          assert s[k + 1] == t[j - 1];
        }
      }
    }
  }

  /** The stable sort of `s` into non-increasing key order. */
  function SortDesc<T>(s: seq<T>, key: T -> int): (r: seq<T>)
    ensures multiset(r) == multiset(s)
    ensures |r| == |s|
    ensures SortedDesc(r, key)
  {
    if s == [] then []
    else
      assert s == [s[0]] + s[1..];
      InsertSorted(s[0], SortDesc(s[1..], key), key);
      Insert(s[0], SortDesc(s[1..], key), key)
  }

  lemma {:induction false} InsertStable<T>(x: T, s: seq<T>, key: T -> int, rank: T -> int)
    requires SortedDesc(s, key) && StableBy(s, key, rank)
    requires forall y :: y in s ==> rank(x) < rank(y)
    ensures StableBy(Insert(x, s, key), key, rank)
  {
    if s == [] || key(x) >= key(s[0]) {
      StableInFront(x, s, key, rank);
    } else {
      var t := Insert(x, s[1..], key);
      InsertStable(x, s[1..], key, rank);
      InsertMembers(x, s[1..], key);
      StableBehindHead(x, s, t, key, rank);
    }
  }

  /** `x` placed in front of `s` keeps ties in rank order when it ranks below all of `s`. */
  lemma StableInFront<T>(x: T, s: seq<T>, key: T -> int, rank: T -> int)
    requires StableBy(s, key, rank)
    requires forall y :: y in s ==> rank(x) < rank(y)
    ensures StableBy([x] + s, key, rank)
  {
    var r := [x] + s;
    forall i, j | 0 <= i < j < |r| && key(r[i]) == key(r[j])
      ensures rank(r[i]) < rank(r[j])
    {
      assert r[j] == s[j - 1];
      if i > 0 {
        assert r[i] == s[i - 1];
      } else {
        assert s[j - 1] in s;
      }
    }
  }

  /** The head of `s` kept in front of the insertion into the rest keeps ties in rank order. */
  lemma StableBehindHead<T>(x: T, s: seq<T>, t: seq<T>, key: T -> int, rank: T -> int)
    requires s != [] && key(x) < key(s[0])
    requires StableBy(s, key, rank) && StableBy(t, key, rank)
    requires forall j :: 0 <= j < |t| ==> t[j] == x || t[j] in s[1..]
    ensures StableBy([s[0]] + t, key, rank)
  {
    var r := [s[0]] + t;
    forall i, j | 0 <= i < j < |r| && key(r[i]) == key(r[j])
      ensures rank(r[i]) < rank(r[j])
    {
      assert r[j] == t[j - 1];
      if i > 0 {
        assert r[i] == t[i - 1];
      } else {
        var y := t[j - 1];
        assert y != x;
        var k :| 0 <= k < |s[1..]| && s[1..][k] == y;
        assert s[k + 1] == y;
      }
    }
  }

  /** Elements with equal keys keep their relative input order. */
  lemma {:induction false} SortDescStable<T>(s: seq<T>, key: T -> int, rank: T -> int)
    requires RankIncreasing(s, rank)
    ensures StableBy(SortDesc(s, key), key, rank)
  {
    if s != [] {
      var r := SortDesc(s[1..], key);
      SortDescStable(s[1..], key, rank);
      forall y | y in r
        ensures rank(s[0]) < rank(y)
      {
        assert y in multiset(s[1..]);
        var k :| 0 <= k < |s[1..]| && s[1..][k] == y;
        assert s[k + 1] == y;
      }
      InsertStable(s[0], r, key, rank);
    }
  }

  /** Every element of the sorted sequence comes from the input, and conversely. */
  lemma SortDescMembers<T>(s: seq<T>, key: T -> int)
    ensures forall x :: x in SortDesc(s, key) <==> x in s
  {
    var r := SortDesc(s, key);
    forall x
      ensures x in r <==> x in s
    {
      assert x in r <==> x in multiset(r);
      assert x in s <==> x in multiset(s);
    }
  }

  // ---------------------------------------------------------------------------
  // Permutations of sequences without repeats

  ghost predicate NoRepeats<T>(s: seq<T>) {
    forall i, j :: 0 <= i < j < |s| ==> s[i] != s[j]
  }

  lemma {:induction false} NoRepeatsOnce<T>(s: seq<T>)
    requires NoRepeats(s)
    ensures forall x :: multiset(s)[x] <= 1
  {
    if s != [] {
      var p := s[..|s| - 1];
      assert s == p + [s[|s| - 1]];
      NoRepeatsOnce(p);
      assert forall i :: 0 <= i < |p| ==> p[i] != s[|s| - 1];
    }
  }

  lemma RepeatCountsTwice<T>(s: seq<T>, i: nat, j: nat)
    requires i < j < |s|
    ensures s[i] == s[j] ==> multiset(s)[s[i]] >= 2
  {
    assert s == s[..j] + [s[j]] + s[j + 1..];
    assert s[..j][i] == s[i];
  }

  /** A permutation of a sequence without repeats has none either. */
  lemma NoRepeatsPermutation<T>(a: seq<T>, b: seq<T>)
    requires multiset(a) == multiset(b) && NoRepeats(b)
    ensures NoRepeats(a)
  {
    NoRepeatsOnce(b);
    forall i, j | 0 <= i < j < |a|
      ensures a[i] != a[j]
    {
      RepeatCountsTwice(a, i, j);
    }
  }
}
