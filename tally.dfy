/**
 * Counting category values into a JavaScript object, as `countBy` in
 * lib/dataset.ts and the `goalCounts`/`dietCounts` loops in lib/supabase.ts do:
 * `counts[v] = (counts[v] || 0) + 1` for each value in turn. The object's keys
 * are enumerated in the order they were first inserted.
 */
module Tally {

  /** One key of a counts object with its count. */
  datatype Entry = Entry(key: string, count: nat)

  ghost predicate Unique(d: seq<string>) {
    forall i, j :: 0 <= i < j < |d| ==> d[i] != d[j]
  }

  /** The distinct values of `s`, in the order of their first occurrence. */
  function Distinct(s: seq<string>): (d: seq<string>)
    ensures forall x :: x in d <==> x in s
    ensures Unique(d)
  {
    if s == [] then []
    else
      var d := Distinct(s[..|s| - 1]);
      assert s == s[..|s| - 1] + [s[|s| - 1]];
      if s[|s| - 1] in d then d else d + [s[|s| - 1]]
  }

  /** The keys of the counts object built from `s`, each with its number of occurrences. */
  function Tally(s: seq<string>): (es: seq<Entry>)
    ensures |es| == |Distinct(s)|
    ensures forall i :: 0 <= i < |es| ==> es[i].key == Distinct(s)[i]
    ensures forall i :: 0 <= i < |es| ==> es[i].count == multiset(s)[es[i].key] >= 1
  {
    var d := Distinct(s);
    assert forall i :: 0 <= i < |d| ==> d[i] in d;
    assert forall i :: 0 <= i < |d| ==> d[i] in s;
    assert forall i :: 0 <= i < |d| ==> multiset(s)[d[i]] > 0;
    seq(|d|, i requires 0 <= i < |d| => Entry(d[i], multiset(s)[d[i]]))
  }

  /** The keys of a list of entries. */
  function Keys(es: seq<Entry>): (ks: seq<string>)
    ensures |ks| == |es|
    ensures forall i :: 0 <= i < |es| ==> ks[i] == es[i].key
  {
    seq(|es|, i requires 0 <= i < |es| => es[i].key)
  }

  /**
   * The counting loop. `counts` is the object's contents and `order` its key
   * order; the result lists the object's entries as `Object.entries` does.
   */
  method CountBy(values: seq<string>) returns (entries: seq<Entry>)
    ensures entries == Tally(values)
  {
    var counts: map<string, nat> := map[];
    var order: seq<string> := [];
    for i := 0 to |values|
      invariant order == Distinct(values[..i])
      invariant forall k :: k in counts <==> k in values[..i]
      invariant forall k :: k in counts ==> counts[k] == multiset(values[..i])[k]
    {
      var v := values[i];
      assert values[..i + 1] == values[..i] + [v];
      assert values[..i + 1][..i] == values[..i];
      counts := counts[v := (if v in counts then counts[v] else 0) + 1];
      if v !in order {
        order := order + [v];
      }
    }
    assert values[..|values|] == values;
    entries := seq(|order|, j requires 0 <= j < |order| => Entry(order[j], counts[order[j]]));
  }

  // ---------------------------------------------------------------------------
  // Sums of counts

  function SumCounts(es: seq<Entry>): nat {
    if es == [] then 0 else SumCounts(es[..|es| - 1]) + es[|es| - 1].count
  }

  /** Sum of the multiplicities in `m` of the keys `ks`. */
  function SumOver(ks: seq<string>, m: multiset<string>): nat {
    if ks == [] then 0 else SumOver(ks[..|ks| - 1], m) + m[ks[|ks| - 1]]
  }

  lemma {:induction false} SumCountsOver(ks: seq<string>, m: multiset<string>)
    ensures SumCounts(seq(|ks|, i requires 0 <= i < |ks| => Entry(ks[i], m[ks[i]]))) == SumOver(ks, m)
  {
    if ks != [] {
      var es := seq(|ks|, i requires 0 <= i < |ks| => Entry(ks[i], m[ks[i]]));
      var pre := ks[..|ks| - 1];
      assert es[..|es| - 1] == seq(|pre|, i requires 0 <= i < |pre| => Entry(pre[i], m[pre[i]]));
      SumCountsOver(pre, m);
    }
  }

  lemma {:induction false} SumOverBump(ks: seq<string>, m: multiset<string>, v: string)
    requires Unique(ks)
    ensures SumOver(ks, m + multiset{v}) == SumOver(ks, m) + (if v in ks then 1 else 0)
  {
    if ks != [] {
      var pre := ks[..|ks| - 1];
      assert ks == pre + [ks[|ks| - 1]];
      SumOverBump(pre, m, v);
      assert v in ks <==> v in pre || v == ks[|ks| - 1];
      assert v == ks[|ks| - 1] ==> v !in pre;
    }
  }

  lemma {:induction false} SumOverDistinct(s: seq<string>)
    ensures SumOver(Distinct(s), multiset(s)) == |s|
  {
    if s != [] {
      var p, v := s[..|s| - 1], s[|s| - 1];
      assert s == p + [v];
      SumOverDistinct(p);
      var d := Distinct(p);
      SumOverBump(d, multiset(p), v);
      if v !in d {
        assert multiset(p)[v] == 0;
        assert (d + [v])[..|d|] == d;
      }
    }
  }

  /** The counts of a counts object add up to the number of values counted. */
  lemma TallySum(s: seq<string>)
    ensures SumCounts(Tally(s)) == |s|
  {
    SumCountsOver(Distinct(s), multiset(s));
    SumOverDistinct(s);
  }

  // ---------------------------------------------------------------------------
  // First occurrences

  /** The position of the first occurrence of `x` in `s`, or `|s|` when `x` is absent. */
  function FirstIndex(s: seq<string>, x: string): (r: nat)
    ensures r <= |s|
    ensures r < |s| ==> s[r] == x
    ensures x !in s[..r]
    ensures r == |s| <==> x !in s
  {
    if s == [] then 0
    else if s[0] == x then 0
    else
      var r := 1 + FirstIndex(s[1..], x);
      assert s[..r] == [s[0]] + s[1..][..r - 1];
      r
  }

  lemma {:induction false} FirstIndexExtend(p: seq<string>, v: string, x: string)
    requires x in p
    ensures FirstIndex(p + [v], x) == FirstIndex(p, x)
  {
    if p[0] != x {
      assert (p + [v])[1..] == p[1..] + [v];
      FirstIndexExtend(p[1..], v, x);
    }
  }

  /** `Distinct` lists the values of `s` in the order of their first occurrence. */
  lemma {:induction false} DistinctOrder(s: seq<string>)
    ensures forall i, j :: 0 <= i < j < |Distinct(s)| ==>
      FirstIndex(s, Distinct(s)[i]) < FirstIndex(s, Distinct(s)[j])
  {
    if s != [] {
      var p, v := s[..|s| - 1], s[|s| - 1];
      assert s == p + [v];
      DistinctOrder(p);
      var d := Distinct(p);
      forall x | x in p
        ensures FirstIndex(s, x) == FirstIndex(p, x) < |p|
      {
        FirstIndexExtend(p, v, x);
      }
      if v !in d {
        assert FirstIndex(s, v) == |p|;
      }
    }
  }
}
