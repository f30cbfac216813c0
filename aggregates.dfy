/** The column reductions pandas and Python apply to a column of numbers:
    min, max, the distinct values, occurrence counts, and sum and mean of counts. */
module Aggregates {

  /** `min(s)` of a non-empty column. */
  function Min(s: seq<real>): (m: real)
    requires |s| > 0
    ensures m in s && forall x :: x in s ==> m <= x
  {
    if |s| == 1 then s[0]
    else
      var r := Min(s[1..]);
      assert forall x :: x in s ==> x == s[0] || x in s[1..];
      if s[0] <= r then s[0] else r
  }

  /** `max(s)` of a non-empty column. */
  function Max(s: seq<real>): (m: real)
    requires |s| > 0
    ensures m in s && forall x :: x in s ==> x <= m
  {
    if |s| == 1 then s[0]
    else
      var r := Max(s[1..]);
      assert forall x :: x in s ==> x == s[0] || x in s[1..];
      if s[0] >= r then s[0] else r
  }

  predicate NoDups<X(==)>(d: seq<X>) {
    forall i, j :: 0 <= i < j < |d| ==> d[i] != d[j]
  }

  /** The distinct values of a column (as `unique` / group keys), each once. */
  function Distinct(s: seq<real>): (d: seq<real>)
    ensures forall x :: x in d <==> x in s
    ensures NoDups(d)
  {
    if |s| == 0 then []
    else
      var r := Distinct(s[1..]);
      assert forall x :: x in s ==> x == s[0] || x in s[1..];
      if s[0] in r then r else [s[0]] + r
  }

  /** A list without repetitions has as many entries as it has distinct values. */
  lemma {:induction false} NoDupsCard<X>(d: seq<X>)
    requires NoDups(d)
    ensures |set x | x in d| == |d|
  {
    if |d| > 0 {
      NoDupsCard(d[1..]);
      assert (set x | x in d) == {d[0]} + (set x | x in d[1..]);
      assert d[0] !in d[1..];
    }
  }

  /** `nunique`: the number of distinct values, which is the size of the set of values. */
  lemma DistinctCount(s: seq<real>)
    ensures |Distinct(s)| == |set x | x in s|
  {
    var d := Distinct(s);
    NoDupsCard(d);
    assert (set x | x in d) == (set x | x in s);
  }

  /** The number of entries of `s` equal to `v`. */
  function Count(s: seq<real>, v: real): (c: nat)
    ensures c <= |s|
    ensures c > 0 <==> v in s
  {
    if |s| == 0 then 0
    else (if s[0] == v then 1 else 0) + Count(s[1..], v)
  }

  /** The count of each value of `d` in `s`, in the order of `d` (`groupby(...).size()`). */
  function Counts(s: seq<real>, d: seq<real>): (c: seq<nat>)
    ensures |c| == |d| && forall i :: 0 <= i < |d| ==> c[i] == Count(s, d[i])
  {
    if |d| == 0 then [] else [Count(s, d[0])] + Counts(s, d[1..])
  }

  function Sum(c: seq<nat>): nat {
    if |c| == 0 then 0 else c[0] + Sum(c[1..])
  }

  /** A column of counts as a column of numbers. */
  function AsReals(c: seq<nat>): (s: seq<real>)
    ensures |s| == |c| && forall i :: 0 <= i < |c| ==> s[i] == c[i] as real
  {
    seq(|c|, i requires 0 <= i < |c| => c[i] as real)
  }

  /** `max()` of a non-empty column of counts: `Max` of the counts as numbers,
      which is one of the counts. */
  function MaxCount(c: seq<nat>): (m: nat)
    requires |c| > 0
    ensures m in c && forall x :: x in c ==> x <= m
  {
    var s := AsReals(c);
    var top := Max(s);
    assert exists i :: 0 <= i < |c| && top == c[i] as real;
    assert top.Floor >= 0 && top.Floor in c && forall x :: x in c ==> x <= top.Floor by {
      var i :| 0 <= i < |c| && top == c[i] as real;
      assert top.Floor == c[i];
      forall x | x in c ensures x <= top.Floor {
        var j :| 0 <= j < |c| && c[j] == x;
        assert s[j] in s;
      }
    }
    top.Floor
  }

  /** `mean()` of a non-empty column of counts. */
  function Mean(c: seq<nat>): real
    requires |c| > 0
  {
    (Sum(c) as real) / (|c| as real)
  }

  /** Adding one entry `a` in front of the column adds one to the count of
      each occurrence of `a` in `d`. */
  lemma {:induction false} CountsCons(a: real, s: seq<real>, d: seq<real>)
    ensures Sum(Counts([a] + s, d)) == Count(d, a) + Sum(Counts(s, d))
  {
    if |d| > 0 {
      assert ([a] + s)[1..] == s;
      CountsCons(a, s, d[1..]);
    }
  }

  lemma {:induction false} CountOnce(d: seq<real>, a: real)
    requires NoDups(d) && a in d
    ensures Count(d, a) == 1
  {
    if d[0] != a {
      CountOnce(d[1..], a);
    } else {
      assert a !in d[1..];
    }
  }

  lemma {:induction false} CountsNone(d: seq<real>)
    ensures Sum(Counts([], d)) == 0
  {
    if |d| > 0 {
      CountsNone(d[1..]);
    }
  }

  /** Counting every entry of `s` once per distinct value adds up to |s|. */
  lemma {:induction false} CountsSum(s: seq<real>, d: seq<real>)
    requires NoDups(d) && forall x :: x in s ==> x in d
    ensures Sum(Counts(s, d)) == |s|
  {
    if |s| == 0 {
      CountsNone(d);
    } else {
      assert s == [s[0]] + s[1..];
      CountsCons(s[0], s[1..], d);
      CountOnce(d, s[0]);
      CountsSum(s[1..], d);
    }
  }

  /** A sum of entries that are each at most `b` is at most |c| * b. */
  lemma {:induction false} SumAtMost(c: seq<nat>, b: nat)
    requires forall i :: 0 <= i < |c| ==> c[i] <= b
    ensures Sum(c) <= |c| * b
  {
    if |c| > 0 {
      SumAtMost(c[1..], b);
      assert |c| * b == b + (|c| - 1) * b;
    }
  }

  /** The mean of counts lies at most at their maximum. */
  lemma MeanAtMostMax(c: seq<nat>)
    requires |c| > 0
    ensures Mean(c) <= MaxCount(c) as real
  {
    var m := MaxCount(c);
    assert forall i :: 0 <= i < |c| ==> c[i] <= m by {
      forall i | 0 <= i < |c| ensures c[i] <= m {
        assert c[i] in c;
      }
    }
    SumAtMost(c, m);
    RatioAtMost(Sum(c), |c|, m);
  }

  lemma RatioAtMost(s: nat, n: nat, m: nat)
    requires n > 0 && s <= n * m
    ensures (s as real) / (n as real) <= m as real
  {
    assert (s as real) <= (n as real) * (m as real);
  }
}
