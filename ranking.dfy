/** The ranking step each rarity model of helpers/rarity.ts ends with: the
    distinct scores (a JavaScript `Set`, i.e. a list without repeats in
    insertion order) are sorted ascending, or ascending and then reversed, a
    counter starting at 1 numbers them in that order, and every token gets
    the number of its score. The result is a dense rank. */
module Ranking {

  function Elems(s: seq<real>): set<real> {
    set y | y in s
  }

  /** The scores strictly below `x`. */
  function Below(scores: set<real>, x: real): set<real> {
    set y | y in scores && y < x
  }

  /** The scores strictly above `x`. */
  function Above(scores: set<real>, x: real): set<real> {
    set y | y in scores && y > x
  }

  /** The dense rank of `x` among `scores`: one more than the number of
      distinct scores before it, counting from the lowest score, or from the
      highest one when `descending`. */
  function DenseRank(descending: bool, scores: set<real>, x: real): nat {
    1 + |if descending then Above(scores, x) else Below(scores, x)|
  }

  predicate StrictlyIncreasing(s: seq<real>) {
    forall i, j :: 0 <= i < j < |s| ==> s[i] < s[j]
  }

  function Reverse(s: seq<real>): (r: seq<real>)
    ensures |r| == |s| && forall i :: 0 <= i < |s| ==> r[i] == s[|s| - 1 - i]
  {
    seq(|s|, i requires 0 <= i < |s| => s[|s| - 1 - i])
  }

  /** The least element of a non-empty list. */
  function MinOf(s: seq<real>): (m: real)
    requires |s| > 0
    ensures m in s && forall y :: y in s ==> m <= y
  {
    if |s| == 1 then s[0]
    else
      var rest := MinOf(s[1..]);
      assert forall y :: y in s ==> y == s[0] || y in s[1..];
      if s[0] < rest then s[0] else rest
  }

  /** `s` with every occurrence of `x` removed. */
  function Without(s: seq<real>, x: real): (r: seq<real>)
    ensures forall y :: y in r <==> y in s && y != x
    ensures x in s ==> |r| < |s|
    ensures |r| <= |s|
  {
    if s == [] then []
    else
      var rest := Without(s[1..], x);
      assert forall y :: y in s ==> y == s[0] || y in s[1..];
      if s[0] == x then rest else [s[0]] + rest
  }

  /** `[...shares].sort((a, b) => a - b)`: the distinct scores in ascending
      order, each once. */
  method SortAscending(shares: seq<real>) returns (sorted: seq<real>)
    ensures StrictlyIncreasing(sorted)
    ensures Elems(sorted) == Elems(shares)
  {
    sorted := [];
    var rest := shares;
    while |rest| > 0
      invariant StrictlyIncreasing(sorted)
      invariant forall x :: x in shares <==> x in sorted || x in rest
      invariant forall i, y :: 0 <= i < |sorted| && y in rest ==> sorted[i] < y
      decreases |rest|
    {
      var m := MinOf(rest);
      sorted := sorted + [m];
      rest := Without(rest, m);
    }
    assert forall x :: x in Elems(sorted) <==> x in Elems(shares);
  }

  /** The counter loop: the score at position `i` of `order` is given rank
      `i + 1`. */
  method NumberInOrder(order: seq<real>) returns (ranks: map<real, nat>)
    requires forall i, j :: 0 <= i < j < |order| ==> order[i] != order[j]
    ensures forall x :: x in ranks <==> x in order
    ensures forall i :: 0 <= i < |order| ==> order[i] in ranks && ranks[order[i]] == i + 1
  {
    ranks := map[];
    var count := 1;
    var i := 0;
    while i < |order|
      invariant 0 <= i <= |order| && count == i + 1
      invariant forall x :: x in ranks <==> x in order[..i]
      invariant forall k :: 0 <= k < i ==> order[k] in ranks && ranks[order[k]] == k + 1
    {
      assert order[..i + 1] == order[..i] + [order[i]];
      ranks := ranks[order[i] := count];
      count := count + 1;
      i := i + 1;
    }
    assert order[..i] == order;
  }

  /** The rank table of one model: every distinct score mapped to its dense
      rank, ascending or descending. */
  method RankTable(descending: bool, shares: seq<real>) returns (ranks: map<real, nat>)
    ensures ranks.Keys == Elems(shares)
    ensures forall x :: x in ranks ==> ranks[x] == DenseRank(descending, Elems(shares), x)
  {
    var sorted := SortAscending(shares);
    var order := if descending then Reverse(sorted) else sorted;
    OrderDistinct(descending, sorted, order);
    ranks := NumberInOrder(order);
    NumberingIsRank(descending, sorted, order, Elems(shares), ranks);
  }

  /** The order the counter walks holds the sorted scores, once each. */
  lemma OrderDistinct(descending: bool, sorted: seq<real>, order: seq<real>)
    requires StrictlyIncreasing(sorted)
    requires order == if descending then Reverse(sorted) else sorted
    ensures forall i, j :: 0 <= i < j < |order| ==> order[i] != order[j]
    ensures forall x :: x in order <==> x in sorted
  {
    forall x | x in sorted ensures x in order {
      var j :| 0 <= j < |sorted| && sorted[j] == x;
      assert order[if descending then |sorted| - 1 - j else j] == x;
    }
  }

  /** Numbering the sorted scores, or their reversal, from 1 gives each its
      dense rank. */
  lemma NumberingIsRank(descending: bool, sorted: seq<real>, order: seq<real>, scores: set<real>, ranks: map<real, nat>)
    requires StrictlyIncreasing(sorted) && Elems(sorted) == scores
    requires order == if descending then Reverse(sorted) else sorted
    requires forall x :: x in ranks <==> x in order
    requires forall i :: 0 <= i < |order| ==> order[i] in ranks && ranks[order[i]] == i + 1
    ensures ranks.Keys == scores
    ensures forall x :: x in ranks ==> ranks[x] == DenseRank(descending, scores, x)
  {
    OrderDistinct(descending, sorted, order);
    assert forall x :: x in ranks.Keys <==> x in Elems(sorted);
    forall x | x in ranks ensures ranks[x] == DenseRank(descending, scores, x) {
      var j :| 0 <= j < |sorted| && sorted[j] == x;
      PositionIsRank(sorted, scores, j);
      if descending {
        assert order[|sorted| - 1 - j] == x;
      }
    }
  }

  /** The scores before position `j` of an ascending list are exactly the
      scores below its element `j`, and those after it the scores above. */
  lemma PositionIsRank(sorted: seq<real>, scores: set<real>, j: nat)
    requires StrictlyIncreasing(sorted) && Elems(sorted) == scores
    requires j < |sorted|
    ensures DenseRank(false, scores, sorted[j]) == j + 1
    ensures DenseRank(true, scores, sorted[j]) == |sorted| - j
  {
    var x, before, after := sorted[j], sorted[..j], sorted[j + 1..];
    assert Below(scores, x) == Elems(before);
    assert Above(scores, x) == Elems(after);
    DistinctCard(before);
    DistinctCard(after);
  }

  /** A strictly increasing list has as many distinct elements as entries. */
  lemma {:induction false} DistinctCard(s: seq<real>)
    requires StrictlyIncreasing(s)
    ensures |Elems(s)| == |s|
  {
    if s != [] {
      DistinctCard(s[1..]);
      assert Elems(s) == {s[0]} + Elems(s[1..]);
      assert s[0] !in Elems(s[1..]);
    }
  }

  /** Every list of scores has an ascending arrangement of its elements. */
  lemma {:induction false} SortedExists(s: seq<real>) returns (sorted: seq<real>)
    ensures StrictlyIncreasing(sorted) && Elems(sorted) == Elems(s)
    decreases |s|
  {
    if s == [] {
      sorted := [];
    } else {
      var m := MinOf(s);
      var rest := SortedExists(Without(s, m));
      sorted := [m] + rest;
      forall i | 0 < i < |sorted| ensures m < sorted[i] {
        assert sorted[i] == rest[i - 1] && sorted[i] in Elems(rest);
      }
      forall y ensures y in Elems(sorted) <==> y in Elems(s) {
        assert y in Elems(rest) <==> y in rest;
        assert y in Elems(Without(s, m)) <==> y in Without(s, m);
        assert y in sorted <==> y == m || y in rest;
      }
    }
  }

  /** Every score ranks within 1..#scores. */
  lemma RankBounds(descending: bool, s: seq<real>, x: real)
    requires x in s
    ensures 1 <= DenseRank(descending, Elems(s), x) <= |Elems(s)|
  {
    var sorted := SortedExists(s);
    DistinctCard(sorted);
    assert x in Elems(sorted);
    var j :| 0 <= j < |sorted| && sorted[j] == x;
    PositionIsRank(sorted, Elems(s), j);
  }

  /** Different scores get different ranks: a lower score ranks first in
      ascending order and last in descending order. Tied tokens share a rank,
      since the rank is a function of the score. */
  lemma RankOrder(descending: bool, s: seq<real>, x: real, y: real)
    requires x in s && y in s && x < y
    ensures if descending then DenseRank(descending, Elems(s), x) > DenseRank(descending, Elems(s), y)
            else DenseRank(descending, Elems(s), x) < DenseRank(descending, Elems(s), y)
  {
    var sorted := SortedExists(s);
    assert x in Elems(sorted) && y in Elems(sorted);
    var i :| 0 <= i < |sorted| && sorted[i] == x;
    var j :| 0 <= j < |sorted| && sorted[j] == y;
    PositionIsRank(sorted, Elems(s), i);
    PositionIsRank(sorted, Elems(s), j);
  }

  /** Some score has rank `r`. */
  predicate RankTaken(descending: bool, scores: set<real>, r: nat) {
    exists x :: x in scores && DenseRank(descending, scores, x) == r
  }

  /** The ranks are dense: every rank in 1..#scores is taken. */
  lemma RanksDense(descending: bool, s: seq<real>)
    ensures forall r :: 1 <= r <= |Elems(s)| ==> RankTaken(descending, Elems(s), r)
  {
    var sorted := SortedExists(s);
    DistinctCard(sorted);
    forall r | 1 <= r <= |Elems(s)| ensures RankTaken(descending, Elems(s), r) {
      var j := if descending then |sorted| - r else r - 1;
      PositionIsRank(sorted, Elems(s), j);
      assert sorted[j] in Elems(s);
    }
  }
}
