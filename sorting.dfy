/** The in-place sort both export helpers apply before writing:
    `rows.sort((a, b) => a.tokenId < b.tokenId ? -1 : 1)`, here for any row
    type and any string key. */
module Sorting {
  import opened Base

  /** `x` may come before `y`: its key is not after `y`'s. */
  predicate InOrder<T>(x: T, y: T, key: T -> string) {
    StrLe(key(x), key(y))
  }

  predicate Sorted<T>(s: seq<T>, key: T -> string) {
    forall i, j :: 0 <= i < j < |s| ==> InOrder(s[i], s[j], key)
  }

  /** Every neighbouring pair is in order. */
  predicate NeighboursSorted<T>(s: seq<T>, key: T -> string) {
    forall k :: 0 < k < |s| ==> InOrder(s[k - 1], s[k], key)
  }

  /** Neighbours in order means the whole list is in order. */
  lemma {:induction false} NeighboursSortedIsSorted<T>(s: seq<T>, key: T -> string)
    requires NeighboursSorted(s, key)
    ensures Sorted(s, key)
  {
    if |s| > 1 {
      var init := s[..|s| - 1];
      assert NeighboursSorted(init, key) by {
        forall k | 0 < k < |init| ensures InOrder(init[k - 1], init[k], key) {
          assert init[k - 1] == s[k - 1] && init[k] == s[k];
        }
      }
      NeighboursSortedIsSorted(init, key);
      forall i, j | 0 <= i < j < |s| ensures InOrder(s[i], s[j], key) {
        if j < |s| - 1 {
          assert init[i] == s[i] && init[j] == s[j];
        } else if i < j - 1 {
          assert init[i] == s[i] && init[j - 1] == s[j - 1];
          StrLeTransitive(key(s[i]), key(s[j - 1]), key(s[j]));
        }
      }
    }
  }

  /** The state of the inner loop that moves the element at `i` left: it
      now sits at `j`, every other neighbouring pair up to `i` is in order,
      and its two neighbours are in order with each other. */
  predicate Inserting<T>(s: seq<T>, key: T -> string, i: nat, j: nat) {
    && j <= i < |s|
    && (forall k :: 0 < k <= i && k != j ==> InOrder(s[k - 1], s[k], key))
    && (0 < j < i ==> InOrder(s[j - 1], s[j + 1], key))
  }

  /** Exchanging the moving element with a left neighbour of larger key
      keeps the loop state, one place further left. */
  lemma SwapStep<T>(s: seq<T>, key: T -> string, i: nat, j: nat)
    requires Inserting(s, key, i, j) && 0 < j && StrLt(key(s[j]), key(s[j - 1]))
    ensures Inserting(s[j - 1 := s[j]][j := s[j - 1]], key, i, j - 1)
  {
    var t := s[j - 1 := s[j]][j := s[j - 1]];
    StrLtAsymmetric(key(s[j]), key(s[j - 1]));
    forall k | 0 < k <= i && k != j - 1 ensures InOrder(t[k - 1], t[k], key) {
      if k == j + 1 {
        assert t[k - 1] == s[j - 1] && t[k] == s[j + 1];
      } else if k == j {
        assert t[k - 1] == s[j] && t[k] == s[j - 1];
      } else {
        assert t[k - 1] == s[k - 1] && t[k] == s[k];
      }
    }
  }

  /** Before the inner loop the element at `i` sits at `i` and the
      prefix before it is in order. */
  lemma InsertStart<T>(s: seq<T>, key: T -> string, i: nat)
    requires 0 < i < |s| && NeighboursSorted(s[..i], key)
    ensures Inserting(s, key, i, i)
  {
    forall k | 0 < k < i ensures InOrder(s[k - 1], s[k], key) {
      assert s[..i][k - 1] == s[k - 1] && s[..i][k] == s[k];
    }
  }

  /** Once the moving element meets a left neighbour whose key is not
      larger, or the front, the prefix up to `i` is in order. */
  lemma InsertDone<T>(s: seq<T>, key: T -> string, i: nat, j: nat)
    requires Inserting(s, key, i, j) && (j == 0 || !StrLt(key(s[j]), key(s[j - 1])))
    ensures NeighboursSorted(s[..i + 1], key)
  {
    var prefix := s[..i + 1];
    forall k | 0 < k < |prefix| ensures InOrder(prefix[k - 1], prefix[k], key) {
      assert prefix[k - 1] == s[k - 1] && prefix[k] == s[k];
    }
  }

  /** Exchanging two places keeps the elements. */
  lemma SwapKeeps<T>(s: seq<T>, i: nat, j: nat)
    requires i < |s| && j < |s|
    ensures multiset(s[i := s[j]][j := s[i]]) == multiset(s)
  {
    if i != j {
      var t := s[i := s[j]];
      assert multiset(t) == multiset(s) - multiset{s[i]} + multiset{s[j]};
      assert t[j] == s[j];
    }
  }

  /** Moves `a[i]` left past every element with a larger key. */
  method Insert<T>(a: array<T>, key: T -> string, i: nat)
    requires 0 < i < a.Length && NeighboursSorted(a[..i], key)
    modifies a
    ensures NeighboursSorted(a[..i + 1], key)
    ensures multiset(a[..]) == multiset(old(a[..]))
  {
    var j := i;
    InsertStart(a[..], key, i);
    while j > 0 && StrLt(key(a[j]), key(a[j - 1]))
      invariant Inserting(a[..], key, i, j)
      invariant multiset(a[..]) == multiset(old(a[..]))
    {
      ghost var before := a[..];
      SwapStep(before, key, i, j);
      SwapKeeps(before, j - 1, j);
      a[j - 1], a[j] := a[j], a[j - 1];
      assert a[..] == before[j - 1 := before[j]][j := before[j - 1]];
      j := j - 1;
    }
    InsertDone(a[..], key, i, j);
  }

  /** Sorts by key in place: an insertion sort standing for the engine's
      sort with the comparator `key(a) < key(b) ? -1 : 1`. */
  method SortByKey<T>(a: array<T>, key: T -> string)
    modifies a
    ensures Sorted(a[..], key)
    ensures multiset(a[..]) == multiset(old(a[..]))
  {
    if a.Length == 0 {
      return;
    }
    for i := 1 to a.Length
      invariant NeighboursSorted(a[..i], key)
      invariant multiset(a[..]) == multiset(old(a[..]))
    {
      Insert(a, key, i);
    }
    assert a[..a.Length] == a[..];
    NeighboursSortedIsSorted(a[..], key);
  }
}
