/** In-place sorting of an array by a "less" function, as Go's sort.Slice
    and sort.Strings do.  Neither is stable, so the contract says only that
    the result is ordered and a permutation of the input. */
module Sorting {

  /** lt is a strict weak order: asymmetric, and its negation transitive. */
  ghost predicate StrictWeakOrder<T(!new)>(lt: (T, T) -> bool) {
    && (forall x, y :: lt(x, y) ==> !lt(y, x))
    && (forall x, y, z :: !lt(x, y) && !lt(y, z) ==> !lt(x, z))
  }

  /** No element is less than one before it. */
  ghost predicate SortedBy<T>(s: seq<T>, lt: (T, T) -> bool) {
    forall i, j :: 0 <= i < j < |s| ==> !lt(s[j], s[i])
  }

  /** Insertion sort by adjacent swaps. */
  method SortBy<T(!new)>(a: array<T>, lt: (T, T) -> bool)
    requires StrictWeakOrder(lt)
    modifies a
    ensures SortedBy(a[..], lt)
    ensures multiset(a[..]) == multiset(old(a[..]))
  {
    var i := 0;
    while i < a.Length
      invariant 0 <= i <= a.Length
      invariant SortedBy(a[..i], lt)
      invariant multiset(a[..]) == multiset(old(a[..]))
    {
      SortedPrefixExcept(a[..], i, lt);
      var j := i;
      while j > 0 && lt(a[j], a[j - 1])
        invariant 0 <= j <= i
        invariant SortedExcept(a[..], i, j, lt)
        invariant multiset(a[..]) == multiset(old(a[..]))
      {
        SwapKeepsSortedExcept(a[..], i, j, lt);
        SwapAdjacent(a, j);
        j := j - 1;
      }
      InsertedSorted(a[..], i, j, lt);
      i := i + 1;
    }
    assert a[..a.Length] == a[..];
  }

  /** The prefix s[..i+1] is ordered except that s[j] may be less than an
      element before it. */
  ghost predicate SortedExcept<T>(s: seq<T>, i: int, j: int, lt: (T, T) -> bool)
    requires 0 <= j <= i < |s|
  {
    forall k, l :: 0 <= k < l <= i && l != j ==> !lt(s[l], s[k])
  }

  /** Swaps a[j - 1] and a[j]. */
  method SwapAdjacent<T>(a: array<T>, j: int)
    requires 0 < j < a.Length
    modifies a
    ensures a[..] == old(a[..])[j - 1 := old(a[j])][j := old(a[j - 1])]
    ensures multiset(a[..]) == multiset(old(a[..]))
  {
    a[j - 1], a[j] := a[j], a[j - 1];
  }

  /** Before the inner loop: the new element at i is the only one out of
      place. */
  lemma SortedPrefixExcept<T>(s: seq<T>, i: int, lt: (T, T) -> bool)
    requires 0 <= i < |s| && SortedBy(s[..i], lt)
    ensures SortedExcept(s, i, i, lt)
  {
    forall k, l | 0 <= k < l <= i && l != i ensures !lt(s[l], s[k]) {
      assert s[l] == s[..i][l] && s[k] == s[..i][k];
    }
  }

  /** Swapping the out-of-place element with a greater neighbour moves the
      exception one place down. */
  lemma SwapKeepsSortedExcept<T(!new)>(s: seq<T>, i: int, j: int, lt: (T, T) -> bool)
    requires StrictWeakOrder(lt)
    requires 0 < j <= i < |s| && SortedExcept(s, i, j, lt) && lt(s[j], s[j - 1])
    ensures SortedExcept(s[j - 1 := s[j]][j := s[j - 1]], i, j - 1, lt)
  {
  }

  /** When the exception is no longer less than its neighbour, the prefix
      s[..i+1] is ordered. */
  lemma InsertedSorted<T(!new)>(s: seq<T>, i: int, j: int, lt: (T, T) -> bool)
    requires StrictWeakOrder(lt)
    requires 0 <= j <= i < |s| && SortedExcept(s, i, j, lt) && (j == 0 || !lt(s[j], s[j - 1]))
    ensures SortedBy(s[..i + 1], lt)
  {
    forall k, l | 0 <= k < l <= i ensures !lt(s[l], s[k]) {
      if l == j && k < j - 1 {
        assert !lt(s[j - 1], s[k]);
      }
    }
  }

  /** Go's `<` on strings: byte-wise lexicographic order, a proper prefix
      coming first.  sort.Strings sorts by it. */
  predicate LessString(a: string, b: string) {
    if a == [] then b != []
    else if b == [] then false
    else if a[0] != b[0] then a[0] < b[0]
    else LessString(a[1..], b[1..])
  }

  lemma {:induction false} LessStringAsymmetric(a: string, b: string)
    ensures LessString(a, b) ==> !LessString(b, a)
  {
    if a != [] && b != [] && a[0] == b[0] {
      LessStringAsymmetric(a[1..], b[1..]);
    }
  }

  lemma {:induction false} LessStringTotal(a: string, b: string)
    ensures a == b || LessString(a, b) || LessString(b, a)
  {
    if a != [] && b != [] && a[0] == b[0] {
      LessStringTotal(a[1..], b[1..]);
      if a[1..] == b[1..] {
        assert a == [a[0]] + a[1..] && b == [b[0]] + b[1..];
      }
    }
  }

  lemma {:induction false} LessStringTransitive(a: string, b: string, c: string)
    requires LessString(a, b) && LessString(b, c)
    ensures LessString(a, c)
  {
    if a != [] && a[0] == b[0] && b[0] == c[0] {
      LessStringTransitive(a[1..], b[1..], c[1..]);
    }
  }

  /** LessString is a strict total order, so sort.Strings may use it. */
  lemma LessStringIsStrictWeak()
    ensures StrictWeakOrder(LessString)
  {
    forall x, y ensures LessString(x, y) ==> !LessString(y, x) {
      LessStringAsymmetric(x, y);
    }
    forall x, y, z | !LessString(x, y) && !LessString(y, z) ensures !LessString(x, z) {
      LessStringTotal(x, y);
      LessStringTotal(y, z);
      if LessString(x, z) {
        if y != x && z != y {
          LessStringTransitive(z, y, x);
          LessStringAsymmetric(z, x);
        } else if y != x {
          LessStringAsymmetric(y, x);
        } else {
          LessStringAsymmetric(x, z);
        }
      }
    }
  }
}
