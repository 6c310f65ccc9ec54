/**
 * `List.sort(comparator)`: sorting a list in place with a three-way comparator.
 * The comparator is a parameter, as in Java; the method relies only on the
 * comparator contract, stated by `IsComparator`.
 */
module ListSort {

  /** The comparator contract: zero against itself, the sign flips when the
      arguments are swapped, and "not after" is transitive. Each law is a
      predicate of its own, so that a proof instantiates it where it needs it. */
  ghost predicate IsComparator<T(!new)>(cmp: (T, T) -> int)
  {
    && (forall x :: Reflexive(cmp, x))
    && (forall x, y :: Antisymmetric(cmp, x, y))
    && (forall x, y, z :: Transitive(cmp, x, y, z))
  }

  ghost predicate Reflexive<T>(cmp: (T, T) -> int, x: T)
  {
    cmp(x, x) == 0
  }

  ghost predicate Antisymmetric<T>(cmp: (T, T) -> int, x: T, y: T)
  {
    cmp(x, y) < 0 <==> cmp(y, x) > 0
  }

  ghost predicate Transitive<T>(cmp: (T, T) -> int, x: T, y: T, z: T)
  {
    cmp(x, y) <= 0 && cmp(y, z) <= 0 ==> cmp(x, z) <= 0
  }

  /** No element is ordered after a later one. */
  ghost predicate Sorted<T>(cmp: (T, T) -> int, s: seq<T>)
  {
    forall i, j :: 0 <= i < j < |s| ==> cmp(s[i], s[j]) <= 0
  }

  /** Every element strictly precedes every later one (no ties). */
  ghost predicate StrictlySorted<T>(cmp: (T, T) -> int, s: seq<T>)
  {
    forall i, j :: 0 <= i < j < |s| ==> cmp(s[i], s[j]) < 0
  }

  /** Sorts `list` in place: afterwards it is sorted by `cmp` and holds exactly the
      elements it held before (same length, same multiset). */
  method Sort<T(!new)>(list: array<T>, cmp: (T, T) -> int)
    requires IsComparator(cmp)
    modifies list
    ensures Sorted(cmp, list[..])
    ensures multiset(list[..]) == multiset(old(list[..]))
  {
    var i := 0;
    while i < list.Length
      invariant 0 <= i <= list.Length
      invariant forall k, m :: 0 <= k < m < i ==> cmp(list[k], list[m]) <= 0
      invariant multiset(list[..]) == multiset(old(list[..]))
    {
      // Move list[i] left past every element it strictly precedes.
      var j := i;
      while j > 0 && cmp(list[j - 1], list[j]) > 0
        invariant 0 <= j <= i
        invariant forall k, m :: 0 <= k < m <= i && k != j && m != j ==> cmp(list[k], list[m]) <= 0
        invariant forall m :: j < m <= i ==> cmp(list[j], list[m]) <= 0
        invariant multiset(list[..]) == multiset(old(list[..]))
      {
        assert Antisymmetric(cmp, list[j], list[j - 1]);
        Swap(list, j - 1, j);
        j := j - 1;
      }
      forall k | 0 <= k < j
        ensures cmp(list[k], list[j]) <= 0
      {
        assert Reflexive(cmp, list[j - 1]);
        assert Transitive(cmp, list[k], list[j - 1], list[j]);
      }
      i := i + 1;
    }
  }

  /** Exchanges two elements of `list`, leaving the others where they were. */
  method Swap<T>(list: array<T>, i: int, j: int)
    requires 0 <= i < j < list.Length
    modifies list
    ensures list[i] == old(list[j]) && list[j] == old(list[i])
    ensures forall k :: 0 <= k < list.Length && k != i && k != j ==> list[k] == old(list[k])
    ensures multiset(list[..]) == multiset(old(list[..]))
  {
    list[i], list[j] := list[j], list[i];
  }

  /** A sorted rearrangement of a sequence without ties is that sequence itself:
      this is what pins down every order a test asserts. */
  lemma {:induction false} SortedPermutationUnique<T(!new)>(cmp: (T, T) -> int, expected: seq<T>, s: seq<T>)
    requires IsComparator(cmp)
    requires StrictlySorted(cmp, expected)
    requires Sorted(cmp, s)
    requires multiset(s) == multiset(expected)
    ensures s == expected
  {
    assert |s| == |multiset(s)| == |multiset(expected)| == |expected|;
    if expected != [] {
      FirstElementsAgree(cmp, expected, s);
      RestIsPermutation(expected, s);
      SortedPermutationUnique(cmp, expected[1..], s[1..]);
      assert s == [s[0]] + s[1..];
      assert expected == [expected[0]] + expected[1..];
    }
  }

  /** The first element of a sorted rearrangement of a tie-free sequence is its
      first element. */
  lemma FirstElementsAgree<T(!new)>(cmp: (T, T) -> int, expected: seq<T>, s: seq<T>)
    requires IsComparator(cmp)
    requires StrictlySorted(cmp, expected)
    requires Sorted(cmp, s)
    requires multiset(s) == multiset(expected)
    requires expected != [] && |s| == |expected|
    ensures s[0] == expected[0]
  {
    assert s[0] in multiset(expected);
    var k :| 0 <= k < |expected| && expected[k] == s[0];
    assert expected[0] in multiset(s);
    var m :| 0 <= m < |s| && s[m] == expected[0];
    assert Reflexive(cmp, s[0]);
    assert cmp(s[0], s[m]) <= 0;
    assert Antisymmetric(cmp, expected[0], expected[k]);
  }

  /** Removing equal first elements from two rearrangements of each other leaves
      rearrangements of each other. */
  lemma RestIsPermutation<T>(expected: seq<T>, s: seq<T>)
    requires multiset(s) == multiset(expected)
    requires expected != [] && s != [] && s[0] == expected[0]
    ensures multiset(s[1..]) == multiset(expected[1..])
  {
    assert s == [s[0]] + s[1..];
    assert expected == [expected[0]] + expected[1..];
    assert multiset(s[1..]) == multiset(s) - multiset{s[0]};
    assert multiset(expected[1..]) == multiset(expected) - multiset{expected[0]};
  }
}
