/**
 Region selection: each patient tab carries a non-exclusive group of twelve
 region check boxes, identified by their position 0..11 in the group. The
 selection handed to the rest of the program is the ascending list of the
 positions of the checked boxes.
 */
module Regions {

  /** Number of region check boxes created per patient tab. */
  const RegionCount: nat := 12

  ghost predicate StrictlyAscending(r: seq<int>)
  {
    forall i, j :: 0 <= i < j < |r| ==> r[i] < r[j]
  }

  /** Every entry is a valid check-box position. */
  ghost predicate InRegionRange(r: seq<int>)
  {
    forall k :: 0 <= k < |r| ==> 0 <= r[k] < RegionCount
  }

  /** The positions of the checked boxes, in the order the group enumerates them. */
  function CheckedIndices(checked: seq<bool>): (r: seq<int>)
    ensures StrictlyAscending(r)
    ensures forall k :: 0 <= k < |r| ==> 0 <= r[k] < |checked|
    ensures forall i :: i in r <==> 0 <= i < |checked| && checked[i]
  {
    if |checked| == 0 then []
    else
      var n := |checked| - 1;
      var front := CheckedIndices(checked[..n]);
      assert forall i :: 0 <= i < n ==> checked[..n][i] == checked[i];
      front + (if checked[n] then [n] else [])
  }

  /** The check-box states that select exactly the positions in `regions`. */
  function CheckedOf(regions: set<int>): (checked: seq<bool>)
    ensures |checked| == RegionCount
    ensures forall i :: 0 <= i < RegionCount ==> (checked[i] <==> i in regions)
  {
    seq(RegionCount, i => i in regions)
  }

  /** The head of a strictly ascending list is below every later entry. */
  lemma HeadBelowTail(a: seq<int>, x: int)
    requires StrictlyAscending(a) && a != []
    requires x in a[1..]
    ensures a[0] < x
  {
  }

  /** The head of a strictly ascending list is its least entry. */
  lemma HeadIsLeast(a: seq<int>, x: int)
    requires StrictlyAscending(a) && a != []
    requires x in a
    ensures a[0] <= x
  {
  }

  lemma EmptyIffNoMember(s: seq<int>)
    ensures s == [] <==> forall x :: x !in s
  {
    if s != [] {
      var y := s[0];
      assert y in s;
      assert !(forall x :: x !in s);
    }
  }

  /** Two strictly ascending lists with the same elements are equal. */
  lemma {:induction false} AscendingUnique(a: seq<int>, b: seq<int>)
    requires StrictlyAscending(a) && StrictlyAscending(b)
    requires forall x :: x in a <==> x in b
    ensures a == b
    decreases |a|
  {
    EmptyIffNoMember(a);
    EmptyIffNoMember(b);
    if a != [] {
      assert a[0] in a && b[0] in b;
      assert a == [a[0]] + a[1..] && b == [b[0]] + b[1..];
      // both heads are the least element of the common set
      HeadIsLeast(a, b[0]);
      HeadIsLeast(b, a[0]);
      forall x | x in a[1..]
        ensures x in b[1..]
      {
        HeadBelowTail(a, x);
        assert x in a;
        var j :| 0 <= j < |b| && b[j] == x;
        assert j != 0;
        assert b[1..][j - 1] == x;
      }
      forall x | x in b[1..]
        ensures x in a[1..]
      {
        HeadBelowTail(b, x);
        assert x in b;
        var j :| 0 <= j < |a| && a[j] == x;
        assert j != 0;
        assert a[1..][j - 1] == x;
      }
      assert StrictlyAscending(a[1..]) && StrictlyAscending(b[1..]);
      AscendingUnique(a[1..], b[1..]);
    }
  }

  /**
   The list of checked positions is the ONLY strictly ascending list that
   holds exactly the checked positions: an independent characterisation of
   the comprehension that builds it.
   */
  lemma CheckedIndicesUnique(checked: seq<bool>, r: seq<int>)
    requires StrictlyAscending(r)
    requires forall i :: i in r <==> 0 <= i < |checked| && checked[i]
    ensures CheckedIndices(checked) == r
  {
    AscendingUnique(CheckedIndices(checked), r);
  }

  /** With the twelve boxes of a tab, every selected region lies in 0..11. */
  lemma SelectionInRange(checked: seq<bool>)
    requires |checked| == RegionCount
    ensures InRegionRange(CheckedIndices(checked))
  {
  }

  /** Selecting the boxes of a set of regions gives back that set, sorted. */
  lemma CheckedOfRoundTrip(regions: set<int>, r: seq<int>)
    requires StrictlyAscending(r)
    requires forall x :: x in r <==> x in regions && 0 <= x < RegionCount
    ensures CheckedIndices(CheckedOf(regions)) == r
  {
    CheckedIndicesUnique(CheckedOf(regions), r);
  }
}
