/**
 * Partition of the buses for a Ward reduction (`get_reduction_sets_1`): the
 * buses to reduce (external), the non-external ends of branches that cross
 * into the external set (boundary), the other buses touched by purely
 * non-external branches (internal), and the crossing branches themselves.
 * Branch k runs from bus F[k] to bus T[k].
 */
module WardReduction {
  import opened Common

  /** Exactly one end of branch k is external. */
  ghost predicate CrossesBoundary(F: seq<int>, T: seq<int>, ext: seq<int>, k: int)
    requires |F| == |T|
  {
    0 <= k < |F| && ((F[k] in ext) != (T[k] in ext))
  }

  /** Bus x is the non-external end of a crossing branch among the first n. */
  ghost predicate BoundaryBus(F: seq<int>, T: seq<int>, ext: seq<int>, x: int, n: nat)
    requires |F| == |T| && n <= |F|
  {
    exists k :: 0 <= k < n &&
      ((F[k] in ext && T[k] !in ext && x == T[k]) || (F[k] !in ext && T[k] in ext && x == F[k]))
  }

  /** Bus x is an end of a branch, among the first n, with no external end. */
  ghost predicate InnerEnd(F: seq<int>, T: seq<int>, ext: seq<int>, x: int, n: nat)
    requires |F| == |T| && n <= |F|
  {
    exists k :: 0 <= k < n && F[k] !in ext && T[k] !in ext && (x == F[k] || x == T[k])
  }

  /**
   * `get_reduction_sets_1`. The three bus arrays come out sorted ascending and
   * without repetitions; the crossing branches come out in branch order.
   */
  method GetReductionSets(F: seq<int>, T: seq<int>, reductionBusIndices: seq<int>)
    returns (external: seq<int>, boundary: seq<int>, internal: seq<int>, boundaryBranches: seq<nat>)
    requires |F| == |T|
    ensures StrictlyIncreasing(external) && forall x :: x in external <==> x in reductionBusIndices
    ensures forall i, j :: 0 <= i < j < |boundaryBranches| ==> boundaryBranches[i] < boundaryBranches[j]
    ensures forall k: nat :: k in boundaryBranches <==> CrossesBoundary(F, T, reductionBusIndices, k)
    ensures StrictlyIncreasing(boundary)
    ensures forall x :: x in boundary <==> BoundaryBus(F, T, reductionBusIndices, x, |F|)
    ensures StrictlyIncreasing(internal)
    ensures forall x :: x in internal <==>
              InnerEnd(F, T, reductionBusIndices, x, |F|) && !BoundaryBus(F, T, reductionBusIndices, x, |F|)
    ensures forall x :: x in internal ==> x !in reductionBusIndices && x !in boundary
  {
    var boundarySet, internalSet;
    boundarySet, internalSet, boundaryBranches := ClassifyBranches(F, T, reductionBusIndices);
    // buses cannot be in both the internal and the boundary set
    var elmsToRemove := CommonMembers(internalSet, boundarySet);
    internalSet := RemoveAll(internalSet, elmsToRemove);
    external := SortedUnique(reductionBusIndices);
    boundary := SortedUnique(boundarySet);
    internal := SortedUnique(internalSet);
  }

  /** The branch loop of `get_reduction_sets_1`: boundary and internal buses as unsorted sets, and the crossing branches. */
  method ClassifyBranches(F: seq<int>, T: seq<int>, ext: seq<int>)
    returns (boundarySet: seq<int>, internalSet: seq<int>, boundaryBranches: seq<nat>)
    requires |F| == |T|
    ensures forall x :: x in boundarySet <==> BoundaryBus(F, T, ext, x, |F|)
    ensures forall x :: x in internalSet <==> InnerEnd(F, T, ext, x, |F|)
    ensures forall i, j :: 0 <= i < j < |boundaryBranches| ==> boundaryBranches[i] < boundaryBranches[j]
    ensures forall q: nat :: q in boundaryBranches <==> CrossesBoundary(F, T, ext, q)
  {
    var externalSet := set x | x in ext;
    boundarySet := [];
    internalSet := [];
    boundaryBranches := [];
    var k := 0;
    while k < |F|
      invariant k <= |F|
      invariant forall x :: x in boundarySet <==> BoundaryBus(F, T, ext, x, k)
      invariant forall x :: x in internalSet <==> InnerEnd(F, T, ext, x, k)
      invariant forall i, j :: 0 <= i < j < |boundaryBranches| ==> boundaryBranches[i] < boundaryBranches[j]
      invariant forall i :: 0 <= i < |boundaryBranches| ==> boundaryBranches[i] < k
      invariant forall q: nat :: q in boundaryBranches <==> q < k && CrossesBoundary(F, T, ext, q)
    {
      var f := F[k];
      var t := T[k];
      if f in externalSet {
        if t in externalSet {
          // the branch belongs to the external set
        } else {
          boundarySet := AddToSet(boundarySet, t);
          boundaryBranches := boundaryBranches + [k];
        }
      } else {
        if t in externalSet {
          boundarySet := AddToSet(boundarySet, f);
          boundaryBranches := boundaryBranches + [k];
        } else {
          internalSet := AddToSet(internalSet, f);
          internalSet := AddToSet(internalSet, t);
        }
      }
      k := k + 1;
    }
  }

  /** The loop that collects the internal buses also found on the boundary. */
  method CommonMembers(internalSet: seq<int>, boundarySet: seq<int>) returns (elmsToRemove: seq<int>)
    ensures forall x :: x in elmsToRemove <==> x in internalSet && x in boundarySet
  {
    elmsToRemove := [];
    var i := 0;
    while i < |internalSet|
      invariant i <= |internalSet|
      invariant forall x :: x in elmsToRemove <==> x in internalSet[..i] && x in boundarySet
    {
      assert internalSet[..i + 1] == internalSet[..i] + [internalSet[i]];
      if internalSet[i] in boundarySet {
        elmsToRemove := elmsToRemove + [internalSet[i]];
      }
      i := i + 1;
    }
    assert internalSet[..i] == internalSet;
  }

  /** The loop that removes each collected bus from the internal set. */
  method RemoveAll(inner: seq<int>, elmsToRemove: seq<int>) returns (internalSet: seq<int>)
    ensures forall x :: x in internalSet <==> x in inner && x !in elmsToRemove
  {
    internalSet := inner;
    var j := 0;
    while j < |elmsToRemove|
      invariant j <= |elmsToRemove|
      invariant forall x :: x in internalSet <==> x in inner && x !in elmsToRemove[..j]
    {
      assert elmsToRemove[..j + 1] == elmsToRemove[..j] + [elmsToRemove[j]];
      internalSet := RemoveFromSet(internalSet, elmsToRemove[j]);
      j := j + 1;
    }
    assert elmsToRemove[..j] == elmsToRemove;
  }

  /** Python's `set.remove` of a member, on a set modelled as a sequence. */
  function RemoveFromSet(s: seq<int>, x: int): (r: seq<int>)
    ensures forall y :: y in r <==> y in s && y != x
  {
    if s == [] then []
    else if s[0] == x then RemoveFromSet(s[1..], x)
    else [s[0]] + RemoveFromSet(s[1..], x)
  }
}
