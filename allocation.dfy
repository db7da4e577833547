/**
 * Plane allocation: the scan-and-mark the registry does under its lock. The
 * first plane (in list order) whose home is the requested airport and which
 * is not in flight is claimed; nothing else changes.
 */
module Allocation {
  import opened Fleet

  /** A plane the scan may claim for a flight from `a`. */
  predicate Idle(p: PlaneView, a: Airport)
  {
    p.home == a && !p.inFlight
  }

  /** The position of the first idle plane of airport `a`, or None when there is none. */
  function FirstAvailable(planes: seq<PlaneView>, a: Airport): (r: Option<nat>)
    ensures r.Some? ==> r.value < |planes| && Idle(planes[r.value], a)
    ensures r.Some? ==> forall m :: 0 <= m < r.value ==> !Idle(planes[m], a)
    ensures r.None? <==> forall k :: 0 <= k < |planes| ==> !Idle(planes[k], a)
  {
    if planes == [] then None
    else if Idle(planes[0], a) then Some(0)
    else
      match FirstAvailable(planes[1..], a)
      case None => None
      case Some(k) => Some(k + 1)
  }

  /** An idle plane with no idle plane of the same airport before it is the one the scan finds. */
  lemma FirstAvailableIsFirstIdle(planes: seq<PlaneView>, a: Airport, i: nat)
    requires i < |planes| && Idle(planes[i], a)
    requires forall m :: 0 <= m < i ==> !Idle(planes[m], a)
    ensures FirstAvailable(planes, a) == Some(i)
  {
  }

  /** The scan-and-mark step: which plane was claimed, and the plane list afterwards. */
  function Allocate(planes: seq<PlaneView>, a: Airport): (r: (Option<nat>, seq<PlaneView>))
    ensures |r.1| == |planes|
    ensures r.0.None? ==> r.1 == planes
    ensures r.0.Some? ==> r.0.value < |planes| && r.1[r.0.value].inFlight
  {
    match FirstAvailable(planes, a)
    case None => (None, planes)
    case Some(k) => (Some(k), planes[k := planes[k].(inFlight := true)])
  }

  /**
   * Both outcomes of the scan: the first idle plane of `a` is claimed and is
   * the only plane that changes, only in its flag; with no idle plane nothing
   * changes.
   */
  lemma AllocateClaimsFirstIdle(planes: seq<PlaneView>, a: Airport)
    ensures var (slot, after) := Allocate(planes, a);
      |after| == |planes| &&
      (slot.None? <==> forall k :: 0 <= k < |planes| ==> !Idle(planes[k], a)) &&
      (slot.None? ==> after == planes) &&
      (slot.Some? ==>
        slot.value < |planes| && Idle(planes[slot.value], a) &&
        (forall m :: 0 <= m < slot.value ==> !Idle(planes[m], a)) &&
        after[slot.value] == planes[slot.value].(inFlight := true) &&
        forall k :: 0 <= k < |planes| && k != slot.value ==> after[k] == planes[k])
  {
  }

  /**
   * Whatever origins a run of allocations is asked for, in order, with no
   * release in between: which plane each one claimed, and the list at the end.
   */
  function AllocateEach(planes: seq<PlaneView>, origins: seq<Airport>): (r: (seq<Option<nat>>, seq<PlaneView>))
    ensures |r.0| == |origins| && |r.1| == |planes|
  {
    if origins == [] then ([], planes)
    else
      var (slots, mid) := AllocateEach(planes, origins[..|origins| - 1]);
      var (slot, after) := Allocate(mid, origins[|origins| - 1]);
      (slots + [slot], after)
  }

  /**
   * Mutual exclusion: no plane is claimed twice by a run of allocations, each
   * claimed plane is in flight at the end, only claimed planes change, and ids
   * and homes never change.
   */
  lemma {:induction false} AllocateEachIsExclusive(planes: seq<PlaneView>, origins: seq<Airport>)
    ensures var (slots, after) := AllocateEach(planes, origins);
      |slots| == |origins| && |after| == |planes| &&
      (forall i :: 0 <= i < |slots| && slots[i].Some? ==>
        slots[i].value < |planes| && after[slots[i].value].inFlight) &&
      (forall i, j :: 0 <= i < j < |slots| && slots[i].Some? && slots[j].Some? ==>
        slots[i].value != slots[j].value) &&
      (forall k :: 0 <= k < |planes| ==>
        after[k].id == planes[k].id && after[k].home == planes[k].home) &&
      (forall k :: 0 <= k < |planes| && (forall i :: 0 <= i < |slots| ==> slots[i] != Some(k)) ==>
        after[k] == planes[k])
  {
    if origins != [] {
      var prefix := origins[..|origins| - 1];
      AllocateEachIsExclusive(planes, prefix);
      var (slots, mid) := AllocateEach(planes, prefix);
      AllocateClaimsFirstIdle(mid, origins[|origins| - 1]);
      var (slot, after) := Allocate(mid, origins[|origins| - 1]);
      var allSlots := slots + [slot];
      forall k | 0 <= k < |planes| && (forall i :: 0 <= i < |allSlots| ==> allSlots[i] != Some(k))
        ensures after[k] == planes[k]
      {
        assert slot == allSlots[|slots|];
        forall i | 0 <= i < |slots| ensures slots[i] != Some(k) {
          assert allSlots[i] == slots[i];
        }
      }
    }
  }
}
