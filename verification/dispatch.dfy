/** The slow tick's fleet part: every 8 seconds each idle elevator that is
    not under maintenance may be sent, at random, to a random floor with a
    random occupancy. The three `Math.random()` draws an elevator can
    consume are passed in explicitly, one record per elevator. */
module RandomDispatch {
  import opened ElevatorTypes
  import opened RandomDraws

  /** The draws one elevator may consume: whether to move, which floor,
      which occupancy. Draws the source would not reach are ignored. */
  datatype DispatchDraw = DispatchDraw(roll: real, floorDraw: real, occupancyDraw: real)

  predicate ValidDraw(d: DispatchDraw) {
    IsUnit(d.roll) && IsUnit(d.floorDraw) && IsUnit(d.occupancyDraw)
  }

  /** Chance threshold: an idle elevator moves when its roll exceeds 0.7. */
  const MoveThreshold: real := 0.7

  /** The occupancies a spontaneous trip picks from, in the source's order. */
  const TripOccupancies: seq<Occupancy> := [Empty, Half, Full]

  /** The floor a spontaneous trip would aim for in a building of
      `floorCount` floors numbered from 0. */
  function TripFloor(d: DispatchDraw, floorCount: nat): int
    requires ValidDraw(d) && floorCount > 0
  {
    PickIndex(d.floorDraw, floorCount)
  }

  /** `r` is `e` sent on a fresh trip: a floor of the building other than the
      one it is on, heading up exactly when the floor lies above, a
      passenger occupancy, moving, and nothing else touched. */
  predicate Retargeted(e: Elevator, r: Elevator, floorCount: nat) {
    && r.target.Some?
    && 0 <= r.target.value < floorCount
    && r.target.value != FloorBelow(e.position)
    && r.direction != Idle
    && (r.direction == Up <==> Tenths(r.target.value) > e.position)
    && r.occupancy in {Empty, Half, Full}
    && r.isMoving
    && r == e.(target := r.target, direction := r.direction, occupancy := r.occupancy, isMoving := true)
  }

  /** Whether the slow tick sends `e` on a trip with draws `d`. */
  predicate Fires(e: Elevator, d: DispatchDraw, floorCount: nat)
    requires ValidDraw(d) && floorCount > 0
  {
    && !e.underMaintenance
    && e.direction == Idle
    && d.roll > MoveThreshold
    && FloorBelow(e.position) != TripFloor(d, floorCount)
  }

  /** The slow tick for one elevator. */
  function DispatchOne(e: Elevator, d: DispatchDraw, floorCount: nat): (r: Elevator)
    requires ValidDraw(d) && floorCount > 0
    ensures e.underMaintenance ==> r == e
    ensures e.direction != Idle ==> r == e
    ensures Fires(e, d, floorCount) ==> Retargeted(e, r, floorCount) && r.target.value == TripFloor(d, floorCount)
    ensures Fires(e, d, floorCount) ==>
      r.occupancy == TripOccupancies[PickIndex(d.occupancyDraw, |TripOccupancies|)]
    ensures !Fires(e, d, floorCount) ==> r == e
  {
    if e.underMaintenance then e
    else if e.direction == Idle && d.roll > MoveThreshold then
      var targetFloor := TripFloor(d, floorCount);
      if FloorBelow(e.position) == targetFloor then e
      else
        e.(target := Some(targetFloor),
           direction := if Tenths(targetFloor) > e.position then Up else Down,
           occupancy := TripOccupancies[PickIndex(d.occupancyDraw, |TripOccupancies|)],
           isMoving := true)
    else e
  }

  /** The slow tick over the fleet, one draw record per elevator. */
  function SlowDispatch(fleet: seq<Elevator>, draws: seq<DispatchDraw>, floorCount: nat): (r: seq<Elevator>)
    requires |draws| == |fleet| && floorCount > 0
    requires forall i :: 0 <= i < |draws| ==> ValidDraw(draws[i])
    ensures |r| == |fleet|
    ensures forall i :: 0 <= i < |fleet| ==> r[i] == DispatchOne(fleet[i], draws[i], floorCount)
  {
    seq(|fleet|, i requires 0 <= i < |fleet| => DispatchOne(fleet[i], draws[i], floorCount))
  }

  /** A retargeted sound elevator stays sound: the new direction points
      strictly toward the new floor. */
  lemma RetargetedIsSound(e: Elevator, r: Elevator, floorCount: nat)
    requires Sound(e) && !e.underMaintenance && Retargeted(e, r, floorCount)
    ensures Sound(r)
  {
  }

  /** The slow tick keeps every elevator sound and every id in place. */
  lemma SlowDispatchKeepsSound(fleet: seq<Elevator>, draws: seq<DispatchDraw>, floorCount: nat)
    requires |draws| == |fleet| && floorCount > 0
    requires forall i :: 0 <= i < |draws| ==> ValidDraw(draws[i])
    requires FleetSound(fleet)
    ensures SameIds(fleet, SlowDispatch(fleet, draws, floorCount))
    ensures FleetSound(SlowDispatch(fleet, draws, floorCount))
  {
    var r := SlowDispatch(fleet, draws, floorCount);
    forall i | 0 <= i < |fleet|
      ensures Sound(r[i]) && r[i].id == fleet[i].id
    {
      if Fires(fleet[i], draws[i], floorCount) {
        RetargetedIsSound(fleet[i], r[i], floorCount);
      }
    }
    SameIdsKeepUnique(fleet, r);
  }
}
