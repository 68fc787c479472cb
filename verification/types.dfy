/** Shared vocabulary of the elevator dashboard: the fleet record, its
    enumerations, and the consistency rules every fleet transition keeps.

    Positions are fixed-point: an elevator's `position` counts tenths of a
    floor, because the simulation only ever moves in steps of 0.1 floor and
    re-rounds to one decimal after every step. Target floors are whole
    floors. */
module ElevatorTypes {

  datatype Option<+T> = None | Some(value: T)

  datatype Direction = Up | Down | Idle

  datatype Occupancy = Empty | Half | Full | Maintenance

  /** Floors per minute; constant for an elevator and always positive. */
  type Speed = s: int | s > 0 witness 1

  datatype Elevator = Elevator(
    id: string,
    name: string,
    position: int,          // currentFloor, in tenths of a floor
    target: Option<int>,    // targetFloor, a whole floor; None when idle
    direction: Direction,
    occupancy: Occupancy,
    isMoving: bool,
    underMaintenance: bool,
    speed: Speed)

  /** The position, in tenths, of whole floor `floor`. */
  function Tenths(floor: int): int {
    10 * floor
  }

  /** The whole floor at or below a position: `Math.floor(currentFloor)`. */
  function FloorBelow(position: int): (f: int)
    ensures Tenths(f) <= position < Tenths(f) + 10
  {
    position / 10
  }

  function Abs(x: int): nat {
    if x < 0 then -x else x
  }

  /** `direction` points from `position` strictly toward whole floor `floor`. */
  predicate PointsAt(direction: Direction, position: int, floor: int) {
    || (direction == Up && position < Tenths(floor))
    || (direction == Down && position > Tenths(floor))
  }

  /** The data-model invariant: an elevator moves exactly when it has a
      target, and an elevator under maintenance neither moves nor has one. */
  predicate Invariant(e: Elevator) {
    && (e.isMoving <==> e.target.Some?)
    && (e.underMaintenance ==> !e.isMoving && e.target.None?)
  }

  /** The direction agrees with the motion: a moving elevator points strictly
      toward its target, a resting one is idle. */
  predicate Heading(e: Elevator) {
    && (e.isMoving && e.target.Some? ==> PointsAt(e.direction, e.position, e.target.value))
    && (!e.isMoving ==> e.direction == Idle)
  }

  predicate Sound(e: Elevator) {
    Invariant(e) && Heading(e)
  }

  predicate UniqueIds(fleet: seq<Elevator>) {
    forall i, j :: 0 <= i < j < |fleet| ==> fleet[i].id != fleet[j].id
  }

  predicate FleetInvariant(fleet: seq<Elevator>) {
    forall i :: 0 <= i < |fleet| ==> Invariant(fleet[i])
  }

  /** Every elevator sound, and ids identify elevators. */
  predicate FleetSound(fleet: seq<Elevator>) {
    && (forall i :: 0 <= i < |fleet| ==> Sound(fleet[i]))
    && UniqueIds(fleet)
  }

  /** Two fleets hold the same elevators, by id, in the same order. */
  predicate SameIds(a: seq<Elevator>, b: seq<Elevator>) {
    && |a| == |b|
    && forall i :: 0 <= i < |a| ==> a[i].id == b[i].id
  }

  lemma SameIdsKeepUnique(a: seq<Elevator>, b: seq<Elevator>)
    requires SameIds(a, b) && UniqueIds(a)
    ensures UniqueIds(b)
  {
  }
}
