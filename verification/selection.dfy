/** `selectElevator`: a floor request sends the named elevator to a floor,
    bypassing the planner's ranking. */
module Selection {
  import opened ElevatorTypes

  /** Whether a request for `floor` changes elevator `e` named `id`. */
  predicate Accepts(e: Elevator, id: string, floor: int) {
    e.id == id && !e.underMaintenance && FloorBelow(e.position) != floor
  }

  /** The request applied to one elevator. */
  function SelectOne(e: Elevator, id: string, floor: int): (r: Elevator)
    ensures !Accepts(e, id, floor) ==> r == e
    ensures Accepts(e, id, floor) ==>
      && r == e.(target := Some(floor), direction := r.direction, isMoving := true)
      && (r.direction == Up <==> Tenths(floor) > e.position)
      && PointsAt(r.direction, e.position, floor)
  {
    if e.id != id then e
    else if e.underMaintenance then e
    else if FloorBelow(e.position) == floor then e
    else
      e.(target := Some(floor),
         direction := if Tenths(floor) > e.position then Up else Down,
         isMoving := true)
  }

  /** The request applied to the fleet: only elevators named `id` can
      change, and length and order are kept. */
  function SelectElevator(fleet: seq<Elevator>, id: string, floor: int): (r: seq<Elevator>)
    ensures |r| == |fleet|
    ensures forall i :: 0 <= i < |fleet| ==> r[i] == SelectOne(fleet[i], id, floor)
  {
    seq(|fleet|, i requires 0 <= i < |fleet| => SelectOne(fleet[i], id, floor))
  }

  /** Repeating a request changes nothing further. */
  lemma SelectIdempotent(fleet: seq<Elevator>, id: string, floor: int)
    ensures SelectElevator(SelectElevator(fleet, id, floor), id, floor) == SelectElevator(fleet, id, floor)
  {
    var once := SelectElevator(fleet, id, floor);
    var twice := SelectElevator(once, id, floor);
    forall i | 0 <= i < |fleet|
      ensures twice[i] == once[i]
    {
      if Accepts(fleet[i], id, floor) {
        assert Accepts(once[i], id, floor);
      }
    }
  }

  /** Requests keep every elevator sound and every id in place. */
  lemma SelectKeepsSound(fleet: seq<Elevator>, id: string, floor: int)
    requires FleetSound(fleet)
    ensures SameIds(fleet, SelectElevator(fleet, id, floor))
    ensures FleetSound(SelectElevator(fleet, id, floor))
  {
    var r := SelectElevator(fleet, id, floor);
    SameIdsKeepUnique(fleet, r);
  }

  /** Under unique ids the named elevator, if present, is the only one that
      can change. */
  lemma SelectTouchesOnlyNamed(fleet: seq<Elevator>, id: string, floor: int, k: nat)
    requires k < |fleet| && fleet[k].id == id && UniqueIds(fleet)
    ensures forall i :: 0 <= i < |fleet| && i != k ==> SelectElevator(fleet, id, floor)[i] == fleet[i]
  {
  }
}
