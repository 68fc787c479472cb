/** The dashboard's simulation state and its transitions: the seed fleet,
    the fast and slow ticks, the delayed alert trim, floor requests, and the
    facts that tie them together. */
module Simulation {
  import opened ElevatorTypes
  import opened RandomDraws
  import Movement
  import RandomDispatch
  import Selection
  import Planner
  import Alerts
  import DestinationCard
  import Decimal

  datatype FloorInfo = FloorInfo(number: nat, name: string)

  /** Floors G and 1 to 10. */
  function Floors(): (r: seq<FloorInfo>)
    ensures |r| == 11
    ensures forall i :: 0 <= i < |r| ==> r[i].number == i
    ensures r[0].name == "G"
  {
    seq(11, i requires 0 <= i < 11 => FloorInfo(i, if i == 0 then "G" else Decimal.NatToString(i)))
  }

  datatype Building = Building(
    fleet: seq<Elevator>,
    floorCount: nat,
    currentFloor: int,
    alerts: seq<Alerts.EmergencyAlert>)

  /** The three lifts the dashboard starts with. */
  const SeedFleet: seq<Elevator> := [
    Elevator("elevator-a", "Lift A", 0, None, Idle, Empty, false, false, 12),
    Elevator("elevator-b", "Lift B", 50, Some(2), Down, Half, true, false, 12),
    Elevator("elevator-c", "Lift C", 80, None, Idle, Maintenance, false, true, 10)
  ]

  /** The starting state, seen from floor `initialFloor` (1 by default),
      with the clock reading `now` stamping the first alert. */
  function Initial(initialFloor: int, now: nat): (b: Building)
    ensures |b.fleet| == 3 && b.floorCount == |Floors()| && |b.alerts| == 1
    ensures b.fleet == SeedFleet && b.currentFloor == initialFloor
    ensures b.alerts == Alerts.InitialAlerts(now)
  {
    Building(SeedFleet, |Floors()|, initialFloor, Alerts.InitialAlerts(now))
  }

  /** The state every transition keeps. */
  predicate Healthy(b: Building) {
    FleetSound(b.fleet) && b.floorCount > 0
  }

  /** The seed fleet satisfies the invariant, directions included, and its
      ids are distinct. */
  lemma InitialHealthy(initialFloor: int, now: nat)
    ensures Healthy(Initial(initialFloor, now))
    ensures FleetInvariant(Initial(initialFloor, now).fleet)
  {
    var f := SeedFleet;
    assert f[0].id[9] == 'a' && f[1].id[9] == 'b' && f[2].id[9] == 'c';
  }

  /** The 100 ms tick. */
  function FastTick(b: Building): (r: Building)
    ensures r == b.(fleet := r.fleet) && |r.fleet| == |b.fleet|
    ensures forall i :: 0 <= i < |b.fleet| ==> r.fleet[i] == Movement.Step(b.fleet[i])
  {
    b.(fleet := Movement.FastTick(b.fleet))
  }

  /** Random inputs of one slow tick. */
  datatype SlowDraws = SlowDraws(
    dispatch: seq<RandomDispatch.DispatchDraw>,
    alertRoll: real,
    messageDraw: real,
    now: nat)

  predicate ValidSlowDraws(b: Building, d: SlowDraws) {
    && |d.dispatch| == |b.fleet|
    && (forall i :: 0 <= i < |d.dispatch| ==> RandomDispatch.ValidDraw(d.dispatch[i]))
    && IsUnit(d.alertRoll) && IsUnit(d.messageDraw)
  }

  /** The 8 s tick: random trips for idle elevators and, now and then, a new
      alert; the flag says whether a delayed trim was scheduled. */
  function SlowTick(b: Building, d: SlowDraws): (r: (Building, bool))
    requires b.floorCount > 0 && ValidSlowDraws(b, d)
    ensures r.0.floorCount == b.floorCount && r.0.currentFloor == b.currentFloor
    ensures r.0.fleet == RandomDispatch.SlowDispatch(b.fleet, d.dispatch, b.floorCount)
    ensures r.1 <==> |r.0.alerts| == |b.alerts| + 1
    ensures !r.1 ==> r.0.alerts == b.alerts
    ensures (r.0.alerts, r.1) == Alerts.RaiseAlert(b.alerts, d.alertRoll, d.messageDraw, d.now)
  {
    var fleet := RandomDispatch.SlowDispatch(b.fleet, d.dispatch, b.floorCount);
    var (alerts, scheduled) := Alerts.RaiseAlert(b.alerts, d.alertRoll, d.messageDraw, d.now);
    (b.(fleet := fleet, alerts := alerts), scheduled)
  }

  /** A scheduled trim coming due. */
  function TrimDue(b: Building): (r: Building)
    ensures r == b.(alerts := r.alerts)
    ensures r.alerts == Alerts.Trim(b.alerts)
  {
    b.(alerts := Alerts.Trim(b.alerts))
  }

  /** `selectElevator(elevatorId, targetFloor)` on the building. */
  function Select(b: Building, id: string, floor: int): (r: Building)
    ensures r == b.(fleet := r.fleet)
    ensures r.fleet == Selection.SelectElevator(b.fleet, id, floor)
  {
    b.(fleet := Selection.SelectElevator(b.fleet, id, floor))
  }

  /** Each transition keeps the state healthy. */
  lemma TransitionsKeepHealthy(b: Building, d: SlowDraws, id: string, floor: int)
    requires Healthy(b)
    ensures Healthy(FastTick(b))
    ensures ValidSlowDraws(b, d) ==> Healthy(SlowTick(b, d).0)
    ensures Healthy(TrimDue(b))
    ensures Healthy(Select(b, id, floor))
  {
    var f := FastTick(b).fleet;
    forall i | 0 <= i < |f|
      ensures Sound(f[i])
    {
      if b.fleet[i].isMoving {
        Movement.StepProgress(b.fleet[i]);
      }
    }
    SameIdsKeepUnique(b.fleet, f);
    if ValidSlowDraws(b, d) {
      RandomDispatch.SlowDispatchKeepsSound(b.fleet, d.dispatch, b.floorCount);
    }
    Selection.SelectKeepsSound(b.fleet, id, floor);
  }

  /** The data-model invariant alone (a moving elevator has a target, a
      maintenance one is frozen) is kept by every fleet transition, whatever
      the directions. */
  lemma TransitionsKeepInvariant(b: Building, d: SlowDraws, id: string, floor: int)
    requires FleetInvariant(b.fleet) && b.floorCount > 0
    ensures FleetInvariant(FastTick(b).fleet)
    ensures ValidSlowDraws(b, d) ==> FleetInvariant(SlowTick(b, d).0.fleet)
    ensures FleetInvariant(Select(b, id, floor).fleet)
  {
    forall i | 0 <= i < |b.fleet|
      ensures Invariant(FastTick(b).fleet[i])
    {
      Movement.StepKeepsInvariant(b.fleet[i]);
    }
  }

  /** Maintenance freezes an elevator: no transition changes it. */
  lemma MaintenanceFrozen(b: Building, d: SlowDraws, id: string, floor: int, k: nat)
    requires k < |b.fleet| && b.fleet[k].underMaintenance
    ensures FastTick(b).fleet[k] == b.fleet[k]
    ensures b.floorCount > 0 && ValidSlowDraws(b, d) ==> SlowTick(b, d).0.fleet[k] == b.fleet[k]
    ensures Select(b, id, floor).fleet[k] == b.fleet[k]
  {
  }

  /** Lift B at floor 5, 12 floors per minute, called to floor 2: three floors
      take 15 seconds, plus the 5-second buffer. */
  lemma LiftBExample()
    ensures Planner.EstimatedTime(SeedFleet, "elevator-b", 2) == Planner.Finite(20)
    ensures Planner.EstimatedTime(SeedFleet, "elevator-c", 2) == Planner.Infinite
    ensures Planner.EstimatedTime(SeedFleet, "elevator-z", 2) == Planner.Infinite
  {
    assert SeedFleet[0].id != "elevator-b" by { assert SeedFleet[0].id[9] == 'a'; }
    assert SeedFleet[0].id != "elevator-c" by { assert SeedFleet[0].id[9] == 'a'; }
    assert SeedFleet[1].id != "elevator-c" by { assert SeedFleet[1].id[9] == 'b'; }
    assert SeedFleet[2].id != "elevator-z" by { assert SeedFleet[2].id[9] == 'c'; }
    assert SeedFleet[1].id != "elevator-z" by { assert SeedFleet[1].id[9] == 'b'; }
    assert SeedFleet[0].id != "elevator-z" by { assert SeedFleet[0].id[9] == 'a'; }
  }

  lemma SeedFleetSound()
    ensures FleetSound(SeedFleet)
  {
    InitialHealthy(1, 0);
  }

  lemma SeedTimeAt(targetFloor: int, k: nat)
    requires k < 3
    ensures Planner.TimeAt(SeedFleet, targetFloor, k) == Planner.EstimateFor(SeedFleet[k], targetFloor)
  {
    SeedFleetSound();
    Planner.TimeAtOwnEstimate(SeedFleet, targetFloor, k);
  }

  /** The recommendation for `floor` seen from floor 1, once the first
      fastest seed elevator is known to be the one at `k`. */
  lemma SeedRecommendation(floor: int, k: nat)
    requires k < 3 && floor != 1 && Planner.IsFirstFastest(SeedFleet, floor, k)
    ensures Planner.Recommend(SeedFleet, 1, floor)
         == Some(Planner.Announce(SeedFleet[k], Planner.TimeAt(SeedFleet, floor, k).seconds))
  {
    var c := Planner.Choice(SeedFleet, floor);
    assert c.Some?;
    Planner.FirstFastestUnique(SeedFleet, floor, c.value.index, k);
  }

  /** Seen from floor 1, the seed fleet sends Lift B (15 s, moving down) to
      floor 3: Lift A would take 20 s and Lift C is under maintenance. */
  lemma SeedRecommendsLiftBForFloor3()
    ensures Planner.Recommend(SeedFleet, 1, 3)
         == Some(Planner.Recommendation("elevator-b", "Lift B", 15, "Moving Down"))
  {
    SeedTimeAt(3, 0);
    SeedTimeAt(3, 1);
    SeedTimeAt(3, 2);
    assert Planner.TimeAt(SeedFleet, 3, 0) == Planner.Finite(20);
    assert Planner.TimeAt(SeedFleet, 3, 1) == Planner.Finite(15);
    assert Planner.TimeAt(SeedFleet, 3, 2) == Planner.Infinite;
    assert Planner.IsFirstFastest(SeedFleet, 3, 1);
    SeedRecommendation(3, 1);
  }

  /** Seen from floor 1, the seed fleet sends Lift A (15 s, available) to
      floor 2: Lift B would take 20 s. */
  lemma SeedRecommendsLiftAForFloor2()
    ensures Planner.Recommend(SeedFleet, 1, 2)
         == Some(Planner.Recommendation("elevator-a", "Lift A", 15, "Available"))
  {
    SeedTimeAt(2, 0);
    SeedTimeAt(2, 1);
    SeedTimeAt(2, 2);
    assert Planner.TimeAt(SeedFleet, 2, 0) == Planner.Finite(15);
    assert Planner.TimeAt(SeedFleet, 2, 1) == Planner.Finite(20);
    assert Planner.TimeAt(SeedFleet, 2, 2) == Planner.Infinite;
    assert Planner.IsFirstFastest(SeedFleet, 2, 0);
    SeedRecommendation(2, 0);
  }

  /** A floor request for the floor the elevator is on changes nothing. */
  lemma SelectSameFloorNoOp(b: Building, k: nat)
    requires k < |b.fleet|
    ensures Select(b, b.fleet[k].id, FloorBelow(b.fleet[k].position)).fleet[k] == b.fleet[k]
  {
  }

  /** Clicking a card whose recommendation names the elevator at index `k`
      changes that elevator only; it then travels to the card's floor
      (unless already there) and rests there after as many fast ticks as
      tenths separate it from that floor. */
  lemma ClickDispatchesElevator(fleet: seq<Elevator>, rec: Planner.Recommendation, floor: int, k: nat)
    requires FleetSound(fleet) && k < |fleet| && fleet[k].id == rec.elevatorId
    requires !fleet[k].underMaintenance
    requires rec.estimatedTimeSeconds == 0 <==> FloorBelow(fleet[k].position) == floor
    ensures var after := DestinationCard.HandleSelect(fleet, Some(rec), floor);
      && |after| == |fleet|
      && (forall j :: 0 <= j < |fleet| && j != k ==> after[j] == fleet[j])
      && (rec.estimatedTimeSeconds == 0 ==> after == fleet)
      && (rec.estimatedTimeSeconds != 0 ==>
            && after[k].target == Some(floor) && after[k].isMoving
            && Movement.Steps(after[k], Movement.Remaining(after[k]))
               == after[k].(position := Tenths(floor), target := None, direction := Idle, isMoving := false))
  {
    var after := DestinationCard.HandleSelect(fleet, Some(rec), floor);
    Selection.SelectTouchesOnlyNamed(fleet, rec.elevatorId, floor, k);
    Selection.SelectKeepsSound(fleet, rec.elevatorId, floor);
    if rec.estimatedTimeSeconds != 0 {
      Movement.ArrivesAfterRemaining(after[k]);
    } else {
      assert after == fleet;
    }
  }

  /** Clicking a card dispatches the elevator the card recommends. */
  lemma ClickDispatchesRecommended(fleet: seq<Elevator>, currentFloor: int, floor: int)
    requires FleetSound(fleet) && floor != currentFloor
    requires exists j :: 0 <= j < |fleet| && !fleet[j].underMaintenance
    ensures Planner.Recommend(fleet, currentFloor, floor).Some?
    ensures var rec := Planner.Recommend(fleet, currentFloor, floor).value;
      var after := DestinationCard.HandleSelect(fleet, Some(rec), floor);
      exists k :: 0 <= k < |fleet| && fleet[k].id == rec.elevatorId
        && (forall j :: 0 <= j < |fleet| && j != k ==> after[j] == fleet[j])
        && (rec.estimatedTimeSeconds == 0 ==> after == fleet)
        && (rec.estimatedTimeSeconds != 0 ==> after[k].target == Some(floor) && after[k].isMoving)
  {
    Planner.RecommendNoneWithUniqueIds(fleet, currentFloor, floor);
    var rec := Planner.Recommend(fleet, currentFloor, floor).value;
    var k :| 0 <= k < |fleet| && Planner.IsFirstFastest(fleet, floor, k)
      && !fleet[k].underMaintenance
      && rec == Planner.Announce(fleet[k], Planner.TimeAt(fleet, floor, k).seconds);
    Planner.TimeAtOwnEstimate(fleet, floor, k);
    ClickDispatchesElevator(fleet, rec, floor, k);
  }
}
