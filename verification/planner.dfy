/** The dispatch planner: the arrival-time estimate for one elevator and the
    recommendation of the fastest elevator for a requested floor. Both are
    pure queries over a fleet snapshot. */
module Planner {
  import opened ElevatorTypes

  /** A time in seconds, or `Infinity` for an elevator that cannot come. */
  datatype Eta = Finite(seconds: nat) | Infinite

  /** JavaScript's `<` on non-negative numbers and `Infinity`. */
  predicate EtaLess(a: Eta, b: Eta) {
    match (a, b)
    case (Finite(x), Finite(y)) => x < y
    case (Finite(_), Infinite) => true
    case (Infinite, _) => false
  }

  /** Seconds of service buffer added to every trip. */
  const BufferSeconds: nat := 5

  /** `Math.round(x)`: the nearest integer, halves rounded up. */
  function RoundHalfUp(x: real): int {
    (x + 0.5).Floor
  }

  /** Travel seconds for `tenths` tenths of a floor at `speed` floors per
      minute, rounded as `Math.round` rounds; computed on integers. */
  function TravelSeconds(tenths: nat, speed: Speed): nat {
    (12 * tenths + speed) / (2 * speed)
  }

  lemma CancelFactor(a: real, b: real, c: real)
    requires c > 0.0 && a * c <= b * c
    ensures a <= b
  {
  }

  lemma CancelFactorStrict(a: real, b: real, c: real)
    requires c > 0.0 && a * c < b * c
    ensures a < b
  {
  }

  /** The integer floor of a quotient of integers is integer division. */
  lemma FloorOfQuotient(q: int, p: int)
    requires p > 0
    ensures ((q as real) / (p as real)).Floor == q / p
  {
    var k := q / p;
    var x := (q as real) / (p as real);
    var pr := p as real;
    assert x * pr == q as real;
    assert (k as real) * pr <= x * pr;
    assert x * pr < ((k + 1) as real) * pr;
    CancelFactor(k as real, x, pr);
    CancelFactorStrict(x, (k + 1) as real, pr);
  }

  /** The integer travel time is the source's floating-point formula,
      `Math.round(distance / speed * 60)` with the distance in floors. */
  lemma TravelSecondsRounds(tenths: nat, speed: Speed)
    ensures TravelSeconds(tenths, speed)
         == RoundHalfUp((tenths as real) / 10.0 / (speed as real) * 60.0)
  {
    var s := speed as real;
    var d := tenths as real;
    var x := d / 10.0 / s * 60.0;
    var q := (12 * tenths + speed) as real;
    var p := (2 * speed) as real;
    assert x == 6.0 * (d / s);
    assert (d / s) * s == d;
    assert q / p * p == q;
    assert (x + 0.5) * p == q by {
      assert x * p == 6.0 * (d / s) * 2.0 * s == 12.0 * d;
    }
    assert x + 0.5 == q / p by {
      CancelFactor(x + 0.5, q / p, p);
      CancelFactor(q / p, x + 0.5, p);
    }
    FloorOfQuotient(12 * tenths + speed, 2 * speed);
  }

  /** `getEstimatedTime` for a known elevator. */
  function EstimateFor(e: Elevator, targetFloor: int): (r: Eta)
    ensures r.Infinite? <==> e.underMaintenance
    ensures r == Finite(0) <==> !e.underMaintenance && FloorBelow(e.position) == targetFloor
    ensures r.Finite? && r.seconds != 0 ==>
      r.seconds == RoundHalfUp((Abs(Tenths(targetFloor) - e.position) as real) / 10.0 / (e.speed as real) * 60.0) + BufferSeconds
    ensures r.Finite? && r.seconds != 0 ==> r.seconds >= BufferSeconds
  {
    if e.underMaintenance then Infinite
    else if FloorBelow(e.position) == targetFloor then Finite(0)
    else
      var distance := Abs(Tenths(targetFloor) - e.position);
      TravelSecondsRounds(distance, e.speed);
      Finite(TravelSeconds(distance, e.speed) + BufferSeconds)
  }

  /** `elevators.find(e => e.id === id)`: the first elevator with the id. */
  function FindById(fleet: seq<Elevator>, id: string): (r: Option<nat>)
    ensures r.Some? ==> r.value < |fleet| && fleet[r.value].id == id
    ensures r.Some? ==> forall j :: 0 <= j < r.value ==> fleet[j].id != id
    ensures r.None? ==> forall j :: 0 <= j < |fleet| ==> fleet[j].id != id
  {
    FindFrom(fleet, id, 0)
  }

  function FindFrom(fleet: seq<Elevator>, id: string, i: nat): (r: Option<nat>)
    requires i <= |fleet|
    ensures r.Some? ==> i <= r.value < |fleet| && fleet[r.value].id == id
    ensures r.Some? ==> forall j :: i <= j < r.value ==> fleet[j].id != id
    ensures r.None? ==> forall j :: i <= j < |fleet| ==> fleet[j].id != id
    decreases |fleet| - i
  {
    if i == |fleet| then None
    else if fleet[i].id == id then Some(i)
    else FindFrom(fleet, id, i + 1)
  }

  /** `getEstimatedTime(elevatorId, targetFloor)`. */
  function EstimatedTime(fleet: seq<Elevator>, id: string, targetFloor: int): (r: Eta)
    ensures r.Infinite? <==> FindById(fleet, id).None? || fleet[FindById(fleet, id).value].underMaintenance
    ensures FindById(fleet, id).Some? ==> r == EstimateFor(fleet[FindById(fleet, id).value], targetFloor)
  {
    match FindById(fleet, id)
    case None => Infinite
    case Some(k) => EstimateFor(fleet[k], targetFloor)
  }

  /** With unique ids, looking an elevator up by its own id finds it. */
  lemma FindOwnId(fleet: seq<Elevator>, k: nat)
    requires k < |fleet| && UniqueIds(fleet)
    ensures FindById(fleet, fleet[k].id) == Some(k)
  {
    var r := FindById(fleet, fleet[k].id);
    assert r.Some?;
  }

  /** The time the recommendation scan weighs for the elevator at index `j`:
      maintenance elevators are skipped, the rest are looked up by id. */
  function TimeAt(fleet: seq<Elevator>, targetFloor: int, j: nat): Eta
    requires j < |fleet|
  {
    if fleet[j].underMaintenance then Infinite else EstimatedTime(fleet, fleet[j].id, targetFloor)
  }

  /** Index `k` holds the fastest time of the fleet, and every earlier index
      is strictly slower: the first minimum in fleet order. */
  predicate IsFirstFastest(fleet: seq<Elevator>, targetFloor: int, k: nat) {
    && k < |fleet|
    && TimeAt(fleet, targetFloor, k).Finite?
    && (forall j :: 0 <= j < |fleet| ==> !EtaLess(TimeAt(fleet, targetFloor, j), TimeAt(fleet, targetFloor, k)))
    && (forall j :: 0 <= j < k ==> EtaLess(TimeAt(fleet, targetFloor, k), TimeAt(fleet, targetFloor, j)))
  }

  /** The first fastest elevator, when there is one, is unique. */
  lemma FirstFastestUnique(fleet: seq<Elevator>, targetFloor: int, a: nat, b: nat)
    requires IsFirstFastest(fleet, targetFloor, a) && IsFirstFastest(fleet, targetFloor, b)
    ensures a == b
  {
  }

  /** The scan's running choice: the elevator index and its time. */
  datatype Pick = Pick(index: nat, time: nat)

  /** `bestTime`: `Infinity` until an elevator has been picked. */
  function BestTime(best: Option<Pick>): Eta {
    match best
    case None => Infinite
    case Some(p) => Finite(p.time)
  }

  /** The `forEach` of `getRecommendedElevator` from index `i` on, replacing
      the choice only on a strictly smaller time. */
  function Scan(fleet: seq<Elevator>, targetFloor: int, i: nat, best: Option<Pick>): Option<Pick>
    requires i <= |fleet|
    decreases |fleet| - i
  {
    if i == |fleet| then best
    else if fleet[i].underMaintenance then Scan(fleet, targetFloor, i + 1, best)
    else
      var time := EstimatedTime(fleet, fleet[i].id, targetFloor);
      if EtaLess(time, BestTime(best)) then Scan(fleet, targetFloor, i + 1, Some(Pick(i, time.seconds)))
      else Scan(fleet, targetFloor, i + 1, best)
  }

  /** `best` is the first fastest choice among indices below `n`, or nothing
      when every one of them is skipped or unreachable. */
  predicate BestBelow(fleet: seq<Elevator>, targetFloor: int, n: nat, best: Option<Pick>)
    requires n <= |fleet|
  {
    match best
    case None => forall j :: 0 <= j < n ==> TimeAt(fleet, targetFloor, j).Infinite?
    case Some(p) =>
      && p.index < n
      && TimeAt(fleet, targetFloor, p.index) == Finite(p.time)
      && (forall j :: 0 <= j < n ==> !EtaLess(TimeAt(fleet, targetFloor, j), Finite(p.time)))
      && (forall j :: 0 <= j < p.index ==> EtaLess(Finite(p.time), TimeAt(fleet, targetFloor, j)))
  }

  /** The scan's loop invariant carries through to the end of the fleet. */
  lemma {:induction false} ScanFindsFirstFastest(fleet: seq<Elevator>, targetFloor: int, i: nat, best: Option<Pick>)
    requires i <= |fleet| && BestBelow(fleet, targetFloor, i, best)
    ensures BestBelow(fleet, targetFloor, |fleet|, Scan(fleet, targetFloor, i, best))
    decreases |fleet| - i
  {
    if i < |fleet| {
      var t := TimeAt(fleet, targetFloor, i);
      var next := if EtaLess(t, BestTime(best)) then Some(Pick(i, t.seconds)) else best;
      assert BestBelow(fleet, targetFloor, i + 1, next);
      ScanFindsFirstFastest(fleet, targetFloor, i + 1, next);
    }
  }

  /** The elevator the recommendation settles on, as an index and a time. */
  function Choice(fleet: seq<Elevator>, targetFloor: int): (r: Option<Pick>)
    ensures r.None? <==> forall j :: 0 <= j < |fleet| ==> TimeAt(fleet, targetFloor, j).Infinite?
    ensures r.Some? ==> (IsFirstFastest(fleet, targetFloor, r.value.index)
                         && TimeAt(fleet, targetFloor, r.value.index) == Finite(r.value.time))
  {
    ScanFindsFirstFastest(fleet, targetFloor, 0, None);
    Scan(fleet, targetFloor, 0, None)
  }

  datatype Recommendation = Recommendation(
    elevatorId: string,
    elevatorName: string,
    estimatedTimeSeconds: nat,
    status: string)

  /** The status label: "Full" overrides everything, then the direction of
      a moving elevator, else "Available". */
  function StatusOf(e: Elevator): (s: string)
    ensures s == "Full" <==> e.occupancy == Full
    ensures e.occupancy != Full ==>
      && (s == "Moving Up" <==> e.isMoving && e.direction == Up)
      && (s == "Moving Down" <==> e.isMoving && e.direction != Up)
      && (s == "Available" <==> !e.isMoving)
  {
    var moving := if e.isMoving then (if e.direction == Up then "Moving Up" else "Moving Down") else "Available";
    if e.occupancy == Full then "Full" else moving
  }

  function Announce(e: Elevator, seconds: nat): Recommendation {
    Recommendation(e.id, e.name, seconds, StatusOf(e))
  }

  /** `getRecommendedElevator(targetFloor)` seen from the building's
      `currentFloor`. */
  function Recommend(fleet: seq<Elevator>, currentFloor: int, targetFloor: int): (r: Option<Recommendation>)
    ensures targetFloor == currentFloor ==> r.None?
    ensures targetFloor != currentFloor ==>
      (r.None? <==> forall j :: 0 <= j < |fleet| ==> TimeAt(fleet, targetFloor, j).Infinite?)
    ensures r.Some? ==>
      exists k :: (0 <= k < |fleet| && IsFirstFastest(fleet, targetFloor, k)
                   && !fleet[k].underMaintenance
                   && r.value == Announce(fleet[k], TimeAt(fleet, targetFloor, k).seconds))
  {
    if targetFloor == currentFloor then None
    else
      match Choice(fleet, targetFloor)
      case None => None
      case Some(p) =>
        var k := p.index;
        assert IsFirstFastest(fleet, targetFloor, k) && !fleet[k].underMaintenance;
        Some(Announce(fleet[k], p.time))
  }

  /** With unique ids the scan weighs each elevator by its own estimate. */
  lemma TimeAtOwnEstimate(fleet: seq<Elevator>, targetFloor: int, j: nat)
    requires j < |fleet| && UniqueIds(fleet)
    ensures FindById(fleet, fleet[j].id) == Some(j)
    ensures TimeAt(fleet, targetFloor, j) == EstimateFor(fleet[j], targetFloor)
  {
    FindOwnId(fleet, j);
  }

  /** With unique ids there is no recommendation exactly when the floor is
      the current one or every elevator is under maintenance. */
  lemma RecommendNoneWithUniqueIds(fleet: seq<Elevator>, currentFloor: int, targetFloor: int)
    requires UniqueIds(fleet)
    ensures Recommend(fleet, currentFloor, targetFloor).None?
        <==> targetFloor == currentFloor || forall j :: 0 <= j < |fleet| ==> fleet[j].underMaintenance
  {
    forall j | 0 <= j < |fleet|
      ensures TimeAt(fleet, targetFloor, j) == EstimateFor(fleet[j], targetFloor)
    {
      TimeAtOwnEstimate(fleet, targetFloor, j);
    }
  }

  /** With unique ids the chosen elevator's announced time is its own
      estimate, and no elevator in service is faster. */
  lemma RecommendWithUniqueIds(fleet: seq<Elevator>, currentFloor: int, targetFloor: int)
    requires UniqueIds(fleet)
    ensures var r := Recommend(fleet, currentFloor, targetFloor);
      r.Some? ==>
        && EstimatedTime(fleet, r.value.elevatorId, targetFloor) == Finite(r.value.estimatedTimeSeconds)
        && forall j :: 0 <= j < |fleet| && !fleet[j].underMaintenance ==>
             r.value.estimatedTimeSeconds <= EstimateFor(fleet[j], targetFloor).seconds
  {
    var r := Recommend(fleet, currentFloor, targetFloor);
    if r.Some? {
      var k :| 0 <= k < |fleet| && IsFirstFastest(fleet, targetFloor, k)
        && !fleet[k].underMaintenance
        && r.value == Announce(fleet[k], TimeAt(fleet, targetFloor, k).seconds);
      TimeAtOwnEstimate(fleet, targetFloor, k);
      forall j | 0 <= j < |fleet| && !fleet[j].underMaintenance
        ensures r.value.estimatedTimeSeconds <= EstimateFor(fleet[j], targetFloor).seconds
      {
        TimeAtOwnEstimate(fleet, targetFloor, j);
        assert !EtaLess(TimeAt(fleet, targetFloor, j), TimeAt(fleet, targetFloor, k));
      }
    }
  }

  /** Ties go to the earlier elevator: a later elevator with the same time
      as an earlier one is never the choice. */
  lemma TieGoesToEarlier(fleet: seq<Elevator>, targetFloor: int, a: nat, b: nat)
    requires a < b < |fleet|
    requires TimeAt(fleet, targetFloor, a) == TimeAt(fleet, targetFloor, b)
    ensures !IsFirstFastest(fleet, targetFloor, b)
    ensures Choice(fleet, targetFloor).Some? ==> Choice(fleet, targetFloor).value.index != b
  {
  }
}
