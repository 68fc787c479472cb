/** The fast tick: every 100 ms each travelling elevator moves one tenth of a
    floor toward its target and, on reaching it, comes to rest. */
module Movement {
  import opened ElevatorTypes

  /** Elevators the fast tick passes through untouched. */
  predicate Stationary(e: Elevator) {
    !e.isMoving || e.underMaintenance || e.target.None?
  }

  /** The step direction agrees with where the target lies. */
  predicate Agrees(e: Elevator)
    requires e.target.Some?
  {
    PointsAt(e.direction, e.position, e.target.value)
  }

  /** One fast tick for one elevator. */
  function Step(e: Elevator): (r: Elevator)
    ensures Stationary(e) ==> r == e
    ensures r.id == e.id && r.name == e.name && r.speed == e.speed
    ensures r.occupancy == e.occupancy && r.underMaintenance == e.underMaintenance
    // a tenth toward the target when the direction agrees, no move otherwise
    ensures !Stationary(e) && e.direction == Up && e.position < Tenths(e.target.value) ==> r.position == e.position + 1
    ensures !Stationary(e) && e.direction == Down && e.position > Tenths(e.target.value) ==> r.position == e.position - 1
    ensures !Stationary(e) && !Agrees(e) ==> r.position == e.position
    // arrival: on the target it rests there, with target cleared
    ensures !Stationary(e) ==> (r.target.None? <==> r.position == Tenths(e.target.value))
    ensures !Stationary(e) && r.target.None? ==> r.direction == Idle && !r.isMoving
    ensures !Stationary(e) && r.target.Some? ==> r == e.(position := r.position)
  {
    if Stationary(e) then e
    else
      var goal := Tenths(e.target.value);
      var next :=
        if e.direction == Up && e.position < goal then e.position + 1
        else if e.direction == Down && e.position > goal then e.position - 1
        else e.position;
      // |next - goal| < 0.1 floor, in tenths
      if Abs(next - goal) < 1 then
        e.(position := goal, direction := Idle, isMoving := false, target := None)
      else
        e.(position := next)
  }

  /** The fast tick over the whole fleet; order and length are kept. */
  function FastTick(fleet: seq<Elevator>): (r: seq<Elevator>)
    ensures |r| == |fleet|
    ensures forall i :: 0 <= i < |fleet| ==> r[i] == Step(fleet[i])
  {
    seq(|fleet|, i requires 0 <= i < |fleet| => Step(fleet[i]))
  }

  /** `n` fast ticks of one elevator. */
  function Steps(e: Elevator, n: nat): Elevator
    decreases n
  {
    if n == 0 then e else Steps(Step(e), n - 1)
  }

  /** `n` fast ticks of the fleet. */
  function Ticks(fleet: seq<Elevator>, n: nat): seq<Elevator>
    decreases n
  {
    if n == 0 then fleet else Ticks(FastTick(fleet), n - 1)
  }

  /** Tenths of a floor still to travel. */
  function Remaining(e: Elevator): nat {
    if Stationary(e) then 0 else Abs(Tenths(e.target.value) - e.position)
  }

  /** The fast tick keeps the data-model invariant. */
  lemma StepKeepsInvariant(e: Elevator)
    requires Invariant(e)
    ensures Invariant(Step(e))
  {
  }

  /** On a sound travelling elevator a tick removes exactly one tenth of the
      remaining distance and keeps the elevator sound. */
  lemma StepProgress(e: Elevator)
    requires Sound(e) && e.isMoving
    ensures Remaining(e) >= 1
    ensures Remaining(Step(e)) == Remaining(e) - 1
    ensures Sound(Step(e))
    ensures Step(e).isMoving <==> Remaining(e) > 1
  {
  }

  lemma {:induction false} StepsStationary(e: Elevator, n: nat)
    requires Stationary(e)
    ensures Steps(e, n) == e
    decreases n
  {
    if n > 0 {
      StepsStationary(Step(e), n - 1);
    }
  }

  lemma {:induction false} StepsAdd(e: Elevator, a: nat, b: nat)
    ensures Steps(e, a + b) == Steps(Steps(e, a), b)
    decreases a
  {
    if a > 0 {
      StepsAdd(Step(e), a - 1, b);
    }
  }

  /** Before arrival the elevator keeps moving toward the same target, one
      tenth per tick. */
  lemma {:induction false} MovingUntilArrival(e: Elevator, k: nat)
    requires Sound(e) && e.isMoving && k < Remaining(e)
    ensures Steps(e, k).isMoving && Steps(e, k).target == e.target
    ensures Remaining(Steps(e, k)) == Remaining(e) - k
    ensures Sound(Steps(e, k))
    decreases k
  {
    if k > 0 {
      StepProgress(e);
      MovingUntilArrival(Step(e), k - 1);
    }
  }

  /** Convergence: a sound travelling elevator arrives after exactly as many
      ticks as tenths remain, resting on its target with nothing else changed. */
  lemma {:induction false} ArrivesAfterRemaining(e: Elevator)
    requires Sound(e) && e.isMoving
    ensures Steps(e, Remaining(e))
         == e.(position := Tenths(e.target.value), target := None, direction := Idle, isMoving := false)
    decreases Remaining(e)
  {
    StepProgress(e);
    var s := Step(e);
    if Remaining(e) > 1 {
      ArrivesAfterRemaining(s);
    }
  }

  lemma {:induction false} TicksLength(fleet: seq<Elevator>, n: nat)
    ensures |Ticks(fleet, n)| == |fleet|
    decreases n
  {
    if n > 0 {
      TicksLength(FastTick(fleet), n - 1);
    }
  }

  lemma {:induction false} TicksPerElevator(fleet: seq<Elevator>, n: nat, i: nat)
    requires i < |fleet|
    ensures |Ticks(fleet, n)| == |fleet|
    ensures Ticks(fleet, n)[i] == Steps(fleet[i], n)
    decreases n
  {
    if n > 0 {
      TicksPerElevator(FastTick(fleet), n - 1, i);
    }
  }

  /** The whole fleet comes to rest once enough ticks have passed for the
      farthest travelling elevator. */
  lemma FleetSettles(fleet: seq<Elevator>, n: nat)
    requires forall i :: 0 <= i < |fleet| ==> Sound(fleet[i])
    requires forall i :: 0 <= i < |fleet| ==> Remaining(fleet[i]) <= n
    ensures |Ticks(fleet, n)| == |fleet|
    ensures forall i :: 0 <= i < |fleet| ==> !Ticks(fleet, n)[i].isMoving
  {
    TicksLength(fleet, n);
    forall i | 0 <= i < |fleet|
      ensures !Ticks(fleet, n)[i].isMoving
    {
      TicksPerElevator(fleet, n, i);
      var e := fleet[i];
      if e.isMoving {
        var r := Remaining(e);
        ArrivesAfterRemaining(e);
        StepsAdd(e, r, n - r);
        StepsStationary(Steps(e, r), n - r);
      } else {
        StepsStationary(e, n);
      }
    }
  }
}
