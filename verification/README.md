# Elevator dashboard simulation core, in Dafny

This project models the simulation and dispatch core of a building-elevator
dashboard. A small fleet of simulated lifts moves on a fast 100 ms tick. On a
slow 8 s tick, idle lifts are sent on random trips and, now and then, an alert
is appended to a short banner log. A planner estimates each lift's arrival
time at a requested floor and recommends the fastest one. A destination card
shows that recommendation and, when clicked, sends the recommended lift.

Every operation is a pure function from a fleet snapshot to a new snapshot or
to a value:

- `ElevatorTypes` (types.dfy) holds the `Elevator` record and its enumerations,
  plus the invariants.
  - `Invariant`: a lift moves exactly when it has a target, and a lift under
    maintenance neither moves nor has a target.
  - `Heading`: a moving lift points strictly toward its target, and a resting
    lift is idle.
  - Positions are integer tenths of a floor. The code only ever moves in 0.1
    steps and re-rounds to one decimal, so every position it reaches is a
    whole number of tenths. Doubles still differ from exact tenths in the
    arrival test and in the rounding of the travel time; see "## Left out".
- `Movement` (movement.dfy): the fast tick, and convergence to the target.
- `RandomDispatch` (dispatch.dfy): the slow tick's random re-targeting.
  `RandomDraws` (random.dfy) holds `Math.random()` values and the index
  `Math.floor(u * n)` taken from one.
- `Selection` (selection.dfy): `selectElevator`.
- `Planner` (planner.dfy): `getEstimatedTime` and `getRecommendedElevator`.
  `Infinity` is the `Infinite` case of `Eta`.
- `Alerts` (alerts.dfy): appending alerts and the delayed trim.
- `Decimal` (decimal.dfy): the decimal numerals that template strings print,
  with their inverse.
- `DestinationCard` (destination_card.dfy): `formatTime`, the colour bands, the
  distance label, the card, and the click handler.
- `Simulation` (simulation.dfy): the building state, the seed fleet, the
  transitions, and worked examples from the seed fleet.

Two floating-point formulas of the code are rewritten for integers. Each
rewrite is proved equal to the same formula evaluated on exact reals:

- `Math.round(distance / speed * 60)`, with the distance `d` in tenths and an
  integer speed `s`, is computed as `(12*d + s) / (2*s)`.
  `Planner.TravelSecondsRounds` proves that this equals `(x + 0.5).Floor` for
  the real-valued `x`.
- `Math.floor(currentFloor)` is `position / 10`. Dafny's `/` is floor division
  for a positive divisor, so this is exact for negative positions too.

## Model

| member | source | states |
|---|---|---|
| `Movement.Step` | src/context/ElevatorContext.tsx:94-124 | Stationary, maintenance or target-less lifts are returned unchanged. A lift whose direction agrees with its target moves exactly one tenth toward it; otherwise it does not move. On reaching the target it rests there with the target cleared, idle and not moving. Otherwise only the position changes. Id, name, speed, occupancy and maintenance never change. |
| `Movement.FastTick` | src/context/ElevatorContext.tsx:93-125 | The tick applies the step to every lift and keeps fleet length and order. |
| `Movement.StepKeepsInvariant` | src/context/ElevatorContext.tsx:95-118 | The fast tick keeps "moving iff target set, maintenance implies frozen". |
| `Movement.StepProgress` | src/context/ElevatorContext.tsx:100-124 | On a consistent moving lift, one tick removes exactly one tenth of the remaining distance and keeps the lift consistent. It stays moving iff more than one tenth remained. |
| `Movement.StepsStationary` | src/context/ElevatorContext.tsx:95-97 | Any number of fast ticks leaves a stationary lift unchanged. |
| `Movement.MovingUntilArrival` | src/context/ElevatorContext.tsx:100-124 | Before arrival a lift keeps moving toward the same target, and k ticks remove exactly k tenths. |
| `Movement.ArrivesAfterRemaining` | src/context/ElevatorContext.tsx:100-124 | Convergence: after exactly \|target − position\| tenths' worth of ticks, the lift rests on its target. Target is cleared, direction is idle, and no other field has changed. |
| `Movement.FleetSettles` | src/context/ElevatorContext.tsx:91-127 | Once as many ticks have run as the farthest lift has tenths to go, no lift is moving. |
| `RandomDraws.PickIndex` | src/context/ElevatorContext.tsx:143 | `Math.floor(u * n)` with `u` in [0, 1) is an index below `n`. |
| `RandomDispatch.DispatchOne` | src/context/ElevatorContext.tsx:137-159 | Maintenance lifts and non-idle lifts are never changed. A lift is re-targeted exactly when it is idle, its roll exceeds 0.7 and the drawn floor differs from floor(position). The new floor lies in [0, floor count). The direction is up iff the floor lies above, and is never idle. The occupancy is the entry of [empty, half, full] that the occupancy draw picks, and the lift is moving. No other field changes. |
| `RandomDispatch.SlowDispatch` | src/context/ElevatorContext.tsx:136-161 | The slow tick applies the per-lift rule with that lift's own draws, and keeps length and order. |
| `RandomDispatch.SlowDispatchKeepsSound` | src/context/ElevatorContext.tsx:150-156 | The slow tick keeps every lift consistent, directions included, and keeps ids in place. |
| `Selection.SelectOne` | src/context/ElevatorContext.tsx:201-216 | A request is a no-op on another id, under maintenance, or when floor(position) equals the floor. Otherwise it sets the target and `isMoving`, with direction up iff the floor lies above. The new direction points strictly at the floor, and occupancy and every other field are untouched. |
| `Selection.SelectElevator` | src/context/ElevatorContext.tsx:199-218 | The request is applied lift by lift. Length and order are kept, and lifts with other ids are unchanged. |
| `Selection.SelectIdempotent` | src/context/ElevatorContext.tsx:199-218 | Repeating the same request changes nothing further. |
| `Selection.SelectKeepsSound` | src/context/ElevatorContext.tsx:210-215 | Requests keep every lift consistent and keep ids in place. |
| `Selection.SelectTouchesOnlyNamed` | src/context/ElevatorContext.tsx:202 | With distinct ids, every lift other than the named one is unchanged. |
| `Planner.TravelSecondsRounds` | src/context/ElevatorContext.tsx:230-234 | The integer travel time equals `Math.round(distance / speed * 60)` computed on reals. |
| `Planner.EstimateFor` | src/context/ElevatorContext.tsx:222-234 | The estimate is infinite iff the lift is under maintenance. It is 0 iff the lift is in service and floor(position) equals the target. Otherwise it is round(distance / speed · 60) + 5, so at least 5. |
| `Planner.FindById` | src/context/ElevatorContext.tsx:221 | Returns the first lift with the id, or none iff no lift has it. |
| `Planner.EstimatedTime` | src/context/ElevatorContext.tsx:220-235 | Infinite iff the id is unknown or its first lift is under maintenance. Otherwise it is that lift's estimate. |
| `Planner.ScanFindsFirstFastest` | src/context/ElevatorContext.tsx:241-255 | The `forEach` with strict `<` keeps, to the end of the fleet, the first minimum over the lifts in service. |
| `Planner.Choice` | src/context/ElevatorContext.tsx:241-258 | There is no choice iff every lift is skipped or unreachable. Otherwise the chosen index is the first fastest, with its own time. |
| `Planner.FirstFastestUnique` | src/context/ElevatorContext.tsx:244-255 | The first fastest lift is unique, so the scan's result is fully determined by that property. |
| `Planner.TieGoesToEarlier` | src/context/ElevatorContext.tsx:251 | Of two lifts with equal time, the later one is never chosen. |
| `Planner.StatusOf` | src/context/ElevatorContext.tsx:260-270 | The status is "Full" iff occupancy is full. Otherwise it is "Moving Up" / "Moving Down" by direction when moving, and "Available" iff not moving. |
| `Planner.Recommend` | src/context/ElevatorContext.tsx:237-278 | Returns none when the floor is the current floor. Otherwise it returns none iff no lift is reachable. A result names the first fastest lift, which is not under maintenance, with its finite time and status. |
| `Planner.RecommendNoneWithUniqueIds` | src/context/ElevatorContext.tsx:237-258 | With distinct ids, there is no recommendation iff the floor is the current one or every lift is under maintenance. |
| `Planner.RecommendWithUniqueIds` | src/context/ElevatorContext.tsx:237-278 | With distinct ids, the announced time is the chosen lift's own estimate and is ≤ the estimate of every lift in service. |
| `Alerts.InitialAlerts` | src/context/ElevatorContext.tsx:81-88 | The log starts with one info alert, "alert-1", stamped with the start time. |
| `Alerts.NewAlert` | src/context/ElevatorContext.tsx:172-181 | A raised alert is an info alert carrying the catalog message at the drawn index. It is stamped with the clock reading, and its id is "alert-" followed by digits that read back as that reading, with no leading zero. |
| `Alerts.DistinctClocksDistinctIds` | src/context/ElevatorContext.tsx:177 | Alerts raised at different clock readings get different ids. |
| `Alerts.Append` | src/context/ElevatorContext.tsx:174-182 | Appending grows the log by exactly one, at the end, and keeps every earlier alert. |
| `Alerts.Trim` | src/context/ElevatorContext.tsx:185-191 | With more than 3 alerts, exactly the head is removed. Otherwise the log is unchanged. |
| `Alerts.TrimKeepsNewest` | src/context/ElevatorContext.tsx:185-191 | A trim leaves a suffix of the log and never loses any of the newest three alerts. |
| `Alerts.TrimsLeaveNewest` | src/context/ElevatorContext.tsx:184-192 | Enough pending trims leave exactly the newest three alerts, or all of them if there were at most three. |
| `Alerts.RaiseAlert` | src/context/ElevatorContext.tsx:164-192 | An alert is appended, and a trim is scheduled, exactly when the roll exceeds 0.95. The appended alert is the info alert "alert-<now>" carrying the catalog message the message draw picks. Otherwise the log is unchanged. |
| `Decimal.NatToStringRoundTrip` | src/components/DestinationCard.tsx:21 | The decimal numeral a template string prints reads back as the number. |
| `DestinationCard.SplitTime` | src/components/DestinationCard.tsx:20-24 | Under 60 seconds the time is seconds only. From 60 up it is (mins, secs) with mins·60 + secs = seconds, 0 ≤ secs < 60 and mins ≥ 1. |
| `DestinationCard.FormatTime` | src/components/DestinationCard.tsx:20-25 | Under a minute the text is the numeral followed by "s". From a minute up it is the whole minutes, "m ", the remaining seconds (below 60) and "s". |
| `DestinationCard.FormatTimeRoundTrip` | src/components/DestinationCard.tsx:20-25 | Every formatted time parses back to the same number of seconds, so no two durations look alike. |
| `DestinationCard.RecommendationTone` | src/components/DestinationCard.tsx:39-43 | Muted iff there is no recommendation. Otherwise yellow iff the status is "Full", and blue iff it is not. |
| `DestinationCard.EtaTone` | src/components/DestinationCard.tsx:45-51 | Muted iff there is no recommendation. Otherwise green iff eta < 30, blue iff 30 ≤ eta < 60, and yellow iff eta ≥ 60. |
| `DestinationCard.EtaToneMonotone` | src/components/DestinationCard.tsx:45-51 | A longer wait never shows an earlier band. |
| `DestinationCard.DistanceLabel` | src/components/DestinationCard.tsx:70-72 | The label's leading digits read back as the distance. The word is plural iff the distance is not 1. |
| `DestinationCard.EtaText` | src/components/DestinationCard.tsx:79-86 | "ETA: " plus a time that parses back to the estimate, or "No elevators available". |
| `DestinationCard.Card` | src/components/DestinationCard.tsx:13-118 | No card iff the floor is the current floor. A card carries the recommendation for its floor and an up arrow iff the floor lies above. Its distance is \|floor − current\| ≥ 1, and it has the label, tones and ETA text for that recommendation. The maintenance note shows iff some lift is under maintenance. |
| `DestinationCard.HandleSelect` | src/components/DestinationCard.tsx:27-31 | A click requests the recommended lift for the card's floor exactly when a recommendation exists, and otherwise does nothing. |
| `Simulation.Floors` | src/context/ElevatorContext.tsx:27-39 | Eleven floors numbered 0 to 10, the ground floor named "G". |
| `Simulation.Initial` | src/context/ElevatorContext.tsx:25-88 | The start state is the seed fleet, eleven floors, the given current floor and the single initial alert. |
| `Simulation.InitialHealthy` | src/context/ElevatorContext.tsx:44-78 | The seed fleet satisfies the invariant, directions included, and has distinct ids. |
| `Simulation.FastTick` | src/context/ElevatorContext.tsx:91-130 | The fast tick changes only the fleet, one step per lift. |
| `Simulation.SlowTick` | src/context/ElevatorContext.tsx:133-197 | The slow tick re-targets the fleet with the given draws. Its alert log and trim flag are exactly those of raising an alert with the tick's roll, message draw and clock reading. So the log grows by one exactly when a trim is scheduled, and otherwise it is left alone. |
| `Simulation.TrimDue` | src/context/ElevatorContext.tsx:185-191 | A trim that comes due changes only the alert log. |
| `Simulation.Select` | src/context/ElevatorContext.tsx:199-218 | A floor request changes only the fleet. |
| `Simulation.TransitionsKeepHealthy` | src/context/ElevatorContext.tsx:93-217 | Fast tick, slow tick, trim and floor request all keep every lift consistent and keep ids distinct. |
| `Simulation.TransitionsKeepInvariant` | src/context/ElevatorContext.tsx:93-217 | The data-model invariant alone is kept by every fleet transition. |
| `Simulation.MaintenanceFrozen` | src/context/ElevatorContext.tsx:95-205 | No transition changes a lift under maintenance, in any state. |
| `Simulation.LiftBExample` | src/context/ElevatorContext.tsx:220-235 | Lift B (floor 5, speed 12) to floor 2 takes 20 s. Lift C (maintenance) and an unknown id take `Infinity`. |
| `Simulation.SeedRecommendsLiftBForFloor3` | src/context/ElevatorContext.tsx:237-278 | From floor 1 the seed fleet recommends Lift B, moving down, 15 s, for floor 3. |
| `Simulation.SeedRecommendsLiftAForFloor2` | src/context/ElevatorContext.tsx:237-278 | From floor 1 the seed fleet recommends Lift A, available, 15 s, for floor 2. |
| `Simulation.SelectSameFloorNoOp` | src/context/ElevatorContext.tsx:207-208 | Requesting the floor a lift is already on leaves it unchanged. |
| `Simulation.ClickDispatchesElevator` | src/components/DestinationCard.tsx:27-31 | Clicking a card changes only the recommended lift. With a nonzero estimate, that lift then heads for the card's floor and rests there after the remaining ticks. |
| `Simulation.ClickDispatchesRecommended` | src/components/DestinationCard.tsx:17-31 | On a card for another floor, with distinct ids and some lift in service, a recommendation exists. The click then changes only the lift it names, and that lift heads for the card's floor unless the estimate is 0. |

## Left out

- React plumbing is not modelled: context, hooks, state setters and
  re-rendering. The state is an explicit `Building` value passed to pure
  functions.
- Timers are not modelled: the 100 ms and 8 s intervals and the 15 s trim
  delay. Each tick is one function call. A trim that comes due is the
  separate event `TrimDue`, and `SlowTick` only reports that one was
  scheduled. Stopping and cleaning up timers is not modelled.
- `Math.random()` and `Date.now()` are parameters. Each lift gets its own
  record of three draws. A draw the source would not consume (after a failed
  roll) is ignored instead of being taken from a shared stream.
- Floating point is not modelled. Positions are exact tenths. IEEE-754
  doubles make `Math.abs(5.1 - 5) < 0.1` and `Math.abs(4.9 - 5) < 0.1` true,
  so the source may snap one tick early, from above or below, on some floors.
  The model always arrives on the exact tenth.
- `Planner.EstimateFor` rounds the travel time on exact reals. At a half-way
  distance the doubles result is either the half itself or just below it, so
  the source's estimate can be 1 s lower, never higher. For example, a lift at 0.7
  (speed 12) asked for floor 4 gets `3.3 / 12 * 60 = 16.499999999999996` in
  doubles, so 21 s; the model says 22 s.
- Speeds are positive integers (the seed uses 12 and 10). A fractional speed,
  or a non-positive one (which the code never checks), is not representable.
- Duplicate lift ids are allowed in the model, and lookups take the first
  match as `find` does. The planner's properties about a lift's own estimate
  assume distinct ids, which every transition keeps.
- The building's current floor never changes in the code (its setter is
  unused). It is a field that no transition changes.
- `FloorInfo.isCurrent`, the "(Full)" name suffix, icons and CSS class strings
  other than the colour choices are not modelled. Also left out:
  `ElevatorShaft.tsx`, `ElevatorsPanel.tsx`, `FloorsList.tsx`,
  `TravelCards.tsx`, `AlertTicker.tsx` and `Dashboard.tsx`. They are
  presentation only.
- The code offers no configuration options (tick interval, retention count,
  trim delay). The constants are fixed as in the code: 0.1 floor per tick,
  0.7 and 0.95 thresholds, 3 retained alerts, 5 s buffer.
