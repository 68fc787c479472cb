/** The alert banner's log: alerts are appended at the end by the slow tick
    and the oldest is trimmed, after a delay, once more than three are
    kept. Clock readings and random draws are parameters. */
module Alerts {
  import Decimal
  import opened RandomDraws

  datatype AlertKind = Info | Warning | Critical

  /** `timestamp` is a clock reading in milliseconds. */
  datatype EmergencyAlert = EmergencyAlert(id: string, message: string, kind: AlertKind, timestamp: nat)

  /** Alerts kept once a delayed trim runs. */
  const Retained: nat := 3

  /** Chance threshold: a slow tick raises an alert when its roll exceeds 0.95. */
  const AlertThreshold: real := 0.95

  /** The messages a slow tick picks from. */
  const Catalog: seq<string> := [
    "Please maintain social distancing in elevators",
    "Scheduled maintenance for Lift A tomorrow from 10 AM-12 PM",
    "Building inspection in progress. Thank you for your patience.",
    "Please report any issues to Building Management at ext. 500"
  ]

  /** The alert the dashboard starts with. */
  function InitialAlerts(now: nat): (r: seq<EmergencyAlert>)
    ensures |r| == 1 && r[0].id == "alert-1" && r[0].kind == Info && r[0].timestamp == now
  {
    [EmergencyAlert("alert-1",
       "Lift C is currently under maintenance and will resume operation at 2:30 PM",
       Info, now)]
  }

  /** An alert raised at clock reading `now` (ms) with catalog entry `index`:
      its id is "alert-" followed by the reading. */
  function NewAlert(index: nat, now: nat): (a: EmergencyAlert)
    requires index < |Catalog|
    ensures a.message == Catalog[index] && a.kind == Info && a.timestamp == now
    ensures |a.id| > 6 && a.id[..6] == "alert-"
    ensures Decimal.IsDigits(a.id[6..]) && Decimal.DigitsValue(a.id[6..]) == now
    ensures |a.id| > 7 ==> a.id[6] != '0'
  {
    var id := "alert-" + Decimal.NatToString(now);
    Decimal.NatToStringRoundTrip(now);
    assert id[6..] == Decimal.NatToString(now);
    EmergencyAlert(id, Catalog[index], Info, now)
  }

  /** Alerts raised at different clock readings get different ids. */
  lemma DistinctClocksDistinctIds(i: nat, j: nat, a: nat, b: nat)
    requires i < |Catalog| && j < |Catalog| && a != b
    ensures NewAlert(i, a).id != NewAlert(j, b).id
  {
    var x := NewAlert(i, a).id;
    var y := NewAlert(j, b).id;
    assert Decimal.DigitsValue(x[6..]) != Decimal.DigitsValue(y[6..]);
  }

  /** Appending keeps every earlier alert and adds exactly one at the end. */
  function Append(alerts: seq<EmergencyAlert>, a: EmergencyAlert): (r: seq<EmergencyAlert>)
    ensures |r| == |alerts| + 1
    ensures r[..|alerts|] == alerts && r[|alerts|] == a
  {
    alerts + [a]
  }

  /** The delayed trim: drop the oldest alert when more than three are kept. */
  function Trim(alerts: seq<EmergencyAlert>): (r: seq<EmergencyAlert>)
    ensures |alerts| > Retained ==> |r| == |alerts| - 1 && alerts == [alerts[0]] + r
    ensures |alerts| <= Retained ==> r == alerts
  {
    if |alerts| > Retained then alerts[1..] else alerts
  }

  /** `n` delayed trims, as they pile up while alerts keep coming. */
  function TrimTimes(alerts: seq<EmergencyAlert>, n: nat): seq<EmergencyAlert>
    decreases n
  {
    if n == 0 then alerts else TrimTimes(Trim(alerts), n - 1)
  }

  /** The newest three alerts, or all of them when there are fewer. */
  function Newest(alerts: seq<EmergencyAlert>): (r: seq<EmergencyAlert>)
    ensures |r| == (if |alerts| < Retained then |alerts| else Retained)
  {
    if |alerts| < Retained then alerts else alerts[|alerts| - Retained..]
  }

  /** Trimming never loses the newest alerts: the result is a suffix of the
      log that still holds the newest three (or all of them). */
  lemma TrimKeepsNewest(alerts: seq<EmergencyAlert>)
    ensures var r := Trim(alerts);
      && |r| <= |alerts|
      && r == alerts[|alerts| - |r|..]
      && Newest(r) == Newest(alerts)
  {
    if |alerts| > Retained {
      var r := alerts[1..];
      assert r[|r| - Retained..] == alerts[|alerts| - Retained..];
    }
  }

  /** Enough trims leave exactly the newest three alerts (or all of them
      when there were no more than three). */
  lemma {:induction false} TrimsLeaveNewest(alerts: seq<EmergencyAlert>, n: nat)
    requires n + Retained >= |alerts|
    ensures TrimTimes(alerts, n) == Newest(alerts)
    decreases n
  {
    if n == 0 {
      assert |alerts| <= Retained;
    } else {
      TrimKeepsNewest(alerts);
      var t := Trim(alerts);
      TrimsLeaveNewest(t, n - 1);
    }
  }

  /** The alert part of a slow tick: with a roll above 0.95 a catalog
      message is appended and a delayed trim is scheduled. */
  function RaiseAlert(alerts: seq<EmergencyAlert>, roll: real, messageDraw: real, now: nat)
    : (r: (seq<EmergencyAlert>, bool))
    requires IsUnit(roll) && IsUnit(messageDraw)
    ensures r.1 <==> roll > AlertThreshold
    ensures !r.1 ==> r.0 == alerts
    ensures r.1 ==> |r.0| == |alerts| + 1 && r.0[..|alerts|] == alerts
                    && r.0[|alerts|].message in Catalog && r.0[|alerts|].timestamp == now
    ensures r.1 ==> r.0 == Append(alerts, NewAlert(PickIndex(messageDraw, |Catalog|), now))
  {
    if roll > AlertThreshold then
      (Append(alerts, NewAlert(PickIndex(messageDraw, |Catalog|), now)), true)
    else (alerts, false)
  }
}
