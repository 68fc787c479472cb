/** The display rules of a destination card: the time format, the colour
    bands, the distance label, and the click that dispatches the
    recommended elevator. */
module DestinationCard {
  import opened ElevatorTypes
  import opened Planner
  import opened Decimal
  import Selection

  /** The first index of `c` in `s`. */
  function IndexOf(s: string, c: char): (r: Option<nat>)
    ensures r.Some? ==> r.value < |s| && s[r.value] == c && c !in s[..r.value]
    ensures r.None? ==> c !in s
    decreases |s|
  {
    if |s| == 0 then None
    else if s[0] == c then Some(0)
    else
      match IndexOf(s[1..], c)
      case None => None
      case Some(i) =>
        assert s[..i + 1] == [s[0]] + s[1..][..i];
        Some(i + 1)
  }

  /** In `a + [c] + b` with no `c` in `a`, the first `c` is at `|a|`. */
  lemma IndexOfSeparator(a: string, c: char, b: string)
    requires c !in a
    ensures IndexOf(a + [c] + b, c) == Some(|a|)
  {
    var s := a + [c] + b;
    assert s[|a|] == c;
  }

  /** `formatTime` splits a duration: seconds alone under a minute, else
      whole minutes and the remaining seconds. */
  datatype Duration = Seconds(secs: nat) | MinutesSeconds(mins: nat, secs: nat)

  function SplitTime(seconds: nat): (d: Duration)
    ensures seconds < 60 <==> d.Seconds?
    ensures d.Seconds? ==> d.secs == seconds
    ensures d.MinutesSeconds? ==> d.mins * 60 + d.secs == seconds && d.secs < 60 && d.mins >= 1
  {
    if seconds < 60 then Seconds(seconds) else MinutesSeconds(seconds / 60, seconds % 60)
  }

  /** `formatTime(seconds)`: "42s" under a minute, "2m 5s" from a minute up. */
  function FormatTime(seconds: nat): (s: string)
    ensures seconds < 60 ==> s == NatToString(seconds) + "s"
    ensures seconds >= 60 ==>
      s == NatToString(seconds / 60) + "m " + NatToString(seconds % 60) + "s"
  {
    match SplitTime(seconds)
    case Seconds(x) => NatToString(x) + "s"
    case MinutesSeconds(m, x) => NatToString(m) + "m " + NatToString(x) + "s"
  }

  /** Reads a formatted time back: digits then "s", or digits, "m ",
      digits below 60, "s". */
  function ParseTime(t: string): Option<nat> {
    if |t| == 0 || t[|t| - 1] != 's' then None
    else
      var body := t[..|t| - 1];
      match IndexOf(body, 'm')
      case None =>
        if |body| > 0 && IsDigits(body) then Some(DigitsValue(body)) else None
      case Some(i) =>
        var mins := body[..i];
        var rest := body[i + 1..];
        if |mins| > 0 && IsDigits(mins) && |rest| > 1 && rest[0] == ' ' && IsDigits(rest[1..])
           && DigitsValue(rest[1..]) < 60
        then Some(DigitsValue(mins) * 60 + DigitsValue(rest[1..]))
        else None
  }

  /** Formatting loses nothing: every formatted time reads back as itself. */
  lemma FormatTimeRoundTrip(seconds: nat)
    ensures ParseTime(FormatTime(seconds)) == Some(seconds)
  {
    var t := FormatTime(seconds);
    var body := t[..|t| - 1];
    match SplitTime(seconds)
    case Seconds(x) =>
      assert body == NatToString(x);
      DigitsExclude(body, 'm');
      NatToStringRoundTrip(x);
    case MinutesSeconds(m, x) =>
      var a := NatToString(m);
      var b := NatToString(x);
      assert body == a + ['m'] + (" " + b);
      DigitsExclude(a, 'm');
      IndexOfSeparator(a, 'm', " " + b);
      assert body[..|a|] == a;
      assert body[|a| + 1..] == " " + b;
      assert (" " + b)[1..] == b;
      NatToStringRoundTrip(m);
      NatToStringRoundTrip(x);
  }

  /** Distinct durations are shown differently. */
  lemma FormatTimeInjective(a: nat, b: nat)
    ensures FormatTime(a) == FormatTime(b) ==> a == b
  {
    FormatTimeRoundTrip(a);
    FormatTimeRoundTrip(b);
  }

  /** Text colours a card uses. */
  datatype Tone = Muted | Green | Blue | Yellow | NeonBlue

  /** `getRecommendationColor`: muted without a recommendation, yellow for
      a full elevator, neon blue otherwise. */
  function RecommendationTone(rec: Option<Recommendation>): (t: Tone)
    ensures t == Muted <==> rec.None?
    ensures rec.Some? ==> (t == Yellow <==> rec.value.status == "Full")
    ensures rec.Some? ==> (t == NeonBlue <==> rec.value.status != "Full")
  {
    if rec.None? then Muted
    else if rec.value.status == "Full" then Yellow
    else NeonBlue
  }

  /** `getEtaColor`: muted without a recommendation, then green, blue and
      yellow bands split at 30 and 60 seconds. */
  function EtaTone(rec: Option<Recommendation>): (t: Tone)
    ensures t == Muted <==> rec.None?
    ensures rec.Some? ==> (t == Green <==> rec.value.estimatedTimeSeconds < 30)
    ensures rec.Some? ==> (t == Blue <==> 30 <= rec.value.estimatedTimeSeconds < 60)
    ensures rec.Some? ==> (t == Yellow <==> 60 <= rec.value.estimatedTimeSeconds)
  {
    if rec.None? then Muted
    else
      var eta := rec.value.estimatedTimeSeconds;
      if eta < 30 then Green
      else if eta < 60 then Blue
      else Yellow
  }

  /** Position of an ETA colour in the green, blue, yellow order. */
  function Band(t: Tone): nat {
    match t
    case Green => 0
    case Blue => 1
    case _ => 2
  }

  /** A longer wait never shows a calmer colour. */
  lemma EtaToneMonotone(a: Recommendation, b: Recommendation)
    requires a.estimatedTimeSeconds <= b.estimatedTimeSeconds
    ensures Band(EtaTone(Some(a))) <= Band(EtaTone(Some(b)))
  {
  }

  /** The distance shown on a card: "1 floor", otherwise "n floors". */
  function DistanceLabel(distance: nat): (s: string)
    ensures IndexOf(s, ' ').Some?
    ensures var i := IndexOf(s, ' ').value;
      IsDigits(s[..i]) && DigitsValue(s[..i]) == distance
    ensures s[|s| - 1] == 's' <==> distance != 1
  {
    var digits := NatToString(distance);
    var unit := if distance == 1 then "floor" else "floors";
    var s := digits + [' '] + unit;
    DigitsExclude(digits, ' ');
    IndexOfSeparator(digits, ' ', unit);
    assert s[..|digits|] == digits;
    NatToStringRoundTrip(distance);
    s
  }

  /** The ETA line: the formatted time, or a notice that nothing can come. */
  function EtaText(rec: Option<Recommendation>): (s: string)
    ensures rec.None? ==> s == "No elevators available"
    ensures rec.Some? ==> |s| >= 5 && s[..5] == "ETA: "
    ensures rec.Some? ==> ParseTime(s[5..]) == Some(rec.value.estimatedTimeSeconds)
  {
    match rec
    case None => "No elevators available"
    case Some(r) =>
      var s := "ETA: " + FormatTime(r.estimatedTimeSeconds);
      FormatTimeRoundTrip(r.estimatedTimeSeconds);
      assert s[5..] == FormatTime(r.estimatedTimeSeconds);
      s
  }

  datatype Arrow = ArrowUp | ArrowDown

  datatype CardView = CardView(
    floorName: string,
    arrow: Arrow,
    distance: nat,
    distanceLabel: string,
    recommendation: Option<Recommendation>,
    etaText: string,
    etaTone: Tone,
    recommendationTone: Tone,
    maintenanceNote: bool)

  /** The card for `floorNumber`, or nothing for the floor the user is on. */
  function Card(fleet: seq<Elevator>, currentFloor: int, floorNumber: int, floorName: string)
    : (r: Option<CardView>)
    ensures r.None? <==> floorNumber == currentFloor
    ensures r.Some? ==>
      && r.value.recommendation == Recommend(fleet, currentFloor, floorNumber)
      && (r.value.arrow == ArrowUp <==> floorNumber > currentFloor)
      && r.value.distance >= 1
      && r.value.distance == Abs(floorNumber - currentFloor)
      && r.value.distanceLabel == DistanceLabel(r.value.distance)
      && r.value.etaTone == EtaTone(r.value.recommendation)
      && r.value.recommendationTone == RecommendationTone(r.value.recommendation)
      && r.value.etaText == EtaText(r.value.recommendation)
      && (r.value.maintenanceNote <==> exists j :: 0 <= j < |fleet| && fleet[j].underMaintenance)
  {
    var recommendation := Recommend(fleet, currentFloor, floorNumber);
    if floorNumber == currentFloor then None
    else
      var distance := Abs(floorNumber - currentFloor);
      Some(CardView(
        floorName,
        if floorNumber > currentFloor then ArrowUp else ArrowDown,
        distance,
        DistanceLabel(distance),
        recommendation,
        EtaText(recommendation),
        EtaTone(recommendation),
        RecommendationTone(recommendation),
        exists j :: 0 <= j < |fleet| && fleet[j].underMaintenance))
  }

  /** `handleSelectElevator`: with a recommendation, request its elevator
      for this card's floor; without one, do nothing. */
  function HandleSelect(fleet: seq<Elevator>, rec: Option<Recommendation>, floorNumber: int)
    : (r: seq<Elevator>)
    ensures rec.None? ==> r == fleet
    ensures rec.Some? ==> r == Selection.SelectElevator(fleet, rec.value.elevatorId, floorNumber)
  {
    if rec.Some? then Selection.SelectElevator(fleet, rec.value.elevatorId, floorNumber) else fleet
  }
}
