/** One fetched activity and its formatting as a race entry (`formatRun` in
    backend/index.js): the race band its distance falls into, its moving time
    as HH:MM:SS and its pace as M:SS min/km. */
module Runs {
  import opened Seqs
  import opened Text
  import opened RealMath

  /** A distance in metres; the provider never reports a negative one. */
  type Metres = r: real | r >= 0.0

  /** An activity as the provider returns it. `startDay` is the calendar day of
      its local start time, counted in days from 1970-01-01. */
  datatype RawActivity = RawActivity(
    id: int,
    name: string,
    activityType: string,
    distance: Metres,
    movingTime: nat,
    startDay: int)

  datatype RaceType = FiveK | TenK | HalfMarathon | FullMarathon | Other

  /** The value of the `raceType` field for each band. */
  function RaceLabel(t: RaceType): string {
    match t
    case FiveK => "5K"
    case TenK => "10K"
    case HalfMarathon => "HM"
    case FullMarathon => "FM"
    case Other => "OTHER"
  }

  /** A formatted run. `startDay` stands for the locale-formatted date. */
  datatype ClassifiedRun = ClassifiedRun(
    id: int,
    name: string,
    startDay: int,
    distanceKm: real,
    timeSeconds: nat,
    time: string,
    pace: string,
    raceType: RaceType)

  // ---------------------------------------------------------------------------
  // Race bands

  /** The first band (5K, 10K, HM, FM) whose closed kilometre range holds the
      distance, else OTHER. The bands are disjoint, so each band is hit exactly
      when the distance lies in its range. */
  function Classify(distance: Metres): (t: RaceType)
    ensures t == FiveK <==> 4500.0 <= distance <= 5500.0
    ensures t == TenK <==> 9700.0 <= distance <= 10500.0
    ensures t == HalfMarathon <==> 20000.0 <= distance <= 22000.0
    ensures t == FullMarathon <==> 41000.0 <= distance <= 43000.0
  {
    var km := distance / 1000.0;
    if km >= 4.5 && km <= 5.5 then FiveK
    else if km >= 9.7 && km <= 10.5 then TenK
    else if km >= 20.0 && km <= 22.0 then HalfMarathon
    else if km >= 41.0 && km <= 43.0 then FullMarathon
    else Other
  }

  /** The band boundaries are inclusive and everything between bands is OTHER. */
  lemma ClassifyExamples()
    ensures Classify(4500.0) == FiveK && Classify(5000.0) == FiveK && Classify(5500.0) == FiveK
    ensures Classify(5600.0) == Other && Classify(9600.0) == Other
    ensures Classify(9700.0) == TenK && Classify(43010.0) == Other
    ensures Classify(21200.0) == HalfMarathon && Classify(42300.0) == FullMarathon
    ensures Classify(5020.0) == FiveK && Classify(3000.0) == Other
  {
  }

  // ---------------------------------------------------------------------------
  // Moving time as HH:MM:SS

  datatype Clock = Clock(hours: nat, minutes: nat, seconds: nat)

  function ClockSeconds(c: Clock): nat {
    c.hours * 3600 + c.minutes * 60 + c.seconds
  }

  /** Whole hours (never wrapped at 24), minutes and seconds, each padded to two digits. */
  function FormatDuration(t: nat): string {
    var hours := t / 3600;
    var minutes := (t % 3600) / 60;
    var seconds := t % 60;
    Pad2(hours) + ":" + Pad2(minutes) + ":" + Pad2(seconds)
  }

  /** Reads an `H...H:MM:SS` string back: at least two hour digits, then two
      minute digits and two second digits. */
  function ParseDuration(s: string): Option<Clock> {
    var n := |s|;
    if n >= 8 && s[n - 6] == ':' && s[n - 3] == ':'
       && AllDigits(s[..n - 6]) && AllDigits(s[n - 5..n - 3]) && AllDigits(s[n - 2..])
    then Some(Clock(DigitsValue(s[..n - 6]), DigitsValue(s[n - 5..n - 3]), DigitsValue(s[n - 2..])))
    else None
  }

  /** The rendered duration reads back as hours, minutes below 60 and seconds
      below 60 that add up to the moving time, with the hours not wrapped. */
  lemma FormatDurationRoundTrip(t: nat)
    ensures ParseDuration(FormatDuration(t)).Some?
    ensures var c := ParseDuration(FormatDuration(t)).value;
      ClockSeconds(c) == t && c.hours == t / 3600 && c.minutes < 60 && c.seconds < 60
  {
    var h, m, sec := Pad2(t / 3600), Pad2((t % 3600) / 60), Pad2(t % 60);
    var s := FormatDuration(t);
    var n := |s|;
    assert s == h + ":" + m + ":" + sec;
    assert |m| == 2 && |sec| == 2;
    assert s[..n - 6] == h;
    assert s[n - 5..n - 3] == m;
    assert s[n - 2..] == sec;
  }

  /** Different moving times render differently. */
  lemma FormatDurationInjective(t1: nat, t2: nat)
    requires FormatDuration(t1) == FormatDuration(t2)
    ensures t1 == t2
  {
    FormatDurationRoundTrip(t1);
    FormatDurationRoundTrip(t2);
  }

  lemma FormatDurationExamples()
    ensures FormatDuration(3661) == "01:01:01"
    ensures FormatDuration(59) == "00:00:59"
  {
    assert Pad2(1) == "01";
    assert Pad2(0) == "00";
    assert Pad2(59) == "59";
  }

  // ---------------------------------------------------------------------------
  // Pace as M:SS min/km

  datatype PaceParts = PaceParts(minutes: int, seconds: int)

  /** Seconds per kilometre; the distance is converted to kilometres first. */
  function SecondsPerKm(t: nat, distance: Metres): (p: real)
    requires distance > 0.0
    ensures p >= 0.0
  {
    t as real / (distance / 1000.0)
  }

  /** The pace exactly as the source computes it: the minutes are floored and the
      remaining seconds rounded on their own, so the seconds can reach 60. */
  function PaceAsWritten(t: nat, distance: Metres): PaceParts
    requires distance > 0.0
  {
    var p := SecondsPerKm(t, distance);
    PaceParts(Floor(p / 60.0), Round(Remainder(p, 60.0)))
  }

  /** The as-written pace still adds up to the rounded pace, but its seconds lie
      in 0..60 rather than 0..59. */
  lemma PaceAsWrittenBounds(t: nat, distance: Metres)
    requires distance > 0.0
    ensures var pp := PaceAsWritten(t, distance);
      pp.minutes >= 0 && 0 <= pp.seconds <= 60
      && pp.minutes * 60 + pp.seconds == Round(SecondsPerKm(t, distance))
  {
    var p := SecondsPerKm(t, distance);
    var q := Floor(p / 60.0);
    DivBounds(p, 60.0, q as real);
    DivBounds(p, 60.0, q as real + 1.0);
    var rem := Remainder(p, 60.0);
    RoundUnique(p, Round(rem) + 60 * q);
  }

  /** 1799 s over 5000 m is 359.8 s/km: the source shows five minutes and sixty seconds. */
  lemma PaceSixtyReachable()
    ensures PaceAsWritten(1799, 5000.0) == PaceParts(5, 60)
  {
    var p := SecondsPerKm(1799, 5000.0);
    assert p == 359.8;
    assert Floor(p / 60.0) == 5;
    assert Remainder(p, 60.0) == 59.8;
    assert Round(59.8) == 60;
  }

  /** The pace rounded to the nearest second first and then split, so the
      seconds stay below 60. */
  function Pace(t: nat, distance: Metres): (pp: PaceParts)
    requires distance > 0.0
    ensures pp.minutes >= 0 && 0 <= pp.seconds < 60
    ensures pp.minutes * 60 + pp.seconds == Round(SecondsPerKm(t, distance))
  {
    var total := Round(SecondsPerKm(t, distance));
    PaceParts(total / 60, total % 60)
  }

  /** The corrected pace differs from the source's only when the source shows 60
      seconds, and then by carrying them into the minutes. */
  lemma PaceCorrectsOnlySixty(t: nat, distance: Metres)
    requires distance > 0.0
    ensures var w := PaceAsWritten(t, distance);
      if w.seconds < 60 then Pace(t, distance) == w
      else Pace(t, distance) == PaceParts(w.minutes + 1, 0)
  {
    PaceAsWrittenBounds(t, distance);
  }

  /** The shown pace is within half a second per kilometre of the exact pace. */
  lemma PaceAccuracy(t: nat, distance: Metres)
    requires distance > 0.0
    ensures var pp := Pace(t, distance); var shown := (pp.minutes * 60 + pp.seconds) as real;
      SecondsPerKm(t, distance) - 0.5 < shown <= SecondsPerKm(t, distance) + 0.5
  {
  }

  /** `${minutes}:${seconds padded to two digits} min/km`. */
  function FormatPaceParts(pp: PaceParts): string
    requires pp.minutes >= 0 && pp.seconds >= 0
  {
    NatToString(pp.minutes) + ":" + Pad2(pp.seconds) + " min/km"
  }

  /** Reads an `M:SS min/km` string back into its two fields. */
  function ParsePace(s: string): Option<PaceParts> {
    var n := |s|;
    if n >= 11 && s[n - 7..] == " min/km" && s[n - 10] == ':'
       && AllDigits(s[..n - 10]) && AllDigits(s[n - 9..n - 7])
    then Some(PaceParts(DigitsValue(s[..n - 10]), DigitsValue(s[n - 9..n - 7])))
    else None
  }

  lemma {:induction false} FormatPacePartsRoundTrip(pp: PaceParts)
    requires pp.minutes >= 0 && 0 <= pp.seconds < 100
    ensures ParsePace(FormatPaceParts(pp)) == Some(pp)
  {
    var m, sec := NatToString(pp.minutes), Pad2(pp.seconds);
    NatToStringValue(pp.minutes);
    var s := FormatPaceParts(pp);
    var n := |s|;
    assert s == m + ":" + sec + " min/km";
    assert s[n - 7..] == " min/km";
    assert s[..n - 10] == m;
    assert s[n - 9..n - 7] == sec;
  }

  /** JavaScript's rendering of the pace of a zero distance: t / 0 is Infinity
      (NaN when t is 0 as well), and Infinity % 60 is NaN. */
  function UndefinedPace(t: nat): string {
    if t == 0 then "NaN:NaN min/km" else "Infinity:NaN min/km"
  }

  /** The pace string of the source, 60-second field included. */
  function FormatPaceAsWritten(t: nat, distance: Metres): string {
    if distance == 0.0 then UndefinedPace(t)
    else
      PaceAsWrittenBounds(t, distance);
      FormatPaceParts(PaceAsWritten(t, distance))
  }

  /** The pace string with the 60-second field carried into the minutes. */
  function FormatPace(t: nat, distance: Metres): string {
    if distance == 0.0 then UndefinedPace(t) else FormatPaceParts(Pace(t, distance))
  }

  /** The source shows a 5000 m run of 1799 s as "5:60 min/km"; corrected it reads "6:00 min/km". */
  lemma PaceSixtyShown()
    ensures FormatPaceAsWritten(1799, 5000.0) == "5:60 min/km"
    ensures FormatPace(1799, 5000.0) == "6:00 min/km"
  {
    PaceSixtyReachable();
    PaceCorrectsOnlySixty(1799, 5000.0);
    assert Pace(1799, 5000.0) == PaceParts(6, 0);
    assert NatToString(5) == "5" && Pad2(60) == "60";
    assert FormatPaceParts(PaceParts(5, 60)) == "5:60 min/km";
    assert NatToString(6) == "6" && Pad2(0) == "00";
    assert FormatPaceParts(PaceParts(6, 0)) == "6:00 min/km";
  }

  /** The shown pace reads back as minutes and seconds below 60 that add up to the
      pace rounded to the nearest second; a zero distance reads as no pace. */
  lemma FormatPaceRoundTrip(t: nat, distance: Metres)
    ensures distance > 0.0 ==>
      var r := ParsePace(FormatPace(t, distance));
      r.Some? && r.value.seconds < 60
      && r.value.minutes * 60 + r.value.seconds == Round(SecondsPerKm(t, distance))
    ensures distance == 0.0 ==> ParsePace(FormatPace(t, distance)).None?
  {
    if distance > 0.0 {
      FormatPacePartsRoundTrip(Pace(t, distance));
    } else {
      var s := FormatPace(t, distance);
      assert s[|s| - 10] == 'N';
    }
  }

  lemma PaceExample()
    ensures FormatPace(1500, 5000.0) == "5:00 min/km"
  {
    assert SecondsPerKm(1500, 5000.0) == 300.0;
    assert Round(300.0) == 300;
    assert NatToString(5) == "5" && Pad2(0) == "00";
  }

  // ---------------------------------------------------------------------------
  // formatRun

  function FormatRun(a: RawActivity): ClassifiedRun {
    ClassifiedRun(
      a.id, a.name, a.startDay, a.distance / 1000.0, a.movingTime,
      FormatDuration(a.movingTime), FormatPace(a.movingTime, a.distance),
      Classify(a.distance))
  }

  /** What each field of a formatted run says about the activity it came from. */
  lemma FormatRunFields(a: RawActivity)
    ensures var r := FormatRun(a);
      && r.id == a.id && r.name == a.name && r.timeSeconds == a.movingTime
      && r.distanceKm * 1000.0 == a.distance
      && ParseDuration(r.time).Some? && ClockSeconds(ParseDuration(r.time).value) == a.movingTime
      && (a.distance > 0.0 ==>
            ParsePace(r.pace).Some?
            && ParsePace(r.pace).value.minutes * 60 + ParsePace(r.pace).value.seconds
               == Round(SecondsPerKm(a.movingTime, a.distance)))
      && r.startDay == a.startDay
      && r.raceType == Classify(a.distance)
      && (r.raceType == FiveK <==> 4500.0 <= a.distance <= 5500.0)
      && (r.raceType == TenK <==> 9700.0 <= a.distance <= 10500.0)
      && (r.raceType == HalfMarathon <==> 20000.0 <= a.distance <= 22000.0)
      && (r.raceType == FullMarathon <==> 41000.0 <= a.distance <= 43000.0)
  {
    FormatDurationRoundTrip(a.movingTime);
    FormatPaceRoundTrip(a.movingTime, a.distance);
  }
}
