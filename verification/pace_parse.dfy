/**
 * `parse_input`: free text to the four optional slots (pace, distance, time, speed).
 *
 * `Parse` states the parser as an ordered list of rules: per slot, the first
 * unit-bearing pattern that matches wins; then four fallback rules on the
 * numbers of the text, each of which only fills slots that are still empty.
 * `ParseInput` is the parser as the bot runs it, a ladder of guarded
 * assignments with two loops, and is proved to compute `Parse`.
 */
module PaceParse {
  import opened Wrappers
  import opened Text
  import opened Quantities
  import opened PaceScan
  import opened Rounding

  const HalfMarathonKm: real := 21.0975
  const MarathonKm: real := 42.195

  /** The first value that is present. */
  function OrElse(a: Option<real>, b: Option<real>): (r: Option<real>)
    ensures r.Some? <==> a.Some? || b.Some?
    ensures a.Some? ==> r == a
    ensures a.None? ==> r == b
  {
    if a.Some? then a else b
  }

  /** Race words: "полумарафон" or "half" is a half marathon, "марафон" without "полу" a marathon. */
  function NamedDistance(t: string): Option<real> {
    if Contains(t, "полумарафон") || Contains(t, "half") then Some(HalfMarathonKm)
    else if Contains(t, "марафон") && !Contains(t, "полу") then Some(MarathonKm)
    else None
  }

  /** The typical running pace window for a `\b`-delimited `A:BB` token. */
  predicate InPaceWindow(c: Clock) {
    2 <= c.a <= 20 && c.b < 60
  }

  /** `A:BB` read as a pace: A minutes and BB seconds, in minutes. */
  function ClockPace(c: Clock): real {
    c.a as real + c.b as real / 60.0
  }

  /** The pace of the first `\b`-delimited clock token in the pace window, in minutes per km. */
  function FirstPace(cs: seq<Clock>): (r: Option<real>)
    ensures r.Some? ==> 2.0 <= r.value < 21.0
    ensures r.None? <==> forall k :: 0 <= k < |cs| ==> !InPaceWindow(cs[k])
    ensures forall k :: 0 <= k < |cs| && InPaceWindow(cs[k]) && (forall j :: 0 <= j < k ==> !InPaceWindow(cs[j]))
              ==> r == Some(ClockPace(cs[k]))
    decreases |cs|
  {
    if cs == [] then None
    else if InPaceWindow(cs[0]) then Some(ClockPace(cs[0]))
    else
      var r := FirstPace(cs[1..]);
      assert forall k :: 1 <= k < |cs| ==> cs[k] == cs[1..][k - 1];
      r
  }

  /** `H:MM:SS` read as minutes: H·60 + MM + SS/60. */
  function HmsMinutes(c: Clock): real {
    (c.a * 60 + c.b) as real + c.c.GetOr(0) as real / 60.0
  }

  /** The first `H:MM:SS` token as minutes. */
  function HmsTime(text: string): Option<real> {
    match Search(text, HmsAt)
    case Some(c) => Some(HmsMinutes(c))
    case None => None
  }

  /**
   * The first clock token as a time: with seconds it is H·60+MM+SS/60; in the pace
   * window it is left alone; above 23, or above 12 with MM < 60, it is MM:SS; otherwise H:MM.
   */
  function ClockTime(text: string): Option<real> {
    match Search(text, ClockAt)
    case None => None
    case Some(c) =>
      if c.c.Some? then Some((c.a * 60 + c.b) as real + c.c.value as real / 60.0)
      else if InPaceWindow(c) then None
      else if c.a > 23 || (c.a > 12 && c.b < 60) then Some(c.a as real + c.b as real / 60.0)
      else Some((c.a * 60 + c.b) as real)
  }

  /** "N сек" counts only when no "N мин" appears anywhere. */
  function SecondsOnly(t: string): Option<real> {
    if Search(t, MinAt).None? then Search(t, SecAt) else None
  }

  /** The distance from race words and unit-bearing numbers, in priority order. */
  function UnitDistance(t: string): Option<real> {
    OrElse(NamedDistance(t), OrElse(Search(t, KmAt), OrElse(Search(t, KmMetresAt), Search(t, MetresAt))))
  }

  /** The time from clock tokens and unit words, in priority order. */
  function UnitTime(text: string, t: string): Option<real> {
    OrElse(HmsTime(text), OrElse(ClockTime(text), OrElse(Search(t, HourMinSecAt),
      OrElse(Search(t, MinSecAt), OrElse(Search(t, HourAt), OrElse(Search(t, MinAt), SecondsOnly(t)))))))
  }

  /** The slots as the unit-bearing patterns leave them, before the number-list fallbacks. */
  function UnitSlots(text: string): Slots {
    var t := Normalize(text);
    Slots(FirstPace(PaceClocks(text)), UnitDistance(t), UnitTime(text, t), Search(Lower(text), SpeedAt))
  }

  predicate InDistanceWindow(n: real) {
    0.5 <= n <= 50.0
  }

  /** A number of the text read as a distance next to a known pace: 10 km or more, or clearly not the pace itself. */
  predicate NearPaceDistance(n: real, pace: real) {
    InDistanceWindow(n) && (n >= 10.0 || Abs(n - pace) > 0.5)
  }

  function FirstNearPaceDistance(ns: seq<real>, pace: real): (r: Option<real>)
    ensures r.Some? ==> r.value in ns && NearPaceDistance(r.value, pace)
    ensures r.None? <==> forall k :: 0 <= k < |ns| ==> !NearPaceDistance(ns[k], pace)
    ensures forall k :: 0 <= k < |ns| && NearPaceDistance(ns[k], pace) && (forall j :: 0 <= j < k ==> !NearPaceDistance(ns[j], pace))
              ==> r == Some(ns[k])
    decreases |ns|
  {
    if ns == [] then None
    else if NearPaceDistance(ns[0], pace) then Some(ns[0])
    else
      var r := FirstNearPaceDistance(ns[1..], pace);
      assert forall k :: 1 <= k < |ns| ==> ns[k] == ns[1..][k - 1];
      r
  }

  /** Two leading numbers with neither distance nor time known: distance then time. */
  function DistanceTimeRule(s: Slots, ns: seq<real>): (r: Slots)
    ensures Extends(s, r)
    ensures s.distance.None? && s.time.None? && |ns| >= 2 && InDistanceWindow(ns[0]) && 5.0 <= ns[1] <= 400.0
      ==> r.distance == Some(ns[0]) && r.time == Some(ns[1]) && r.pace == s.pace && r.speed == s.speed
    ensures !(s.distance.None? && s.time.None? && |ns| >= 2 && InDistanceWindow(ns[0]) && 5.0 <= ns[1] <= 400.0) ==> r == s
  {
    if s.distance.None? && s.time.None? && |ns| >= 2 && InDistanceWindow(ns[0]) && 5.0 <= ns[1] <= 400.0
    then s.(distance := Some(ns[0]), time := Some(ns[1]))
    else s
  }

  /** A known pace and no distance: the first number that can be a distance. */
  function NearPaceRule(s: Slots, ns: seq<real>): (r: Slots)
    ensures Extends(s, r)
    ensures s.pace.Some? && s.distance.None?
      ==> r == s.(distance := FirstNearPaceDistance(ns, s.pace.value))
    ensures !(s.pace.Some? && s.distance.None?) ==> r == s
  {
    if s.pace.Some? && s.distance.None? && |ns| >= 1
    then s.(distance := FirstNearPaceDistance(ns, s.pace.value))
    else s
  }

  /** Neither pace nor distance known: two leading numbers as pace then distance. */
  function PaceDistanceRule(s: Slots, ns: seq<real>): (r: Slots)
    ensures Extends(s, r)
    ensures s.pace.None? && s.distance.None? && |ns| >= 2 && 3.0 <= ns[0] <= 15.0 && InDistanceWindow(ns[1])
      ==> r.pace == Some(ns[0]) && r.distance == Some(ns[1]) && r.time == s.time && r.speed == s.speed
    ensures !(s.pace.None? && s.distance.None? && |ns| >= 2 && 3.0 <= ns[0] <= 15.0 && InDistanceWindow(ns[1])) ==> r == s
  {
    if s.pace.None? && s.distance.None? && |ns| >= 2 && 3.0 <= ns[0] <= 15.0 && InDistanceWindow(ns[1])
    then s.(pace := Some(ns[0]), distance := Some(ns[1]))
    else s
  }

  /** The only number of the text, in the distance window, as the distance. */
  function SingleNumberRule(s: Slots, ns: seq<real>): (r: Slots)
    ensures Extends(s, r)
    ensures s.distance.None? && |ns| == 1 && InDistanceWindow(ns[0])
      ==> r.distance == Some(ns[0]) && r.pace == s.pace && r.time == s.time && r.speed == s.speed
    ensures !(s.distance.None? && |ns| == 1 && InDistanceWindow(ns[0])) ==> r == s
  {
    if s.distance.None? && |ns| == 1 && InDistanceWindow(ns[0]) then s.(distance := Some(ns[0])) else s
  }

  /** The four number-list fallbacks, in order, on the slots `s` the unit patterns left. */
  function Fallbacks(s: Slots, ns: seq<real>): Slots {
    SingleNumberRule(PaceDistanceRule(NearPaceRule(DistanceTimeRule(s, ns), ns), ns), ns)
  }

  /** The parser: unit-bearing patterns, then the number-list fallbacks in order. */
  function Parse(text: string): Slots {
    Fallbacks(UnitSlots(text), Numbers(text))
  }

  /** The pace stage: the first `\b`-delimited `A:BB` in the pace window. */
  method ReadPace(text: string) returns (pace: Option<real>)
    ensures pace == FirstPace(PaceClocks(text))
  {
    pace := None;
    var clocks := PaceClocks(text);
    for k := 0 to |clocks|
      invariant pace.None? ==> FirstPace(clocks[k..]) == FirstPace(clocks)
      invariant pace.Some? ==> pace == FirstPace(clocks)
    {
      var c := clocks[k];
      if 2 <= c.a <= 20 && c.b < 60 && pace.None? {
        pace := Some(ClockPace(c));
        break;
      }
      assert clocks[k..][1..] == clocks[k + 1..];
    }
  }

  /** The distance stage: race words, then km, then "X км Y м", then metres. */
  method ReadDistance(t: string) returns (distance: Option<real>)
    ensures distance == UnitDistance(t)
  {
    distance := None;
    if Contains(t, "полумарафон") || Contains(t, "half") {
      distance := Some(HalfMarathonKm);
    } else if Contains(t, "марафон") && !Contains(t, "полу") {
      distance := Some(MarathonKm);
    }
    var km := Search(t, KmAt);
    if km.Some? && distance.None? {
      distance := km;
    }
    var combo := Search(t, KmMetresAt);
    if combo.Some? && distance.None? {
      distance := combo;
    }
    var metres := Search(t, MetresAt);
    if metres.Some? && distance.None? {
      distance := metres;
    }
  }

  /** The clock part of the time stage: `H:MM:SS`, then `MM:SS` or `H:MM` unless in the pace window. */
  method ReadClockTime(text: string) returns (time: Option<real>)
    ensures time == OrElse(HmsTime(text), ClockTime(text))
  {
    time := None;
    var hms := Search(text, HmsAt);
    if hms.Some? && time.None? {
      var c := hms.value;
      time := Some(HmsMinutes(c));
    }
    var clock := Search(text, ClockAt);
    if clock.Some? && time.None? {
      var c := clock.value;
      if c.c.Some? {
        time := Some((c.a * 60 + c.b) as real + c.c.value as real / 60.0);
      } else if 2 <= c.a <= 20 && c.b < 60 {
      } else if c.a > 23 || (c.a > 12 && c.b < 60) {
        time := Some(c.a as real + c.b as real / 60.0);
      } else {
        time := Some((c.a * 60 + c.b) as real);
      }
    }
  }

  /** The time stage: clock tokens, then the unit words ч, мин and сек. */
  method ReadTime(text: string, t: string) returns (time: Option<real>)
    ensures time == UnitTime(text, t)
  {
    time := ReadClockTime(text);
    var hourMinSec := Search(t, HourMinSecAt);
    if hourMinSec.Some? && time.None? {
      time := hourMinSec;
    }
    var minSec := Search(t, MinSecAt);
    if minSec.Some? && time.None? {
      time := minSec;
    }
    var hour := Search(t, HourAt);
    if hour.Some? && time.None? {
      time := hour;
    }
    var minutes := Search(t, MinAt);
    if minutes.Some? && time.None? {
      time := minutes;
    }
    var seconds := Search(t, SecAt);
    if seconds.Some? && time.None? && Search(t, MinAt).None? {
      time := seconds;
    }
  }

  /** The first number of the text that can be a distance next to `pace`. */
  method ReadNearPaceDistance(numbers: seq<real>, pace: real) returns (distance: Option<real>)
    ensures distance == FirstNearPaceDistance(numbers, pace)
  {
    distance := None;
    for k := 0 to |numbers|
      invariant distance.None? ==> FirstNearPaceDistance(numbers[k..], pace) == FirstNearPaceDistance(numbers, pace)
      invariant distance.Some? ==> distance == FirstNearPaceDistance(numbers, pace)
    {
      var n := numbers[k];
      if 0.5 <= n <= 50.0 && (n >= 10.0 || Abs(n - pace) > 0.5) {
        distance := Some(n);
        break;
      }
      assert numbers[k..][1..] == numbers[k + 1..];
    }
  }

  /** `parse_input(text)`. */
  method ParseInput(text: string) returns (r: Slots)
    ensures r == Parse(text)
  {
    var t := Normalize(text);
    var distance := ReadDistance(t);
    var speed := Search(Lower(text), SpeedAt);
    var pace := ReadPace(text);
    var time := ReadTime(text, t);

    // every number of the text, those inside unit and clock tokens included
    var numbers := Numbers(text);
    if distance.None? && time.None? && |numbers| >= 2 {
      var a, b := numbers[0], numbers[1];
      if 0.5 <= a <= 50.0 && 5.0 <= b <= 400.0 {
        distance := Some(a);
        time := Some(b);
      }
    }
    if pace.Some? && distance.None? && |numbers| >= 1 {
      distance := ReadNearPaceDistance(numbers, pace.value);
    }
    if pace.None? && distance.None? && |numbers| >= 2 {
      var a, b := numbers[0], numbers[1];
      if 3.0 <= a <= 15.0 && 0.5 <= b <= 50.0 {
        pace := Some(a);
        distance := Some(b);
      }
    }
    if distance.None? && |numbers| == 1 && 0.5 <= numbers[0] <= 50.0 {
      distance := Some(numbers[0]);
    }
    r := Slots(pace, distance, time, speed);
  }

  // ---- properties of the parser ---------------------------------------------------

  /** Every fallback is guarded by its slot being empty: together they never overwrite, and never touch the speed. */
  lemma FallbacksKeep(s: Slots, ns: seq<real>)
    ensures Extends(s, Fallbacks(s, ns)) && Fallbacks(s, ns).speed == s.speed
  {
    var s1 := DistanceTimeRule(s, ns);
    var s2 := NearPaceRule(s1, ns);
    var s3 := PaceDistanceRule(s2, ns);
    ExtendsTransitive(s, s1, s2);
    ExtendsTransitive(s, s2, s3);
    ExtendsTransitive(s, s3, SingleNumberRule(s3, ns));
  }

  /** Hence the number-list fallbacks never overwrite a value found by a unit pattern. */
  lemma ParseKeepsUnitValues(text: string)
    ensures Extends(UnitSlots(text), Parse(text))
    ensures Parse(text).speed == UnitSlots(text).speed
  {
    FallbacksKeep(UnitSlots(text), Numbers(text));
  }

  /**
   * The pace pattern also stops at the ':' of a finish time: a text that opens with
   * `H:MM:SS`, H between 2 and 20, gets `H:MM` as its pace as well as the whole token
   * as its time ("3:30:00 марафон": pace 3:30, time 210 minutes).
   */
  lemma HmsAlsoReadAsPace(text: string, h: Clock)
    requires HmsAt(text, 0) == Some(h) && 2 <= h.a <= 20 && h.b < 60
    ensures Parse(text).pace == Some(ClockPace(h))
    ensures Parse(text).time == Some(HmsMinutes(h))
  {
    LeadingHmsPace(text, h);
    LeadingHmsTime(text, h);
    ParseKeepsUnitValues(text);
  }

  /** The `H:MM` of an `H:MM:SS` token at the start of the text, in the window, is the pace. */
  lemma LeadingHmsPace(text: string, h: Clock)
    requires HmsAt(text, 0) == Some(h) && 2 <= h.a <= 20 && h.b < 60
    ensures UnitSlots(text).pace == Some(ClockPace(h))
  {
    DigitStartsWord(text);
    HmsStartsPaceClock(text, 0);
    var c := PaceClockAt(text, 0).value;
    LeadingPaceClock(text, c);
    SameClockPace(c, h);
  }

  /** The pace of a clock depends only on its first two groups. */
  lemma SameClockPace(c: Clock, d: Clock)
    requires c.a == d.a && c.b == d.b
    ensures ClockPace(c) == ClockPace(d)
  {
  }

  /** The pace and the time slot as the unit patterns set them; an `H:MM:SS` token decides the time. */
  lemma UnitSlotsParts(text: string)
    ensures UnitSlots(text).pace == FirstPace(PaceClocks(text))
    ensures HmsTime(text).Some? ==> UnitSlots(text).time == HmsTime(text)
  {
  }

  /** A pace token at the start of the text, in the window, is the pace. */
  lemma LeadingPaceClock(text: string, c: Clock)
    requires PaceClockAt(text, 0) == Some(c) && InPaceWindow(c)
    ensures UnitSlots(text).pace == Some(ClockPace(c))
  {
    var cs := PaceClocks(text);
    assert cs == [c] + PaceClocksFrom(text, c.end);
    assert InPaceWindow(cs[0]);
    UnitSlotsParts(text);
  }

  /** An `H:MM:SS` token at the start of the text is the time. */
  lemma LeadingHmsTime(text: string, h: Clock)
    requires HmsAt(text, 0) == Some(h)
    ensures UnitSlots(text).time == Some(HmsMinutes(h))
  {
    assert Search(text, HmsAt) == Some(h);
    UnitSlotsParts(text);
  }

  /** The number list of a text that opens with a pace token `A:BB` starts with A and BB. */
  lemma LeadingPaceNumbers(text: string, c: Clock)
    requires PaceClockAt(text, 0) == Some(c) && !HasAt(text, c.end, ".")
    ensures |Numbers(text)| >= 2 && Numbers(text)[0] == c.a as real && Numbers(text)[1] == c.b as real
    ensures c.b < 100
  {
    PaceClockNumbers(text, 0);
    var ns := Numbers(text);
    assert ns == [c.a as real, c.b as real] + NumbersFrom(text, c.end);
    NatValueTwoDigits(text[DigitEnd(text, 0) + 1..c.end]);
  }

  /**
   * The number list does not skip the pace token: when the text opens with a pace
   * `A:BB` and no unit pattern gives a distance or a time, A and BB become the
   * distance and the time whenever they fall in those windows ("5:30 10": pace
   * 5:30, 5 km, 30 minutes).
   */
  lemma PaceDigitsReadAsDistanceAndTime(text: string, c: Clock)
    requires PaceClockAt(text, 0) == Some(c) && !HasAt(text, c.end, ".")
    requires UnitSlots(text).distance.None? && UnitSlots(text).time.None?
    requires InDistanceWindow(c.a as real) && 5 <= c.b
    ensures Parse(text).distance == Some(c.a as real) && Parse(text).time == Some(c.b as real)
    ensures InPaceWindow(c) ==> Parse(text).pace == Some(ClockPace(c))
  {
    LeadingPaceNumbers(text, c);
    FallbacksDistanceTime(UnitSlots(text), Numbers(text));
    if InPaceWindow(c) {
      LeadingPaceClock(text, c);
    }
  }

  /** When the first rule fires, the later ones leave its distance and time, and the pace, as they are. */
  lemma FallbacksDistanceTime(s: Slots, ns: seq<real>)
    requires s.distance.None? && s.time.None? && |ns| >= 2 && InDistanceWindow(ns[0]) && 5.0 <= ns[1] <= 400.0
    ensures Fallbacks(s, ns).distance == Some(ns[0]) && Fallbacks(s, ns).time == Some(ns[1])
    ensures Fallbacks(s, ns).pace == s.pace
  {
    var s1 := DistanceTimeRule(s, ns);
    var s2 := NearPaceRule(s1, ns);
    var s3 := PaceDistanceRule(s2, ns);
    ExtendsTransitive(s1, s2, s3);
    ExtendsTransitive(s1, s3, SingleNumberRule(s3, ns));
  }

  /** A race word decides the distance, whatever numbers the text holds. */
  lemma NamedDistanceWins(text: string)
    requires NamedDistance(Normalize(text)).Some?
    ensures Parse(text).distance == NamedDistance(Normalize(text))
  {
    ParseKeepsUnitValues(text);
  }

  /** Without digits only a race word can be read: every other slot stays empty. */
  lemma ParseWithoutDigits(text: string)
    requires forall k :: 0 <= k < |text| ==> !IsDigit(text[k])
    ensures Parse(text) == Slots(None, NamedDistance(Normalize(text)), None, None)
  {
    var t := Normalize(text);
    NormalizeNoDigits(text);
    SearchWithoutDigits(Lower(text), SpeedAt, 0);
    SearchWithoutDigits(t, KmAt, 0);
    SearchWithoutDigits(t, KmMetresAt, 0);
    SearchWithoutDigits(t, MetresAt, 0);
    SearchWithoutDigits(text, HmsAt, 0);
    SearchWithoutDigits(text, ClockAt, 0);
    SearchWithoutDigits(t, HourMinSecAt, 0);
    SearchWithoutDigits(t, MinSecAt, 0);
    SearchWithoutDigits(t, HourAt, 0);
    SearchWithoutDigits(t, MinAt, 0);
    SearchWithoutDigits(t, SecAt, 0);
    PaceClocksWithoutDigits(text, 0);
    NumbersWithoutDigits(text, 0);
  }

  /** A speed "N км/ч" is also a distance "N км": the km pattern has no guard against a following "/ч". */
  lemma SpeedAlsoReadAsKm(s: string, i: nat)
    requires SpeedAt(s, i).Some?
    ensures KmAt(s, i) == SpeedAt(s, i)
  {
    var n := NumberAt(s, i);
    var p := SpaceEnd(s, n.end);
    assert HasAt(s, p, "км");
    assert s[p + 1] == 'м';
    var q := SpaceEnd(s, p + 2);
    assert HasAt(s, q, "/");
    if q == p + 2 {
      assert s[p + 2] == '/';
    } else {
      SpaceIsNotWord(s[p + 2]);
    }
    assert Boundary(s, p + 2);
  }

  /** In a message as the bot receives it (already stripped), a speed always brings a distance along. */
  lemma SpeedImpliesDistance(text: string)
    requires Strip(text) == text
    ensures Parse(text).speed.Some? ==> Parse(text).distance.Some?
  {
    ParseKeepsUnitValues(text);
    if Parse(text).speed.Some? {
      var l := Lower(text);
      NormalizeStripped(text);
      var i := SearchFromFound(l, SpeedAt, 0);
      SpeedAlsoReadAsKm(l, i);
      SearchFromFinds(l, KmAt, 0, i);
      assert UnitDistance(l).Some?;
    }
  }

  /** After the kilometre figure of "X км Y м" comes whitespace. */
  predicate SpaceAfterUnit(s: string, i: nat) {
    i <= |s| && var p := SpaceEnd(s, DigitEnd(s, i)); p + 2 < |s| && IsSpace(s[p + 2])
  }

  /** "X км Y м" written with a space after "км" is read by the plain km pattern, as X km. */
  lemma SpacedKmMetresReadAsKm(s: string, i: nat)
    requires KmMetresAt(s, i).Some? && SpaceAfterUnit(s, i)
    ensures KmAt(s, i) == Some(NatValue(s[i..DigitEnd(s, i)]) as real)
  {
    var p := SpaceEnd(s, DigitEnd(s, i));
    KmBeforeSpace(s, i, if HasAt(s, p, "км") then "км" else "km");
  }

  /** Whole kilometres followed by "км" or "km" and then whitespace are read by the km pattern. */
  lemma KmBeforeSpace(s: string, i: nat, unit: string)
    requires DigitAt(s, i) && (unit == "км" || unit == "km")
    requires var p := SpaceEnd(s, DigitEnd(s, i)); HasAt(s, p, unit) && p + 2 < |s| && IsSpace(s[p + 2])
    ensures KmAt(s, i) == Some(NatValue(s[i..DigitEnd(s, i)]) as real)
  {
    var j := DigitEnd(s, i);
    var p := SpaceEnd(s, j);
    HasAtChars(s, p, unit);
    assert s[p] == unit[0] && s[p + 1] == unit[1];
    assert s[j] != '.' by {
      if j < p {
        assert IsSpace(s[j]);
      }
    }
    assert NumberAt(s, i) == Num(NatValue(s[i..j]) as real, j);
    assert IsWordChar(unit[1]);
    SpaceIsNotWord(s[p + 2]);
    assert Boundary(s, p + 2);
  }

  /** Hence such a "X км Y м" never reaches the kilometres-and-metres rule. */
  lemma SpacedKmMetresNeverCombined(t: string, i: nat)
    requires KmMetresAt(t, i).Some? && SpaceAfterUnit(t, i)
    ensures UnitDistance(t) == OrElse(NamedDistance(t), Search(t, KmAt))
  {
    SpacedKmMetresReadAsKm(t, i);
    SearchFromFinds(t, KmAt, 0, i);
  }

  /** A clock token with seconds is always read by the `H:MM:SS` rule first, so its seconds branch in `ClockTime` is never the one that sets the time. */
  lemma ClockSecondsReadByHms(text: string)
    requires Search(text, ClockAt).Some? && Search(text, ClockAt).value.c.Some?
    ensures HmsTime(text).Some?
  {
    var k := SearchFromFound(text, ClockAt, 0);
    assert HmsAt(text, k).Some?;
    SearchFromFinds(text, HmsAt, 0, k);
  }
}
