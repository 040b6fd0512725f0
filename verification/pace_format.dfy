/**
 * The calculator's output: `format_pace` (M:SS per km), `format_time`
 * (hours, minutes and seconds), `format_distance` (metres or kilometres) and
 * `format_result` (the reply, one line per known quantity).
 */
module PaceFormat {
  import opened Wrappers
  import opened Text
  import opened Rounding
  import opened Quantities

  // ---- pace ---------------------------------------------------------------------

  /** A pace as whole minutes and seconds. */
  datatype Reading = Reading(minutes: int, seconds: int)

  /** `m = int(pace)`, `s = round((pace - m) * 60)`, with a carry when `s` reaches 60. */
  function PaceReading(x: real): (r: Reading)
    ensures x >= 0.0 ==> r.minutes >= 0 && 0 <= r.seconds < 60
    ensures x >= 0.0 ==> r.minutes * 60 + r.seconds == RoundHalfEven(x * 60.0)
  {
    var m := Trunc(x);
    var y := (x - m as real) * 60.0;
    var s := RoundHalfEven(y);
    RoundShiftEven(m * 30, y);
    assert (2 * (m * 30)) as real + y == x * 60.0;
    if s >= 60 then Reading(m + 1, 0) else Reading(m, s)
  }

  /** `format_pace(pace)`: "M:SS". */
  function FormatPace(x: real): string {
    var r := PaceReading(x);
    IntStr(r.minutes) + ":" + Pad2(r.seconds)
  }

  /** Reads "M:SS" back as a number of seconds; `None` when the text is not of that form. */
  function ReadMinSec(f: string): Option<int> {
    if |f| >= 4 && f[|f| - 3] == ':' && (forall k :: 0 <= k < |f| && k != |f| - 3 ==> IsDigit(f[k]))
    then Some(NatValue(f[..|f| - 3]) * 60 + NatValue(f[|f| - 2..]))
    else None
  }

  /** The pace shown, read back, is the pace rounded to the nearest second. */
  lemma FormatPaceReadsBack(x: real)
    requires x >= 0.0
    ensures ReadMinSec(FormatPace(x)) == Some(RoundHalfEven(x * 60.0))
  {
    var r := PaceReading(x);
    var mm, ss := NatStr(r.minutes), Pad2(r.seconds);
    var f := mm + ":" + ss;
    assert f == FormatPace(x);
    assert f[..|f| - 3] == mm;
    assert f[|f| - 2..] == ss;
    assert forall k :: 0 <= k < |f| && k != |f| - 3 ==> IsDigit(f[k]) by {
      forall k | 0 <= k < |f| && k != |f| - 3 ensures IsDigit(f[k]) {
        if k < |mm| {
          assert f[k] == mm[k];
        } else {
          assert f[k] == ss[k - |mm| - 1];
        }
      }
    }
  }

  // ---- time ---------------------------------------------------------------------

  datatype TimeUnit = Hours | Minutes | Seconds

  /** One part of a time, such as "5 мин". */
  datatype TimePart = TimePart(value: int, unit: TimeUnit)

  function UnitSeconds(u: TimeUnit): nat {
    match u
    case Hours => 3600
    case Minutes => 60
    case Seconds => 1
  }

  function PartsSeconds(ps: seq<TimePart>): int
    decreases |ps|
  {
    if ps == [] then 0 else ps[0].value * UnitSeconds(ps[0].unit) + PartsSeconds(ps[1..])
  }

  /** `h = total // 3600`, `m = total % 3600 // 60`, `s = total % 60`. */
  datatype Hms = Hms(h: int, m: int, s: int)

  function Breakdown(total: int): (b: Hms)
    ensures b.h * 3600 + b.m * 60 + b.s == total
    ensures 0 <= b.m < 60 && 0 <= b.s < 60
    ensures total >= 0 ==> b.h >= 0
  {
    Hms(total / 3600, total % 3600 / 60, total % 60)
  }

  /** The parts `format_time` shows: hours when positive, minutes when positive or nothing else would be shown beside them, seconds likewise. */
  function TimeParts(total: int): seq<TimePart> {
    var b := Breakdown(total);
    (if b.h > 0 then [TimePart(b.h, Hours)] else [])
    + (if b.m > 0 || (b.h == 0 && b.s == 0) then [TimePart(b.m, Minutes)] else [])
    + (if b.s > 0 || (b.h == 0 && b.m == 0) then [TimePart(b.s, Seconds)] else [])
  }

  function UnitWord(u: TimeUnit): string {
    match u
    case Hours => " ч"
    case Minutes => " мин"
    case Seconds => " сек"
  }

  function RenderParts(ps: seq<TimePart>): (r: seq<string>)
    ensures |r| == |ps|
  {
    seq(|ps|, k requires 0 <= k < |ps| => IntStr(ps[k].value) + UnitWord(ps[k].unit))
  }

  /** `format_time(minutes)`. */
  function FormatTime(minutes: real): string {
    Join(RenderParts(TimeParts(RoundHalfEven(minutes * 60.0))), " ")
  }

  lemma {:induction false} PartsSecondsAppend(a: seq<TimePart>, b: seq<TimePart>)
    ensures PartsSeconds(a + b) == PartsSeconds(a) + PartsSeconds(b)
    decreases |a|
  {
    if a != [] {
      assert (a + b)[0] == a[0];
      assert (a + b)[1..] == a[1..] + b;
      PartsSecondsAppend(a[1..], b);
    } else {
      assert a + b == b;
    }
  }

  /**
   * For a non-negative number of seconds the parts shown are never empty, add up to
   * the total, come in the order hours, minutes, seconds with no unit twice, show
   * minutes and seconds below 60, and include a zero only when the total is zero
   * ("0 мин 0 сек").
   */
  lemma TimePartsFaithful(total: int)
    requires total >= 0
    ensures var ps := TimeParts(total);
      && ps != []
      && PartsSeconds(ps) == total
      && (forall i, j :: 0 <= i < j < |ps| ==> UnitSeconds(ps[i].unit) > UnitSeconds(ps[j].unit))
      && (forall i :: 0 <= i < |ps| ==> 0 <= ps[i].value && (ps[i].value == 0 ==> total == 0))
      && (forall i :: 0 <= i < |ps| && ps[i].unit != Hours ==> ps[i].value < 60)
  {
    var b := Breakdown(total);
    var hs: seq<TimePart> := if b.h > 0 then [TimePart(b.h, Hours)] else [];
    var ms: seq<TimePart> := if b.m > 0 || (b.h == 0 && b.s == 0) then [TimePart(b.m, Minutes)] else [];
    var ss: seq<TimePart> := if b.s > 0 || (b.h == 0 && b.m == 0) then [TimePart(b.s, Seconds)] else [];
    PartsSecondsAppend(hs, ms);
    PartsSecondsAppend(hs + ms, ss);
    assert PartsSeconds(hs) == (if b.h > 0 then b.h * 3600 else 0);
    assert PartsSeconds(ms) == (if ms != [] then b.m * 60 else 0);
    assert PartsSeconds(ss) == (if ss != [] then b.s else 0);
  }

  // ---- distance -----------------------------------------------------------------

  /** The four ways `format_distance` writes a distance. */
  datatype Style =
    | InMetres      // "N м"
    | WholeKm       // "N км"
    | KmAndMetres   // "N.NN км (M м)"
    | KmOnly        // "N.NN км"

  /** The style as the source chooses it: its second test, `km == round(km, 3)`, asks for whole metres. */
  function DistanceStyleAsWritten(km: real): Style {
    if km < 0.001 then InMetres
    else if km >= 1.0 && km == RoundHalfEven(km * 1000.0) as real / 1000.0 then WholeKm
    else if km < 1.0 || km * 1000.0 == RoundHalfEven(km * 1000.0) as real then KmAndMetres
    else KmOnly
  }

  /** The style as evidently intended: a distance is written "N км" only when it is a whole number of kilometres. */
  function DistanceStyle(km: real): Style {
    if km < 0.001 then InMetres
    else if km >= 1.0 && km == RoundHalfEven(km) as real then WholeKm
    else if km < 1.0 || km * 1000.0 == RoundHalfEven(km * 1000.0) as real then KmAndMetres
    else KmOnly
  }

  function RenderDistance(km: real, style: Style): string {
    match style
    case InMetres => Fixed0(km * 1000.0) + " м"
    case WholeKm => Fixed0(km) + " км"
    case KmAndMetres => Fixed2(km) + " км (" + IntStr(RoundHalfEven(km * 1000.0)) + " м)"
    case KmOnly => Fixed2(km) + " км"
  }

  /** The number of kilometres the text of a style stands for. */
  function ShownKm(km: real, style: Style): real {
    match style
    case InMetres => RoundHalfEven(km * 1000.0) as real / 1000.0
    case WholeKm => RoundHalfEven(km) as real
    case KmAndMetres => RoundHalfEven(km * 100.0) as real / 100.0
    case KmOnly => RoundHalfEven(km * 100.0) as real / 100.0
  }

  /** `format_distance(km)` as the source writes it; the reply uses this one. */
  function FormatDistanceAsWritten(km: real): string {
    RenderDistance(km, DistanceStyleAsWritten(km))
  }

  /** `format_distance(km)` as evidently intended. */
  function FormatDistance(km: real): string {
    RenderDistance(km, DistanceStyle(km))
  }

  /** As written, 5.5 km is shown as "6 км": half a kilometre off. */
  lemma FormatDistanceAsWrittenRoundsAway()
    ensures DistanceStyleAsWritten(5.5) == WholeKm
    ensures FormatDistanceAsWritten(5.5) == "6 км"
    ensures ShownKm(5.5, DistanceStyleAsWritten(5.5)) - 5.5 == 0.5
  {
    assert RoundHalfEven(5500.0) == 5500;
    assert RoundHalfEven(5.5) == 6;
    assert NatStr(6) == "6";
  }

  /** As written, the whole-metres test of the third branch never decides anything from 1 km up. */
  lemma AsWrittenNeverKmAndMetresFromOneKm(km: real)
    requires km >= 1.0
    ensures DistanceStyleAsWritten(km) != KmAndMetres
  {
  }

  /** As intended, every distance from one metre up is shown to within 5 metres, and "N км" is exact. */
  lemma DistanceShownWithinRounding(km: real)
    requires km >= 0.001
    ensures var shown := ShownKm(km, DistanceStyle(km)); -0.005 <= shown - km <= 0.005
    ensures DistanceStyle(km) == WholeKm ==> ShownKm(km, WholeKm) == km
    ensures DistanceStyle(km) == KmAndMetres && km >= 1.0 ==> RoundHalfEven(km * 1000.0) as real == km * 1000.0
  {
  }

  // ---- result ---------------------------------------------------------------------

  const Header := "\U{1F9EE} <b>Калькулятор темпа</b>\n"

  function PaceLine(pace: real): string {
    "\U{23F1} Темп: <b>" + FormatPace(pace) + "</b> /км"
  }

  function DistanceLine(shown: string): string {
    "\U{1F4CF} Дистанция: <b>" + shown + "</b>"
  }

  function TimeLine(minutes: real): string {
    "\U{1F550} Время: <b>" + FormatTime(minutes) + "</b>"
  }

  function SpeedLine(speed: real): string {
    "\U{1F680} Скорость: <b>" + Fixed2(speed) + "</b> км/ч"
  }

  /** `lines`, then the line `line` makes of `o`'s value when `o` is present. */
  function AppendIfKnown<T>(lines: seq<T>, o: Option<real>, line: real -> T): (r: seq<T>)
    ensures |r| == |lines| + Filled(o)
    ensures forall i :: 0 <= i < |lines| ==> r[i] == lines[i]
    ensures o.Some? ==> r[|lines|] == line(o.value)
  {
    if o.Some? then lines + [line(o.value)] else lines
  }

  /**
   * The lines of the reply, with `showDistance` writing the distance: the header,
   * then one line per known quantity in the order pace, distance, time, speed.
   */
  function ResultLinesWith(s: Slots, showDistance: real -> string): (lines: seq<string>)
    ensures |lines| == 1 + Count(s) && lines[0] == Header
    ensures s.pace.Some? ==> lines[1] == PaceLine(s.pace.value)
    ensures s.distance.Some? ==> lines[1 + Filled(s.pace)] == DistanceLine(showDistance(s.distance.value))
    ensures s.time.Some? ==> lines[1 + Filled(s.pace) + Filled(s.distance)] == TimeLine(s.time.value)
    ensures s.speed.Some? ==> lines[Count(s)] == SpeedLine(s.speed.value)
  {
    var withPace := AppendIfKnown([Header], s.pace, PaceLine);
    var withDistance := AppendIfKnown(withPace, s.distance, km => DistanceLine(showDistance(km)));
    var withTime := AppendIfKnown(withDistance, s.time, TimeLine);
    AppendIfKnown(withTime, s.speed, SpeedLine)
  }

  /** The lines `format_result` builds, with `format_distance` as written. */
  function ResultLines(s: Slots): seq<string> {
    ResultLinesWith(s, FormatDistanceAsWritten)
  }

  /** The same reply with the intended `format_distance`. */
  function CorrectedResultLines(s: Slots): seq<string> {
    ResultLinesWith(s, FormatDistance)
  }

  /** The two replies differ at most in the distance line. */
  lemma CorrectedDiffersOnlyInDistance(s: Slots)
    ensures |CorrectedResultLines(s)| == |ResultLines(s)|
    ensures forall i :: 0 <= i < |ResultLines(s)| && (s.distance.None? || i != 1 + Filled(s.pace))
              ==> CorrectedResultLines(s)[i] == ResultLines(s)[i]
  {
    var written, corrected := ResultLines(s), CorrectedResultLines(s);
    var p, d, t := Filled(s.pace), Filled(s.distance), Filled(s.time);
    forall i | 0 <= i < |written| && (s.distance.None? || i != 1 + p)
      ensures corrected[i] == written[i]
    {
      if i == 0 || (s.pace.Some? && i == 1) || (s.time.Some? && i == 1 + p + d) {
      } else {
        assert s.speed.Some? && i == Count(s);
      }
    }
  }

  /** `format_result(pace, distance, time_min, speed)`. */
  function FormatResult(s: Slots): string {
    Join(ResultLines(s), "\n")
  }
}
