/**
 * The regular expressions of the pace calculator's input parser, each written as a
 * matcher "does the pattern match starting exactly at position i, and with which
 * groups", plus leftmost search (`re.search`), successive non-overlapping matching
 * (`re.finditer`) and number collection (`re.findall(r"\d+\.?\d*", ...)`).
 *
 * Every pattern here starts with a greedy run of digits and continues with a
 * separator or a letter that a digit or a dot cannot stand for, so a shorter run
 * never matches where the longest one fails: at a fixed start each pattern has at
 * most one way to match, and the matchers follow that one way.
 */
module PaceScan {
  import opened Wrappers
  import opened Text

  /** The literal `lit` stands at position `i`. */
  predicate HasAt(s: string, i: nat, lit: string) {
    i + |lit| <= |s| && s[i..i + |lit|] == lit
  }

  lemma HasAtChars(s: string, i: nat, lit: string)
    requires HasAt(s, i, lit)
    ensures forall k :: 0 <= k < |lit| ==> s[i + k] == lit[k]
  {
    forall k | 0 <= k < |lit| ensures s[i + k] == lit[k] {
      assert s[i..i + |lit|][k] == s[i + k];
    }
  }

  /** `\b`: word and non-word characters meet at position `i` (the ends of the text count as non-word). */
  predicate Boundary(s: string, i: nat) {
    (0 < i <= |s| && IsWordChar(s[i - 1])) != (i < |s| && IsWordChar(s[i]))
  }

  predicate DigitAt(s: string, i: nat) {
    i < |s| && IsDigit(s[i])
  }

  predicate TwoDigitsAt(s: string, i: nat) {
    DigitAt(s, i) && DigitAt(s, i + 1)
  }

  function Pow10(n: nat): (p: nat)
    ensures p >= 1
  {
    if n == 0 then 1 else 10 * Pow10(n - 1)
  }

  /** `float("0." + ds)` for a string of digits. */
  function Fraction(ds: string): real {
    NatValue(ds) as real / Pow10(|ds|) as real
  }

  /** A number and the position just after its text. */
  datatype Num = Num(value: real, end: nat)

  /** `\d+\.?\d*` taken greedily from `i`, read as `float`. */
  function NumberAt(s: string, i: nat): (n: Num)
    requires DigitAt(s, i)
    ensures i < n.end <= |s|
  {
    var j := DigitEnd(s, i);
    var whole := NatValue(s[i..j]) as real;
    if j < |s| && s[j] == '.' then
      var k := DigitEnd(s, j + 1);
      Num(whole + Fraction(s[j + 1..k]), k)
    else Num(whole, j)
  }

  /** An optional group `(\d+)?` and the position after it. */
  datatype Group = Group(value: Option<nat>, end: nat)

  function OptDigits(s: string, i: nat): (g: Group)
    requires i <= |s|
    ensures i <= g.end <= |s|
  {
    if DigitAt(s, i) then
      var e := DigitEnd(s, i);
      Group(Some(NatValue(s[i..e])), e)
    else Group(None, i)
  }

  /** The groups of a clock-like token `a:bb` or `a:bb:cc`, and where it ends. */
  datatype Clock = Clock(a: nat, b: nat, c: Option<nat>, end: nat)

  // ---- leftmost search, finditer and findall -------------------------------------

  /** `re.search`: the match at the leftmost position from `i` on where the pattern matches. */
  function SearchFrom<T>(s: string, at: (string, nat) -> Option<T>, i: nat): Option<T>
    decreases |s| + 1 - i
  {
    if i > |s| then None
    else if at(s, i).Some? then at(s, i)
    else SearchFrom(s, at, i + 1)
  }

  function Search<T>(s: string, at: (string, nat) -> Option<T>): Option<T> {
    SearchFrom(s, at, 0)
  }

  /** What `re.search` returns is the match at some position. */
  lemma {:induction false} SearchFromFound<T>(s: string, at: (string, nat) -> Option<T>, i: nat) returns (k: nat)
    requires SearchFrom(s, at, i).Some?
    ensures i <= k <= |s| && at(s, k) == SearchFrom(s, at, i)
    decreases |s| + 1 - i
  {
    if at(s, i).Some? {
      k := i;
    } else {
      k := SearchFromFound(s, at, i + 1);
    }
  }

  /** `re.search` finds something whenever the pattern matches at some position. */
  lemma {:induction false} SearchFromFinds<T>(s: string, at: (string, nat) -> Option<T>, i: nat, k: nat)
    requires i <= k <= |s| && at(s, k).Some?
    ensures SearchFrom(s, at, i).Some?
    decreases k - i
  {
    if at(s, i).None? {
      SearchFromFinds(s, at, i + 1, k);
    }
  }

  /** A pattern that needs a digit where it starts finds nothing in a text without digits. */
  lemma {:induction false} SearchWithoutDigits<T>(s: string, at: (string, nat) -> Option<T>, i: nat)
    requires forall k :: 0 <= k < |s| ==> !IsDigit(s[k])
    requires forall k: nat :: !DigitAt(s, k) ==> at(s, k).None?
    ensures SearchFrom(s, at, i).None?
    decreases |s| + 1 - i
  {
    if i <= |s| {
      assert !DigitAt(s, i);
      SearchWithoutDigits(s, at, i + 1);
    }
  }

  /** `\d+\.?\d*` occurrences from `i` on, as `re.findall` lists them. */
  function NumbersFrom(s: string, i: nat): seq<real>
    decreases |s| - i
  {
    if i >= |s| then []
    else if IsDigit(s[i]) then
      var n := NumberAt(s, i);
      [n.value] + NumbersFrom(s, n.end)
    else NumbersFrom(s, i + 1)
  }

  /** `[float(x) for x in re.findall(r"\d+\.?\d*", text)]`. */
  function Numbers(s: string): seq<real> {
    NumbersFrom(s, 0)
  }

  lemma {:induction false} NumbersWithoutDigits(s: string, i: nat)
    requires forall k :: 0 <= k < |s| ==> !IsDigit(s[k])
    ensures NumbersFrom(s, i) == []
    decreases |s| - i
  {
    if i < |s| {
      NumbersWithoutDigits(s, i + 1);
    }
  }

  // ---- the patterns of parse_input ----------------------------------------------

  // `(\d+\.?\d*)\s*км\s*/\s*ч`: a speed in km/h.
  function SpeedAt(s: string, i: nat): Option<real> {
    if !DigitAt(s, i) then None
    else
      var n := NumberAt(s, i);
      var p := SpaceEnd(s, n.end);
      if !HasAt(s, p, "км") then None
      else
        var q := SpaceEnd(s, p + 2);
        if !HasAt(s, q, "/") then None
        else if HasAt(s, SpaceEnd(s, q + 1), "ч") then Some(n.value)
        else None
  }

  /** `\b(\d+):(\d{2})\b`: a clock token delimited by `\b`; a ':' is a non-word character, so the H:MM of an H:MM:SS token matches too. */
  function PaceClockAt(s: string, i: nat): (r: Option<Clock>)
    ensures r.Some? ==> i < r.value.end && r.value.c.None?
  {
    if !(DigitAt(s, i) && Boundary(s, i)) then None
    else
      var j := DigitEnd(s, i);
      if HasAt(s, j, ":") && TwoDigitsAt(s, j + 1) && Boundary(s, j + 3) then
        Some(Clock(NatValue(s[i..j]), NatValue(s[j + 1..j + 3]), None, j + 3))
      else None
  }

  /** `re.finditer(r"\b(\d+):(\d{2})\b", s)` from position `i`. */
  function PaceClocksFrom(s: string, i: nat): seq<Clock>
    decreases |s| + 1 - i
  {
    if i > |s| then []
    else match PaceClockAt(s, i)
      case Some(m) => [m] + PaceClocksFrom(s, m.end)
      case None => PaceClocksFrom(s, i + 1)
  }

  function PaceClocks(s: string): seq<Clock> {
    PaceClocksFrom(s, 0)
  }

  lemma {:induction false} PaceClocksWithoutDigits(s: string, i: nat)
    requires forall k :: 0 <= k < |s| ==> !IsDigit(s[k])
    ensures PaceClocksFrom(s, i) == []
    decreases |s| + 1 - i
  {
    if i <= |s| {
      assert !DigitAt(s, i);
      PaceClocksWithoutDigits(s, i + 1);
    }
  }

  /** A digit at the start of the text starts a word. */
  lemma DigitStartsWord(s: string)
    requires DigitAt(s, 0)
    ensures Boundary(s, 0)
  {
    assert IsWordChar(s[0]);
  }

  /** A ':' is not a word character, so where an `H:MM:SS` token starts at a word boundary its `H:MM` is a pace clock as well. */
  lemma HmsStartsPaceClock(s: string, i: nat)
    requires HmsAt(s, i).Some? && Boundary(s, i)
    ensures PaceClockAt(s, i) == Some(Clock(HmsAt(s, i).value.a, HmsAt(s, i).value.b, None, HmsAt(s, i).value.end - 3))
  {
    var j := DigitEnd(s, i);
    HasAtChars(s, j + 3, ":");
    assert IsWordChar(s[j + 2]) && !IsWordChar(s[j + 3]);
    assert Boundary(s, j + 3);
  }

  /** The number list reads both groups of a pace clock that no '.' follows: `A:BB` gives A, then BB. */
  lemma PaceClockNumbers(s: string, i: nat)
    requires PaceClockAt(s, i).Some? && !HasAt(s, PaceClockAt(s, i).value.end, ".")
    ensures NumbersFrom(s, i)
      == [PaceClockAt(s, i).value.a as real, PaceClockAt(s, i).value.b as real] + NumbersFrom(s, PaceClockAt(s, i).value.end)
  {
    var c := PaceClockAt(s, i).value;
    var j := DigitEnd(s, i);
    HasAtChars(s, j, ":");
    assert NumberAt(s, i) == Num(c.a as real, j);
    assert NumbersFrom(s, j) == NumbersFrom(s, j + 1);
    assert c.end == |s| || !IsDigit(s[c.end]) by {
      assert IsWordChar(s[j + 2]);
    }
    assert DigitEnd(s, j + 1) == c.end;
    assert NumberAt(s, j + 1) == Num(c.b as real, c.end);
  }

  /** `(\d+\.?\d*)\s*(?:км|km|k)\b`: a distance in kilometres. */
  function KmAt(s: string, i: nat): Option<real> {
    if !DigitAt(s, i) then None
    else
      var n := NumberAt(s, i);
      var p := SpaceEnd(s, n.end);
      if || (HasAt(s, p, "км") && Boundary(s, p + 2))
         || (HasAt(s, p, "km") && Boundary(s, p + 2))
         || (HasAt(s, p, "k") && Boundary(s, p + 1))
      then Some(n.value)
      else None
  }

  /** `(\d+)\s*(?:км|km)\s*(\d+)\s*(?:м|m)\b`: kilometres and metres, read as X + Y/1000 km. */
  function KmMetresAt(s: string, i: nat): Option<real> {
    if !DigitAt(s, i) then None
    else
      var j := DigitEnd(s, i);
      var p := SpaceEnd(s, j);
      if !(HasAt(s, p, "км") || HasAt(s, p, "km")) then None
      else
        var q := SpaceEnd(s, p + 2);
        if !DigitAt(s, q) then None
        else
          var r := DigitEnd(s, q);
          var u := SpaceEnd(s, r);
          if (HasAt(s, u, "м") || HasAt(s, u, "m")) && Boundary(s, u + 1) then
            Some(NatValue(s[i..j]) as real + NatValue(s[q..r]) as real / 1000.0)
          else None
  }

  /** `(\d+\.?\d*)\s*(?:м|m|метров?)\b`: a distance in metres, read as N/1000 km. */
  function MetresAt(s: string, i: nat): Option<real> {
    if !DigitAt(s, i) then None
    else
      var n := NumberAt(s, i);
      var p := SpaceEnd(s, n.end);
      if || (HasAt(s, p, "м") && Boundary(s, p + 1))
         || (HasAt(s, p, "m") && Boundary(s, p + 1))
         || (HasAt(s, p, "метров") && Boundary(s, p + 6))
         || (HasAt(s, p, "метро") && Boundary(s, p + 5))
      then Some(n.value / 1000.0)
      else None
  }

  /** `(\d+):(\d{2}):(\d{2})`: hours, minutes and seconds. */
  function HmsAt(s: string, i: nat): (r: Option<Clock>)
    ensures r.Some? ==> r.value.c.Some?
  {
    if !DigitAt(s, i) then None
    else
      var j := DigitEnd(s, i);
      if HasAt(s, j, ":") && TwoDigitsAt(s, j + 1) && HasAt(s, j + 3, ":") && TwoDigitsAt(s, j + 4) then
        Some(Clock(NatValue(s[i..j]), NatValue(s[j + 1..j + 3]), Some(NatValue(s[j + 4..j + 6])), j + 6))
      else None
  }

  /** `(\d+):(\d{2})(?::(\d{2}))?`: a clock token with an optional third group. */
  function ClockAt(s: string, i: nat): Option<Clock>
  {
    if !DigitAt(s, i) then None
    else
      var j := DigitEnd(s, i);
      if HasAt(s, j, ":") && TwoDigitsAt(s, j + 1) then
        var a, b := NatValue(s[i..j]), NatValue(s[j + 1..j + 3]);
        if HasAt(s, j + 3, ":") && TwoDigitsAt(s, j + 4) then
          Some(Clock(a, b, Some(NatValue(s[j + 4..j + 6])), j + 6))
        else Some(Clock(a, b, None, j + 3))
      else None
  }

  /** `(\d+)\s*ч\s*(\d+)?\s*мин\s*(\d+)?\s*сек?`: H ч [M] мин [S] се(к), read as H·60 + M + S/60 minutes. */
  function HourMinSecAt(s: string, i: nat): Option<real> {
    if !DigitAt(s, i) then None
    else
      var j := DigitEnd(s, i);
      var p := SpaceEnd(s, j);
      if !HasAt(s, p, "ч") then None
      else
        var g2 := OptDigits(s, SpaceEnd(s, p + 1));
        var u := SpaceEnd(s, g2.end);
        if !HasAt(s, u, "мин") then None
        else
          var g3 := OptDigits(s, SpaceEnd(s, u + 3));
          if HasAt(s, SpaceEnd(s, g3.end), "се") then
            Some((NatValue(s[i..j]) * 60) as real + g2.value.GetOr(0) as real + g3.value.GetOr(0) as real / 60.0)
          else None
  }

  /** `(\d+)\s*мин\s*(\d+)?\s*сек?`: M мин [S] се(к), read as M + S/60 minutes. */
  function MinSecAt(s: string, i: nat): Option<real> {
    if !DigitAt(s, i) then None
    else
      var j := DigitEnd(s, i);
      var p := SpaceEnd(s, j);
      if !HasAt(s, p, "мин") then None
      else
        var g := OptDigits(s, SpaceEnd(s, p + 3));
        if HasAt(s, SpaceEnd(s, g.end), "се") then
          Some(NatValue(s[i..j]) as real + g.value.GetOr(0) as real / 60.0)
        else None
  }

  /** `(\d+)\s*ч\s*(\d+)?`: H ч [M], read as H·60 + M minutes. */
  function HourAt(s: string, i: nat): Option<real> {
    if !DigitAt(s, i) then None
    else
      var j := DigitEnd(s, i);
      var p := SpaceEnd(s, j);
      if !HasAt(s, p, "ч") then None
      else
        var g := OptDigits(s, SpaceEnd(s, p + 1));
        Some((NatValue(s[i..j]) * 60 + g.value.GetOr(0)) as real)
  }

  /** `(\d+)\s*мин`: M минут. */
  function MinAt(s: string, i: nat): Option<real> {
    if !DigitAt(s, i) then None
    else
      var j := DigitEnd(s, i);
      if HasAt(s, SpaceEnd(s, j), "мин") then Some(NatValue(s[i..j]) as real) else None
  }

  /** `(\d+)\s*сек`: S секунд, read as S/60 minutes. */
  function SecAt(s: string, i: nat): Option<real> {
    if !DigitAt(s, i) then None
    else
      var j := DigitEnd(s, i);
      if HasAt(s, SpaceEnd(s, j), "сек") then Some(NatValue(s[i..j]) as real / 60.0) else None
  }
}
