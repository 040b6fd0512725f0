/**
 * Characters and strings as the bot's Python code sees them: the character classes
 * behind the regular-expression escapes `\d`, `\s` and `\w`, `str.lower()`,
 * `str.strip()`, the `in` test between strings, `str(n)` for integers and
 * `sep.join(parts)`.
 *
 * Character classes cover ASCII, Latin-1 and Cyrillic, the scripts the bot's
 * messages are written in.
 */
module Text {

  /** `\d`: an ASCII decimal digit. */
  predicate IsDigit(c: char) {
    '0' <= c <= '9'
  }

  function DigitVal(c: char): nat {
    if IsDigit(c) then c as int - '0' as int else 0
  }

  function DigitChar(d: nat): (c: char)
    requires d < 10
    ensures IsDigit(c) && DigitVal(c) == d
  {
    ('0' as int + d) as char
  }

  /** `\s` and `str.isspace()`: the characters Python treats as whitespace. */
  predicate IsSpace(c: char) {
    || '\U{9}' <= c <= '\U{D}'
    || '\U{1C}' <= c <= ' '
    || c == '\U{85}' || c == '\U{A0}' || c == '\U{1680}'
    || '\U{2000}' <= c <= '\U{200A}'
    || c == '\U{2028}' || c == '\U{2029}' || c == '\U{202F}' || c == '\U{205F}' || c == '\U{3000}'
  }

  /** `\w`: letters, digits (superscripts and vulgar fractions included) and the underscore. */
  predicate IsWordChar(c: char) {
    || IsDigit(c)
    || 'a' <= c <= 'z' || 'A' <= c <= 'Z' || c == '_'
    || c == '\U{AA}' || c == '\U{B5}' || c == '\U{BA}'
    || c == '\U{B2}' || c == '\U{B3}' || c == '\U{B9}' || '\U{BC}' <= c <= '\U{BE}'
    || '\U{C0}' <= c <= '\U{D6}' || '\U{D8}' <= c <= '\U{F6}' || '\U{F8}' <= c <= '\U{24F}'
    || '\U{400}' <= c <= '\U{481}' || '\U{48A}' <= c <= '\U{52F}'
  }

  /** Whitespace is not part of a word. */
  lemma SpaceIsNotWord(c: char)
    requires IsSpace(c)
    ensures !IsWordChar(c)
  {
  }

  /** `str.lower()` on one character. */
  function LowerChar(c: char): (r: char)
    ensures IsDigit(r) <==> IsDigit(c)
    ensures IsSpace(r) <==> IsSpace(c)
    ensures IsWordChar(r) <==> IsWordChar(c)
  {
    if 'A' <= c <= 'Z' then (c as int + 32) as char
    else if '\U{410}' <= c <= '\U{42F}' then (c as int + 32) as char
    else if '\U{400}' <= c <= '\U{40F}' then (c as int + 80) as char
    else if '\U{C0}' <= c <= '\U{DE}' && c != '\U{D7}' then (c as int + 32) as char
    else c
  }

  /** `str.lower()`. */
  function Lower(s: string): (r: string)
    ensures |r| == |s|
    ensures forall k :: 0 <= k < |s| ==> r[k] == LowerChar(s[k])
  {
    seq(|s|, k requires 0 <= k < |s| => LowerChar(s[k]))
  }

  lemma LowerCharIdempotent(c: char)
    ensures LowerChar(LowerChar(c)) == LowerChar(c)
  {
  }

  lemma LowerIdempotent(s: string)
    ensures Lower(Lower(s)) == Lower(s)
  {
    forall k | 0 <= k < |s| {
      LowerCharIdempotent(s[k]);
    }
  }

  lemma LowerConcat(a: string, b: string)
    ensures Lower(a + b) == Lower(a) + Lower(b)
  {
  }

  /** `str.lstrip()`: drops the leading whitespace. */
  function StripLeft(s: string): (r: string)
    ensures |r| <= |s| && r == s[|s| - |r|..]
    ensures forall k :: 0 <= k < |s| - |r| ==> IsSpace(s[k])
    ensures r == [] || !IsSpace(r[0])
    decreases |s|
  {
    if s != [] && IsSpace(s[0]) then StripLeft(s[1..]) else s
  }

  /** `str.rstrip()`: drops the trailing whitespace. */
  function StripRight(s: string): (r: string)
    ensures |r| <= |s| && r == s[..|r|]
    ensures forall k :: |r| <= k < |s| ==> IsSpace(s[k])
    ensures r == [] || !IsSpace(r[|r| - 1])
    decreases |s|
  {
    if s != [] && IsSpace(s[|s| - 1]) then StripRight(s[..|s| - 1]) else s
  }

  /** `str.strip()`. */
  function Strip(s: string): string {
    StripRight(StripLeft(s))
  }

  /** `text.lower().strip()`, the normalisation of user text and of search queries. */
  function Normalize(s: string): string {
    Strip(Lower(s))
  }

  /** A text with no whitespace at either end is its own `strip()`. */
  lemma StripStable(s: string)
    requires s == [] || (!IsSpace(s[0]) && !IsSpace(s[|s| - 1]))
    ensures Strip(s) == s
  {
  }

  /** Lowercasing an already stripped text leaves nothing to strip. */
  lemma NormalizeStripped(s: string)
    requires Strip(s) == s
    ensures Normalize(s) == Lower(s)
  {
    if s != [] {
      assert StripRight(StripLeft(s)) == s;
      assert !IsSpace(s[0]) && !IsSpace(s[|s| - 1]);
    }
    StripStable(Lower(s));
  }

  /** `lower()` adds no digits. */
  lemma LowerNoDigits(s: string)
    requires forall k :: 0 <= k < |s| ==> !IsDigit(s[k])
    ensures forall k :: 0 <= k < |Lower(s)| ==> !IsDigit(Lower(s)[k])
  {
    forall k | 0 <= k < |Lower(s)| ensures !IsDigit(Lower(s)[k]) {
      assert Lower(s)[k] == LowerChar(s[k]);
    }
  }

  /** `strip()` adds no digits. */
  lemma StripNoDigits(s: string)
    requires forall k :: 0 <= k < |s| ==> !IsDigit(s[k])
    ensures forall k :: 0 <= k < |Strip(s)| ==> !IsDigit(Strip(s)[k])
  {
    var m := StripLeft(s);
    forall k | 0 <= k < |m| ensures !IsDigit(m[k]) {
      assert m[k] == s[|s| - |m| + k];
    }
    var t := StripRight(m);
    forall k | 0 <= k < |t| ensures !IsDigit(t[k]) {
      assert t[k] == m[k];
    }
  }

  /** `lower().strip()` adds no digits. */
  lemma NormalizeNoDigits(s: string)
    requires forall k :: 0 <= k < |s| ==> !IsDigit(s[k])
    ensures forall k :: 0 <= k < |Lower(s)| ==> !IsDigit(Lower(s)[k])
    ensures forall k :: 0 <= k < |Normalize(s)| ==> !IsDigit(Normalize(s)[k])
  {
    LowerNoDigits(s);
    StripNoDigits(Lower(s));
  }

  /** `needle in hay` for two strings. */
  predicate Contains(hay: string, needle: string)
    decreases |hay|
  {
    needle <= hay || (hay != [] && Contains(hay[1..], needle))
  }

  predicate OccursAt(hay: string, needle: string, i: nat) {
    i + |needle| <= |hay| && hay[i..i + |needle|] == needle
  }

  /** Where `needle in hay` holds, `needle` occurs at some position of `hay`. */
  lemma {:induction false} ContainsAt(hay: string, needle: string) returns (i: nat)
    requires Contains(hay, needle)
    ensures OccursAt(hay, needle, i)
    decreases |hay|
  {
    if needle <= hay {
      i := 0;
    } else {
      var j := ContainsAt(hay[1..], needle);
      assert hay[1..][j..j + |needle|] == hay[j + 1..j + 1 + |needle|];
      i := j + 1;
    }
  }

  /** An occurrence at any position makes `needle in hay` hold. */
  lemma {:induction false} OccursContains(hay: string, needle: string, i: nat)
    requires OccursAt(hay, needle, i)
    ensures Contains(hay, needle)
    decreases i
  {
    if i > 0 {
      assert hay[1..][i - 1..i - 1 + |needle|] == hay[i..i + |needle|];
      OccursContains(hay[1..], needle, i - 1);
    }
  }

  /** An occurrence of `a` inside an occurrence of `b` is an occurrence in the outer text. */
  lemma ContainsTransitive(c: string, b: string, a: string)
    requires Contains(b, a) && Contains(c, b)
    ensures Contains(c, a)
  {
    var i := ContainsAt(b, a);
    var j := ContainsAt(c, b);
    var w := c[j + i..j + i + |a|];
    forall k | 0 <= k < |a| ensures w[k] == a[k] {
      assert a[k] == b[i + k] == c[j + i + k];
    }
    assert w == a;
    OccursContains(c, a, j + i);
  }

  lemma ContainsPrefix(a: string, b: string, needle: string)
    requires Contains(a, needle)
    ensures Contains(a + b, needle)
  {
    var i := ContainsAt(a, needle);
    assert (a + b)[i..i + |needle|] == a[i..i + |needle|];
    OccursContains(a + b, needle, i);
  }

  lemma ContainsSelf(s: string)
    ensures Contains(s, s)
  {
  }

  lemma StripLeftKeepsSolid(s: string, needle: string, i: nat)
    requires needle != [] && !IsSpace(needle[0])
    requires OccursAt(s, needle, i)
    ensures |s| - |StripLeft(s)| <= i && OccursAt(StripLeft(s), needle, i - (|s| - |StripLeft(s)|))
  {
    var l := StripLeft(s);
    var a := |s| - |l|;
    assert s[i] == needle[0];
    var w := l[i - a..i - a + |needle|];
    forall k | 0 <= k < |needle| ensures w[k] == needle[k] {
      assert needle[k] == s[i + k];
    }
    assert w == needle;
  }

  lemma StripRightKeepsSolid(s: string, needle: string, i: nat)
    requires needle != [] && !IsSpace(needle[|needle| - 1])
    requires OccursAt(s, needle, i)
    ensures OccursAt(StripRight(s), needle, i)
  {
    var r := StripRight(s);
    assert s[i + |needle| - 1] == needle[|needle| - 1];
    var w := r[i..i + |needle|];
    forall k | 0 <= k < |needle| ensures w[k] == needle[k] {
      assert needle[k] == s[i + k];
    }
    assert w == needle;
  }

  /** Stripping whitespace off the ends keeps every occurrence of a non-empty word without whitespace. */
  lemma StripKeepsSolid(s: string, needle: string)
    requires needle != [] && forall k :: 0 <= k < |needle| ==> !IsSpace(needle[k])
    requires Contains(s, needle)
    ensures Contains(Strip(s), needle)
  {
    var i := ContainsAt(s, needle);
    StripLeftKeepsSolid(s, needle, i);
    var j := i - (|s| - |StripLeft(s)|);
    StripRightKeepsSolid(StripLeft(s), needle, j);
    OccursContains(Strip(s), needle, j);
  }

  /** The end of the run of characters satisfying `inRun` that starts at `i`. */
  function RunEnd(s: string, i: nat, inRun: char -> bool): (e: nat)
    requires i <= |s|
    ensures i <= e <= |s|
    ensures forall k :: i <= k < e ==> inRun(s[k])
    ensures e == |s| || !inRun(s[e])
    decreases |s| - i
  {
    if i < |s| && inRun(s[i]) then RunEnd(s, i + 1, inRun) else i
  }

  function DigitEnd(s: string, i: nat): (e: nat)
    requires i <= |s|
    ensures i <= e <= |s|
    ensures forall k :: i <= k < e ==> IsDigit(s[k])
    ensures e == |s| || !IsDigit(s[e])
  {
    RunEnd(s, i, IsDigit)
  }

  /** The end of the `\s*` that starts at `i`. */
  function SpaceEnd(s: string, i: nat): (e: nat)
    requires i <= |s|
    ensures i <= e <= |s|
    ensures forall k :: i <= k < e ==> IsSpace(s[k])
    ensures e == |s| || !IsSpace(s[e])
  {
    RunEnd(s, i, IsSpace)
  }

  /** `int(ds)` for a string of decimal digits. */
  function NatValue(ds: string): nat
    decreases |ds|
  {
    if ds == [] then 0 else NatValue(ds[..|ds| - 1]) * 10 + DigitVal(ds[|ds| - 1])
  }

  /** Two digits make a number below 100. */
  lemma NatValueTwoDigits(ds: string)
    requires |ds| == 2
    ensures NatValue(ds) < 100
  {
    assert NatValue(ds[..1]) == DigitVal(ds[0]) by {
      assert ds[..1][..0] == [];
    }
  }

  /** `str(n)` for a non-negative integer: its decimal digits, without leading zeros. */
  function NatStr(n: nat): (r: string)
    ensures |r| >= 1
    ensures forall k :: 0 <= k < |r| ==> IsDigit(r[k])
    ensures |r| > 1 ==> r[0] != '0'
    ensures (n < 10 ==> |r| == 1) && (10 <= n < 100 ==> |r| == 2)
    ensures NatValue(r) == n
    decreases n
  {
    if n < 10 then [DigitChar(n)]
    else
      var r := NatStr(n / 10) + [DigitChar(n % 10)];
      assert r[..|r| - 1] == NatStr(n / 10);
      r
  }

  /** `str(n)` for any integer. */
  function IntStr(n: int): (r: string)
    ensures n >= 0 ==> r == NatStr(n)
    ensures n < 0 ==> r == "-" + NatStr(-n)
  {
    if n < 0 then "-" + NatStr(-n) else NatStr(n)
  }

  /** Different integers have different decimal texts. */
  lemma IntStrInjective(a: int, b: int)
    requires IntStr(a) == IntStr(b)
    ensures a == b
  {
    if a < 0 && b < 0 {
      assert IntStr(a)[1..] == NatStr(-a) && IntStr(b)[1..] == NatStr(-b);
    }
  }

  /** `f"{n:02d}"`: zero-padded to width two. */
  function Pad2(n: int): (r: string)
    ensures 0 <= n < 100 ==> |r| == 2 && IsDigit(r[0]) && IsDigit(r[1]) && NatValue(r) == n
  {
    if 0 <= n < 10 then
      var r := "0" + NatStr(n);
      assert r[..1] == "0";
      r
    else IntStr(n)
  }

  /** `sep.join(parts)`. */
  function Join(parts: seq<string>, sep: string): string
    decreases |parts|
  {
    if parts == [] then ""
    else if |parts| == 1 then parts[0]
    else parts[0] + sep + Join(parts[1..], sep)
  }

  /** `re.findall(r"\w+", s)` from position `i`: the maximal runs of word characters. */
  function WordsFrom(s: string, i: nat): (ws: seq<string>)
    requires i <= |s|
    decreases |s| - i
  {
    if i == |s| then []
    else if IsWordChar(s[i]) then
      var e := RunEnd(s, i, IsWordChar);
      [s[i..e]] + WordsFrom(s, e)
    else WordsFrom(s, i + 1)
  }

  function Words(s: string): seq<string> {
    WordsFrom(s, 0)
  }

  /** Every word found is non-empty, made of word characters only, and occurs in the text. */
  lemma {:induction false} WordsFromAreInfixes(s: string, i: nat)
    requires i <= |s|
    ensures forall w :: w in WordsFrom(s, i) ==>
      w != [] && (forall k :: 0 <= k < |w| ==> IsWordChar(w[k])) && Contains(s, w)
    decreases |s| - i
  {
    if i == |s| {
    } else if IsWordChar(s[i]) {
      var e := RunEnd(s, i, IsWordChar);
      WordsFromAreInfixes(s, e);
      OccursContains(s, s[i..e], i);
    } else {
      WordsFromAreInfixes(s, i + 1);
    }
  }
}
