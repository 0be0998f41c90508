/**
 JSON Pointers (RFC 6901): the printer of diagnostic paths, the parser of probe pointers, and the
 evaluation of a pointer on a document.
 */
module JsonPointer {
  import opened Common
  import opened Strings
  import opened ArgumentExpansion

  const ROOT := "structuredContent"

  // ---------------------------------------------------------------- escaping for diagnostics

  /** In code units of UTF-16, as the program's strings are measured. */
  const MAX_SEGMENT_LENGTH: nat := 128
  const ELLIPSIS: char := '\U{2026}'

  /** Characters the diagnostics never print as they are. */
  predicate IsUnsafe(c: char) {
    || '\U{7f}' <= c <= '\U{9f}' || c == '\U{ad}' || c == '\U{61c}' || '\U{200b}' <= c <= '\U{200f}'
    || '\U{2028}' <= c <= '\U{202e}' || '\U{2060}' <= c <= '\U{206f}' || c == '\U{feff}'
  }

  function HexDigit(n: nat): char
    requires n < 16
  {
    "0123456789abcdef"[n]
  }

  /** The escape of one code unit. */
  function UnicodeEscape(unit: nat): string
    requires unit < 0x10000
  {
    "\\u" + [HexDigit(unit / 4096), HexDigit(unit / 256 % 16), HexDigit(unit / 16 % 16), HexDigit(unit % 16)]
  }

  /** One character as the body of a JSON string prints it, or as an escape if it is unsafe. */
  function EscapeChar(c: char): string {
    if c == '"' then "\\\""
    else if c == '\\' then "\\\\"
    else if c == '\U{8}' then "\\b"
    else if c == '\t' then "\\t"
    else if c == '\n' then "\\n"
    else if c == '\U{c}' then "\\f"
    else if c == '\r' then "\\r"
    else if c < ' ' || IsUnsafe(c) then UnicodeEscape(c as nat)
    else [c]
  }

  function EscapeAll(s: string): string {
    if s == [] then [] else EscapeChar(s[0]) + EscapeAll(s[1..])
  }

  /** The code units of a character: two, a surrogate pair, beyond the basic plane. */
  function Width(c: char): nat {
    if c < '\U{10000}' then 1 else 2
  }

  function Units(s: string): nat {
    if s == [] then 0 else Width(s[0]) + Units(s[1..])
  }

  /** The first code unit of a surrogate pair. */
  function HighSurrogate(c: char): (unit: nat)
    requires Width(c) == 2
    ensures 0xD800 <= unit < 0xDC00
  {
    0xD800 + (c as nat - 0x10000) / 0x400
  }

  /** The escaping of the first code units of a text; half a pair is no character and printed as an escape. */
  function EscapeFirst(s: string, units: nat): string {
    if s == [] || units == 0 then []
    else if Width(s[0]) <= units then EscapeChar(s[0]) + EscapeFirst(s[1..], units - Width(s[0]))
    else UnicodeEscape(HighSurrogate(s[0]))
  }

  function EscapeDiagnosticText(value: string): string {
    if Units(value) <= MAX_SEGMENT_LENGTH then EscapeAll(value)
    else EscapeFirst(value, MAX_SEGMENT_LENGTH) + EscapeAll([ELLIPSIS])
  }

  // What the escaping is: the body of a JSON string (RFC 8259, section 7), with unsafe characters escaped.

  /** The characters that are never printed as they are, by code point, and those that take two code units. */
  lemma UnsafeCodes(c: char)
    ensures IsUnsafe(c)
            <==> var code := c as int;
                 || code in {173, 1564, 65279} || 127 <= code < 160 || 8203 <= code < 8208
                 || 8232 <= code < 8239 || 8288 <= code < 8304
    ensures Width(c) == if c as int > 65535 then 2 else 1
  {
  }

  function HexValue(c: char): Option<nat> {
    if '0' <= c <= '9' then Some(c as nat - 48)
    else if 'a' <= c <= 'f' then Some(c as nat - 87)
    else None
  }

  /** The code unit that four hexadecimal digits stand for. */
  function HexUnit(a: char, b: char, c: char, d: char): Option<nat> {
    if HexValue(a).None? || HexValue(b).None? || HexValue(c).None? || HexValue(d).None? then None
    else Some(((HexValue(a).value * 16 + HexValue(b).value) * 16 + HexValue(c).value) * 16 + HexValue(d).value)
  }

  /** The character that the escape at the head of a text stands for, and the length of the escape. */
  function UnescapeHead(s: string): Option<(char, nat)>
    requires s != []
    ensures UnescapeHead(s).Some? ==> 0 < UnescapeHead(s).value.1 <= |s|
  {
    if s[0] != '\\' then Some((s[0], 1))
    else if |s| < 2 then None
    else if s[1] == 'u' then
      if |s| < 6 then None
      else match HexUnit(s[2], s[3], s[4], s[5])
        case Some(unit) => if unit < 0xD800 || 0xE000 <= unit < 0x10000 then Some((unit as char, 6)) else None
        case None => None
    else match s[1]
      case '"' => Some(('"', 2))
      case '\\' => Some(('\\', 2))
      case 'b' => Some((8 as char, 2))
      case 't' => Some((9 as char, 2))
      case 'n' => Some((10 as char, 2))
      case 'f' => Some((12 as char, 2))
      case 'r' => Some((13 as char, 2))
      case _ => None
  }

  function Unescape(s: string): Option<string> {
    if s == [] then Some([])
    else if UnescapeHead(s).None? then None
    else
      var rest := Unescape(s[UnescapeHead(s).value.1..]);
      if rest.None? then None else Some([UnescapeHead(s).value.0] + rest.value)
  }

  lemma HexDigitIsRead(n: nat)
    requires n < 16
    ensures HexValue(HexDigit(n)) == Some(n)
  {
  }

  lemma HexDigitsAreRead(unit: nat)
    requires unit < 0x10000
    ensures var e := UnicodeEscape(unit);
            |e| == 6 && e[0] == '\\' && e[1] == 'u' && HexUnit(e[2], e[3], e[4], e[5]) == Some(unit)
  {
    hide HexDigit, HexValue;
    FourDigits(unit);
    HexDigitIsRead(unit / 4096);
    HexDigitIsRead(unit / 256 % 16);
    HexDigitIsRead(unit / 16 % 16);
    HexDigitIsRead(unit % 16);
  }

  lemma FourDigits(unit: nat)
    ensures ((unit / 4096 * 16 + unit / 256 % 16) * 16 + unit / 16 % 16) * 16 + unit % 16 == unit
  {
    var rest := unit / 16;
    assert unit / 256 == rest / 16 && unit / 4096 == rest / 16 / 16;
    assert rest == rest / 16 / 16 * 256 + rest / 16 % 16 * 16 + rest % 16;
  }

  /** Reading an escaped character gives the character back. */
  lemma EscapeCharIsRead(c: char, rest: string)
    ensures UnescapeHead(EscapeChar(c) + rest) == Some((c, |EscapeChar(c)|))
    ensures (EscapeChar(c) + rest)[|EscapeChar(c)|..] == rest
  {
    hide HexUnit, IsUnsafe;
    if c < ' ' || IsUnsafe(c) {
      UnsafeCodes(c);
      HexDigitsAreRead(c as nat);
      hide UnicodeEscape;
    }
  }

  /** Escaping loses nothing: read as the body of a JSON string, the escaped text is the text. */
  lemma {:induction false} EscapeAllIsRead(s: string)
    ensures Unescape(EscapeAll(s)) == Some(s)
  {
    hide EscapeChar, UnescapeHead;
    if s != [] {
      EscapeCharIsRead(s[0], EscapeAll(s[1..]));
      EscapeAllIsRead(s[1..]);
      assert s == [s[0]] + s[1..];
    }
  }

  lemma HexDigitIsSafe(n: nat)
    requires n < 16
    ensures HexDigit(n) >= ' ' && !IsUnsafe(HexDigit(n))
  {
    HexDigitIsRead(n);
  }

  lemma EscapeCharIsSafe(c: char)
    ensures forall i :: 0 <= i < |EscapeChar(c)| ==> EscapeChar(c)[i] >= ' ' && !IsUnsafe(EscapeChar(c)[i])
  {
    hide HexDigit;
    forall n: nat | n < 16 {
      HexDigitIsSafe(n);
    }
    if c < ' ' || IsUnsafe(c) {
      UnsafeCodes(c);
    }
  }

  /** Nothing unsafe and no control character is left. */
  lemma {:induction false} EscapeAllIsSafe(s: string)
    ensures forall i :: 0 <= i < |EscapeAll(s)| ==> EscapeAll(s)[i] >= ' ' && !IsUnsafe(EscapeAll(s)[i])
  {
    hide EscapeChar, IsUnsafe;
    if s != [] {
      EscapeCharIsSafe(s[0]);
      EscapeAllIsSafe(s[1..]);
    }
  }

  // What the escaping leaves as it is.

  predicate PlainChar(c: char) {
    c >= ' ' && c != '"' && c != '\\' && !IsUnsafe(c)
  }

  predicate IsPlain(s: string) {
    forall i :: 0 <= i < |s| ==> PlainChar(s[i])
  }

  predicate IsBackslashes(s: string) {
    forall i :: 0 <= i < |s| ==> s[i] == '\\'
  }

  /**
   Plain text of at most 128 code units; or text of 129 to 257 of them that ends in an ellipsis and before that is
   plain, but for backslashes in the middle: as many before the place where text is cut as behind it.
   */
  predicate Unchanged(text: string) {
    if Units(text) <= MAX_SEGMENT_LENGTH then IsPlain(text)
    else
      var doubled := Units(text) - MAX_SEGMENT_LENGTH - 1;
      && 2 * doubled < |text|
      && IsPlain(text[..|text| - 1 - 2 * doubled])
      && IsBackslashes(text[|text| - 1 - 2 * doubled..|text| - 1])
      && text[|text| - 1] == ELLIPSIS
  }

  /** Plain characters are kept; all others become longer, and begin with a backslash then. */
  lemma EscapedChar(c: char)
    ensures EscapeChar(c) == [c] <==> PlainChar(c)
    ensures !PlainChar(c) ==> |EscapeChar(c)| >= 2 && EscapeChar(c)[0] == '\\'
    ensures c == '\\' ==> EscapeChar(c) == ['\\', '\\']
  {
  }

  lemma {:induction false} EscapeAllAppend(a: string, b: string)
    ensures EscapeAll(a + b) == EscapeAll(a) + EscapeAll(b)
  {
    if a == [] {
      assert a + b == b;
    } else {
      assert (a + b)[1..] == a[1..] + b;
      EscapeAllAppend(a[1..], b);
    }
  }

  /** Escaping makes text longer, unless it is plain. */
  lemma {:induction false} EscapeAllLength(s: string)
    ensures |EscapeAll(s)| >= |s|
    ensures |EscapeAll(s)| == |s| <==> IsPlain(s)
    ensures IsPlain(s) ==> EscapeAll(s) == s
  {
    if s != [] {
      hide EscapeChar, PlainChar;
      EscapedChar(s[0]);
      EscapeAllLength(s[1..]);
      assert IsPlain(s) <==> PlainChar(s[0]) && IsPlain(s[1..]) by {
        assert s == [s[0]] + s[1..];
      }
    }
  }

  lemma {:induction false} EscapeBackslashes(s: string)
    requires IsBackslashes(s)
    ensures IsBackslashes(EscapeAll(s)) && |EscapeAll(s)| == 2 * |s|
  {
    if s != [] {
      EscapedChar(s[0]);
      EscapeBackslashes(s[1..]);
    }
  }

  /** Text that continues a run of backslashes and its own escaping alike consists of backslashes. */
  lemma {:induction false} BackslashesGoOn(s: string, before: string)
    requires before != [] && IsBackslashes(before) && s <= before + EscapeAll(s)
    ensures IsBackslashes(s)
  {
    if s != [] {
      hide EscapeAll, EscapeChar, PlainChar;
      EscapeAllHead(s);
      EscapedChar(s[0]);
      var rest := EscapeAll(s[1..]);
      var longer := before[1..] + ['\\', '\\'];
      assert s[0] == (before + EscapeAll(s))[0] == before[0];
      assert before + EscapeAll(s) == [before[0]] + (longer + rest);
      PrefixWithoutFirst(s, before[0], longer + rest);
      BackslashesGoOn(s[1..], longer);
    }
  }

  lemma EscapeAllHead(s: string)
    requires s != []
    ensures EscapeAll(s) == EscapeChar(s[0]) + EscapeAll(s[1..])
  {
  }

  lemma PrefixWithoutFirst(s: string, c: char, rest: string)
    requires s != [] && s <= [c] + rest
    ensures s[0] == c && s[1..] <= rest
  {
    assert s == ([c] + rest)[..|s|];
    assert s[1..] == rest[..|s| - 1];
  }

  /** Text its own escaping begins with is plain up to some place and consists of backslashes from there. */
  lemma {:induction false} PlainThenBackslashes(s: string) returns (n: nat)
    requires s <= EscapeAll(s)
    ensures n <= |s| && IsPlain(s[..n]) && IsBackslashes(s[n..])
  {
    if s == [] {
      return 0;
    }
    hide EscapeAll, EscapeChar, PlainChar;
    EscapeAllHead(s);
    EscapedChar(s[0]);
    var rest := EscapeAll(s[1..]);
    if PlainChar(s[0]) {
      PrefixWithoutFirst(s, s[0], rest);
      var m := PlainThenBackslashes(s[1..]);
      n := m + 1;
      assert s[..n] == [s[0]] + s[1..][..m] && s[n..] == s[1..][m..];
    } else {
      assert s[0] == EscapeAll(s)[0] == '\\';
      assert EscapeAll(s) == ['\\'] + (['\\'] + rest);
      PrefixWithoutFirst(s, '\\', ['\\'] + rest);
      BackslashesGoOn(s[1..], ['\\']);
      n := 0;
    }
  }

  lemma EllipsisIsPlain()
    ensures PlainChar(ELLIPSIS) && EscapeAll([ELLIPSIS]) == [ELLIPSIS]
  {
    EscapedChar(ELLIPSIS);
    EscapeAllLength([ELLIPSIS]);
  }

  lemma {:induction false} UnitsAppend(a: string, b: string)
    ensures Units(a + b) == Units(a) + Units(b)
  {
    if a == [] {
      assert a + b == b;
    } else {
      assert (a + b)[1..] == a[1..] + b;
      UnitsAppend(a[1..], b);
    }
  }

  lemma {:induction false} UnitsOfNarrow(s: string)
    requires forall i :: 0 <= i < |s| ==> Width(s[i]) == 1
    ensures Units(s) == |s|
  {
    if s != [] {
      UnitsOfNarrow(s[1..]);
    }
  }

  lemma EscapeFirstHead(c: char, rest: string, units: nat)
    requires Width(c) <= units
    ensures EscapeFirst([c] + rest, units) == EscapeChar(c) + EscapeFirst(rest, units - Width(c))
  {
    assert ([c] + rest)[1..] == rest;
  }

  lemma SumOfThree(a: string, b: string, c: string)
    ensures a + b + c == a + (b + c)
  {
  }

  /** The cut falls behind the text, into what follows it. */
  lemma {:induction false} EscapeBeyond(s: string, rest: string, more: nat)
    ensures EscapeFirst(s + rest, Units(s) + more) == EscapeAll(s) + EscapeFirst(rest, more)
  {
    hide EscapeFirst, EscapeChar, Width;
    if s == [] {
      assert s + rest == rest;
    } else {
      hide EscapeAll;
      var first, others := [s[0]], s[1..];
      EscapeBeyond(others, rest, more);
      assert s == first + others;
      SumOfThree(first, others, rest);
      EscapeFirstHead(s[0], others + rest, Units(s) + more);
      EscapeAllHead(s);
      SumOfThree(EscapeChar(s[0]), EscapeAll(others), EscapeFirst(rest, more));
    }
  }

  /** Where the cut falls: between two characters, or within the pair of the next one. */
  lemma {:induction false} CutPoint(s: string, units: nat) returns (n: nat)
    requires units < Units(s)
    ensures n < |s|
    ensures || (Units(s[..n]) == units && EscapeFirst(s, units) == EscapeAll(s[..n]))
            || (&& Units(s[..n]) + 1 == units && Width(s[n]) == 2
                && EscapeFirst(s, units) == EscapeAll(s[..n]) + UnicodeEscape(HighSurrogate(s[n])))
  {
    hide EscapeChar, UnicodeEscape, HighSurrogate;
    if units == 0 || Width(s[0]) > units {
      n := 0;
    } else {
      var m := CutPoint(s[1..], units - Width(s[0]));
      n := m + 1;
      hide EscapeFirst, EscapeAll;
      assert s == [s[0]] + s[1..];
      EscapeFirstHead(s[0], s[1..], units);
      assert s[..n] == [s[0]] + s[1..][..m] && s[..n][1..] == s[1..][..m] && s[n] == s[1..][m];
      EscapeAllHead(s[..n]);
    }
  }

  lemma UnicodeEscapeBegins(unit: nat)
    requires unit < 0x10000
    ensures |UnicodeEscape(unit)| == 6 && UnicodeEscape(unit)[0] == '\\'
  {
  }

  /** The parts of long text of the described form. */
  lemma LongParts(text: string) returns (plain: string, run: string, half: nat)
    requires Units(text) > MAX_SEGMENT_LENGTH && Unchanged(text)
    ensures text == plain + run + [ELLIPSIS]
    ensures IsPlain(plain) && IsBackslashes(run) && |run| == 2 * half && Units(text) == MAX_SEGMENT_LENGTH + 1 + half
  {
    hide IsPlain, IsBackslashes, Units;
    half := Units(text) - MAX_SEGMENT_LENGTH - 1;
    var n := |text| - 1 - 2 * half;
    plain, run := text[..n], text[n..|text| - 1];
    assert text == text[..n] + text[n..|text| - 1] + text[|text| - 1..];
  }

  /** Text of the described form is escaped to itself. */
  lemma LongUnchanged(text: string)
    requires Units(text) > MAX_SEGMENT_LENGTH && Unchanged(text)
    ensures EscapeDiagnosticText(text) == text
  {
    hide EscapeAll, IsPlain, IsBackslashes, EscapeFirst, Units, Unchanged;
    var plain, run, half := LongParts(text);
    LongUnits(plain, run, half);
    EscapeHalf(plain, run, half);
    EllipsisIsPlain();
  }

  lemma EscapeHalf(plain: string, run: string, half: nat)
    requires IsPlain(plain) && IsBackslashes(run) && |run| == 2 * half
    ensures EscapeFirst(plain + run + [ELLIPSIS], Units(plain + run[..half])) == plain + run
  {
    hide EscapeAll, IsPlain, EscapeFirst, Units;
    var slashes, behind := run[..half], run[half..];
    assert run == slashes + behind;
    SumOfThree(plain, slashes, behind);
    SumOfThree(plain + slashes, behind, [ELLIPSIS]);
    EscapeBeyond(plain + slashes, behind + [ELLIPSIS], 0);
    EscapeNothing(behind + [ELLIPSIS]);
    EscapeAllAppend(plain, slashes);
    EscapeAllLength(plain);
    RunIsDoubled(slashes, run);
  }

  lemma EscapeNothing(s: string)
    ensures EscapeFirst(s, 0) == []
  {
  }

  /** The middle of the run is where the limit is reached, and the whole is longer by half the run and one. */
  lemma LongUnits(plain: string, run: string, half: nat)
    requires IsBackslashes(run) && |run| == 2 * half
    ensures Units(plain + run[..half]) == Units(plain) + half
    ensures Units(plain + run + [ELLIPSIS]) == Units(plain) + 2 * half + 1
  {
    UnitsAppend(plain, run[..half]);
    UnitsAppend(plain + run, [ELLIPSIS]);
    UnitsAppend(plain, run);
    UnitsOfNarrow(run[..half]);
    UnitsOfNarrow(run);
    UnitsOfNarrow([ELLIPSIS]);
  }

  lemma RunIsDoubled(slashes: string, run: string)
    requires IsBackslashes(run) && slashes <= run && |run| == 2 * |slashes|
    ensures EscapeAll(slashes) == run
  {
    EscapeBackslashes(slashes);
  }

  /** The escaping of text it begins with: the plain part, and twice as many backslashes behind it. */
  lemma PlainThenTwice(s: string) returns (n: nat)
    requires s <= EscapeAll(s)
    ensures n <= |s| && IsPlain(s[..n]) && IsBackslashes(s[n..])
    ensures EscapeAll(s)[..n] == s[..n] && IsBackslashes(EscapeAll(s)[n..]) && |EscapeAll(s)| == 2 * |s| - n
  {
    hide EscapeAll;
    n := PlainThenBackslashes(s);
    assert s == s[..n] + s[n..];
    EscapeAllAppend(s[..n], s[n..]);
    EscapeAllLength(s[..n]);
    EscapeBackslashes(s[n..]);
    assert EscapeAll(s)[n..] == EscapeAll(s[n..]);
  }

  /** Text that continues its own escaping with a backslash also continues its cut with one. */
  lemma BackslashFollows(text: string, k: nat, tail: string)
    requires k < |text| && text == EscapeAll(text[..k]) + tail && tail != [] && tail[0] == '\\'
    ensures text[k] == '\\'
  {
    hide EscapeAll;
    var cut, escaped := text[..k], EscapeAll(text[..k]);
    EscapeAllLength(cut);
    if |escaped| > k {
      assert cut == escaped[..k];
      var n := PlainThenTwice(cut);
      assert text[k] == escaped[n..][k - n];
    }
  }

  /** The cut of long text that is escaped to itself falls between two characters. */
  lemma CutIsClean(text: string) returns (k: nat)
    requires Units(text) > MAX_SEGMENT_LENGTH && EscapeDiagnosticText(text) == text
    ensures k < |text| && Units(text[..k]) == MAX_SEGMENT_LENGTH && text == EscapeAll(text[..k]) + [ELLIPSIS]
  {
    hide EscapeAll, EscapeFirst, Units, UnicodeEscape;
    k := CutPoint(text, MAX_SEGMENT_LENGTH);
    EllipsisIsPlain();
    if Units(text[..k]) != MAX_SEGMENT_LENGTH {
      var half := UnicodeEscape(HighSurrogate(text[k]));
      UnicodeEscapeBegins(HighSurrogate(text[k]));
      assert text == EscapeAll(text[..k]) + (half + [ELLIPSIS]);
      BackslashFollows(text, k, half + [ELLIPSIS]);
    }
  }

  /** Long text that is escaped to itself has the described form. */
  lemma LongFixpoint(text: string)
    requires Units(text) > MAX_SEGMENT_LENGTH && EscapeDiagnosticText(text) == text
    ensures Unchanged(text)
  {
    hide EscapeAll, EscapeFirst, IsPlain, Units, EscapeDiagnosticText;
    var k := CutIsClean(text);
    var cut, escaped := text[..k], EscapeAll(text[..k]);
    EscapeAllLength(cut);
    assert escaped == text[..|escaped|];
    assert cut == escaped[..k];
    var n := PlainThenTwice(cut);
    var plain, run := text[..n], escaped[n..];
    assert text == plain + run + [ELLIPSIS];
    assert cut == plain + run[..k - n];
    LongUnits(plain, run, k - n);
  }

  /** The text that diagnostic escaping leaves unchanged, by its length and its characters. */
  lemma UnchangedExactly(text: string)
    ensures EscapeDiagnosticText(text) == text <==> Unchanged(text)
  {
    if Units(text) <= MAX_SEGMENT_LENGTH {
      EscapeAllLength(text);
    } else if EscapeDiagnosticText(text) == text {
      LongFixpoint(text);
    } else if Unchanged(text) {
      LongUnchanged(text);
    }
  }

  // ---------------------------------------------------------------- tokens

  /** `~` and `/` escaped, in two passes as the printer does. */
  function EncodeToken(token: string): string {
    ReplaceAll(ReplaceAll(token, "~", "~0"), "/", "~1")
  }

  /** `~1` and `~0` resolved, in two passes as the parser does. */
  function DecodeToken(token: string): string {
    ReplaceAll(ReplaceAll(token, "~1", "/"), "~0", "~")
  }

  /** The same, character by character. */
  function Encode(token: string): string {
    if token == [] then []
    else (if token[0] == '~' then "~0" else if token[0] == '/' then "~1" else [token[0]]) + Encode(token[1..])
  }

  /** The same, from left to right. */
  function Decode(token: string): string {
    if token == [] then []
    else if StartsWith(token, "~1") then "/" + Decode(token[2..])
    else if StartsWith(token, "~0") then "~" + Decode(token[2..])
    else [token[0]] + Decode(token[1..])
  }

  predicate HasInvalidEscape(s: string) {
    s != [] && ((s[0] == '~' && !StartsWith(s, "~0") && !StartsWith(s, "~1")) || HasInvalidEscape(s[1..]))
  }

  /** ReplaceAll of a single character works character by character. */
  lemma ReplaceHead(s: string, part: string, replacement: string)
    requires part != [] && s != []
    ensures ReplaceAll(s, part, replacement)
            == if StartsWith(s, part) then replacement + ReplaceAll(s[|part|..], part, replacement)
               else [s[0]] + ReplaceAll(s[1..], part, replacement)
  {
  }

  /** The slash pass leaves an escaped tilde alone. */
  lemma SlashPassAfterTilde(tildes: string)
    ensures ReplaceAll("~0" + tildes, "/", "~1") == "~0" + ReplaceAll(tildes, "/", "~1")
  {
    hide ReplaceAll;
    var tail := ['0'] + tildes;
    assert "~0" + tildes == ['~'] + tail;
    assert (['~'] + tail)[1..] == tail && tail[1..] == tildes;
    ReplaceHead(['~'] + tail, "/", "~1");
    ReplaceHead(tail, "/", "~1");
  }

  lemma {:induction false} EncodeInTwoPasses(token: string)
    ensures EncodeToken(token) == Encode(token)
  {
    if token != [] {
      hide ReplaceAll;
      EncodeInTwoPasses(token[1..]);
      var tildes := ReplaceAll(token[1..], "~", "~0");
      ReplaceHead(token, "~", "~0");
      if token[0] == '~' {
        SlashPassAfterTilde(tildes);
      } else {
        assert ([token[0]] + tildes)[1..] == tildes;
        ReplaceHead([token[0]] + tildes, "/", "~1");
      }
    }
  }

  lemma SlashEscape(token: string)
    requires StartsWith(token, "~1")
    ensures DecodeToken(token) == "/" + DecodeToken(token[2..])
  {
    hide ReplaceAll;
    var slashes := ReplaceAll(token[2..], "~1", "/");
    ReplaceHead(token, "~1", "/");
    assert ("/" + slashes)[1..] == slashes;
    ReplaceHead("/" + slashes, "~0", "~");
  }

  lemma TildeEscape(token: string)
    requires StartsWith(token, "~0")
    ensures DecodeToken(token) == "~" + DecodeToken(token[2..])
  {
    hide ReplaceAll;
    var slashes := ReplaceAll(token[2..], "~1", "/");
    assert token[1..][0] == '0' && token[1..][1..] == token[2..];
    ReplaceHead(token, "~1", "/");
    ReplaceHead(token[1..], "~1", "/");
    assert ReplaceAll(token, "~1", "/") == "~0" + slashes;
    assert ("~0" + slashes)[2..] == slashes;
    ReplaceHead("~0" + slashes, "~0", "~");
  }

  /** A character that begins no escape is kept by both passes. */
  lemma KeptCharacter(token: string)
    requires token != [] && !StartsWith(token, "~1") && !StartsWith(token, "~0")
    ensures DecodeToken(token) == [token[0]] + DecodeToken(token[1..])
  {
    assert ReplaceAll([], "~1", "/") == [];
    hide ReplaceAll;
    var slashes := ReplaceAll(token[1..], "~1", "/");
    ReplaceHead(token, "~1", "/");
    var once := [token[0]] + slashes;
    assert once[1..] == slashes;
    ReplaceHead(once, "~0", "~");
    if token[1..] != [] {
      ReplaceHead(token[1..], "~1", "/");
      assert token[..2] == [token[0], token[1]];
    }
  }

  /** The parser's two passes are one decoding from left to right, on every string. */
  lemma {:induction false} DecodeInTwoPasses(token: string)
    ensures DecodeToken(token) == Decode(token)
    decreases |token|
  {
    if token == [] {
      assert DecodeToken(token) == [];
    } else {
      hide DecodeToken;
      if StartsWith(token, "~1") {
        DecodeInTwoPasses(token[2..]);
        SlashEscape(token);
      } else if StartsWith(token, "~0") {
        DecodeInTwoPasses(token[2..]);
        TildeEscape(token);
      } else {
        DecodeInTwoPasses(token[1..]);
        KeptCharacter(token);
      }
    }
  }

  /** Decoding begins with an escape, or with a character that begins none. */
  lemma DecodeHead(escape: char, rest: string)
    requires escape == '0' || escape == '1'
    ensures Decode(['~', escape] + rest) == (if escape == '0' then "~" else "/") + Decode(rest)
    ensures HasInvalidEscape(['~', escape] + rest) <==> HasInvalidEscape(rest)
  {
    var whole := ['~', escape] + rest;
    assert whole[..2] == ['~', escape] && whole[2..] == rest;
    assert whole[1..] == [escape] + rest && ([escape] + rest)[1..] == rest;
  }

  lemma DecodeKept(c: char, rest: string)
    requires c != '~'
    ensures Decode([c] + rest) == [c] + Decode(rest)
    ensures HasInvalidEscape([c] + rest) <==> HasInvalidEscape(rest)
  {
    assert ([c] + rest)[1..] == rest;
  }

  /** Encoding is undone by decoding and never yields a separator or an invalid escape. */
  lemma {:induction false} DecodeEncode(token: string)
    ensures Decode(Encode(token)) == token
    ensures '/' !in Encode(token) && !HasInvalidEscape(Encode(token))
  {
    if token != [] {
      hide Decode, HasInvalidEscape;
      DecodeEncode(token[1..]);
      var rest := Encode(token[1..]);
      if token[0] == '~' {
        DecodeHead('0', rest);
      } else if token[0] == '/' {
        DecodeHead('1', rest);
      } else {
        DecodeKept(token[0], rest);
      }
      assert token == [token[0]] + token[1..];
    } else {
      assert Encode(token) == [];
    }
  }

  /** Decoding is undone by encoding on whatever a pointer may hold between two separators. */
  lemma {:induction false} EncodeDecode(token: string)
    requires '/' !in token && !HasInvalidEscape(token)
    ensures Encode(Decode(token)) == token
    decreases |token|
  {
    if token != [] {
      if StartsWith(token, "~1") || StartsWith(token, "~0") {
        assert !HasInvalidEscape(token[1..]) && token[1..][1..] == token[2..];
        EncodeDecode(token[2..]);
        var rest := Decode(token[2..]);
        assert ("/" + rest)[1..] == rest && ("~" + rest)[1..] == rest;
        assert token == token[..2] + token[2..];
      } else {
        EncodeDecode(token[1..]);
        assert ([token[0]] + Decode(token[1..]))[1..] == Decode(token[1..]);
      }
    }
  }

  // ---------------------------------------------------------------- whole pointers

  function EncodeAll(tokens: seq<string>): seq<string> {
    seq(|tokens|, i requires 0 <= i < |tokens| => Encode(tokens[i]))
  }

  /** The pointer of a list of tokens, by RFC 6901 section 3. */
  function PointerOf(tokens: seq<string>): string {
    "/" + Join(EncodeAll(tokens), '/')
  }

  function PrintSegments(tokens: seq<string>): seq<string> {
    seq(|tokens|, i requires 0 <= i < |tokens| => EncodeToken(EscapeDiagnosticText(tokens[i])))
  }

  function FormatDiagnosticPath(segments: seq<string>): string {
    if segments == [] then "/" else "/" + Join(PrintSegments(segments), '/')
  }

  datatype PointerFault =
    InvalidSyntax | NonContainer | InvalidArrayIndex | ArrayIndexOutOfBounds | MissingMember

  predicate Accepted(pointer: string) {
    Headed(pointer, ROOT) && !HasInvalidEscape(pointer)
  }

  function DecodeTokens(parts: seq<string>): seq<string> {
    seq(|parts|, i requires 0 <= i < |parts| => DecodeToken(parts[i]))
  }

  function ParseStructuredContentPointer(pointer: string): Result<seq<string>, PointerFault> {
    if !Accepted(pointer) then Failure(InvalidSyntax) else Success(DecodeTokens(Split(pointer[1..], '/')))
  }

  /** An invalid escape of a joined string is one of its parts'. */
  lemma {:induction false} InvalidEscapeSplits(part: string, rest: string)
    ensures HasInvalidEscape(part + "/" + rest) <==> HasInvalidEscape(part) || HasInvalidEscape(rest)
  {
    var whole := part + "/" + rest;
    if part == [] {
      assert whole == "/" + rest && whole[1..] == rest;
    } else {
      assert whole[0] == part[0] && whole[1..] == part[1..] + "/" + rest;
      InvalidEscapeSplits(part[1..], rest);
      TildeLooksAhead(part, whole);
    }
  }

  /** What follows a character in a part, or the separator behind it, decides whether a tilde is valid. */
  lemma TildeLooksAhead(part: string, whole: string)
    requires part != [] && |whole| > |part| && whole[..|part|] == part && whole[|part|] == '/'
    ensures StartsWith(whole, "~0") <==> StartsWith(part, "~0")
    ensures StartsWith(whole, "~1") <==> StartsWith(part, "~1")
  {
    assert whole[..2] == [whole[0], whole[1]];
    if |part| >= 2 {
      assert part[..2] == [part[0], part[1]];
    } else {
      assert whole[1] == '/';
    }
  }

  lemma {:induction false} InvalidEscapeOfJoin(parts: seq<string>)
    requires parts != []
    ensures HasInvalidEscape(Join(parts, '/')) <==> exists i :: 0 <= i < |parts| && HasInvalidEscape(parts[i])
  {
    if |parts| > 1 {
      InvalidEscapeSplits(parts[0], Join(parts[1..], '/'));
      InvalidEscapeOfJoin(parts[1..]);
      assert forall i :: 0 < i < |parts| ==> parts[i] == parts[1..][i - 1];
    }
  }

  predicate IsLetters(s: string) {
    forall i :: 0 <= i < |s| ==> 'A' <= s[i] <= 'Z' || 'a' <= s[i] <= 'z'
  }

  lemma RootIsLetters()
    ensures IsLetters(ROOT) && |ROOT| <= MAX_SEGMENT_LENGTH
  {
  }

  /** Letters are neither escaped nor encoded. */
  lemma LettersAreUnchanged(s: string)
    requires IsLetters(s) && |s| <= MAX_SEGMENT_LENGTH
    ensures Encode(s) == s && DecodeToken(s) == s && EscapeDiagnosticText(s) == s && '/' !in s
  {
    assert IsPlain(s) by {
      forall i | 0 <= i < |s|
        ensures PlainChar(s[i])
      {
        LetterIsPlain(s[i]);
      }
    }
    UnitsOfNarrow(s);
    UnchangedExactly(s);
    assert '/' !in s && '~' !in s;
    KeepsUnescaped(s);
    DecodeEncode(s);
    DecodeInTwoPasses(s);
  }

  lemma LetterIsPlain(c: char)
    requires 'A' <= c <= 'Z' || 'a' <= c <= 'z'
    ensures PlainChar(c)
  {
  }

  lemma {:induction false} KeepsUnescaped(token: string)
    requires '/' !in token && '~' !in token
    ensures Encode(token) == token
  {
    if token != [] {
      KeepsUnescaped(token[1..]);
    }
  }

  /** The pointer consists of the root alone or continues below it. */
  predicate Headed(pointer: string, root: string) {
    pointer == "/" + root || StartsWith(pointer, "/" + root + "/")
  }

  lemma HeadedBy(root: string, rest: string)
    ensures Headed("/" + (root + ['/'] + rest), root)
  {
    var prefix := "/" + root + "/";
    assert "/" + (root + ['/'] + rest) == prefix + rest;
    assert (prefix + rest)[..|prefix|] == prefix;
  }

  lemma JoinIsHeaded(parts: seq<string>, root: string)
    requires parts != [] && parts[0] == root
    ensures Headed("/" + Join(parts, '/'), root)
  {
    if |parts| > 1 {
      var rest := Join(parts[1..], '/');
      assert Join(parts, '/') == root + ['/'] + rest;
      hide Join, Headed;
      HeadedBy(root, rest);
    }
  }

  lemma JoinIsValid(parts: seq<string>)
    requires parts != [] && forall i :: 0 <= i < |parts| ==> !HasInvalidEscape(parts[i])
    ensures !HasInvalidEscape("/" + Join(parts, '/'))
  {
    hide Join, HasInvalidEscape;
    InvalidEscapeOfJoin(parts);
    DecodeKept('/', Join(parts, '/'));
  }

  /** Splitting and decoding undo encoding and joining, whatever the tokens are. */
  lemma PointerSplits(tokens: seq<string>, root: string)
    requires tokens != [] && tokens[0] == root && Encode(root) == root
    ensures Headed(PointerOf(tokens), root) && !HasInvalidEscape(PointerOf(tokens))
    ensures DecodeTokens(Split(PointerOf(tokens)[1..], '/')) == tokens
  {
    var parts := EncodeAll(tokens);
    forall i | 0 <= i < |parts|
      ensures '/' !in parts[i] && !HasInvalidEscape(parts[i]) && DecodeToken(parts[i]) == tokens[i]
    {
      DecodeEncode(tokens[i]);
      DecodeInTwoPasses(parts[i]);
    }
    JoinIsHeaded(parts, root);
    JoinIsValid(parts);
    SplitJoin(parts, '/');
    assert PointerOf(tokens)[1..] == Join(parts, '/');
    assert DecodeTokens(parts) == tokens;
  }

  /** Printing a pointer by the standard and parsing it gives the tokens back, whatever they are. */
  lemma ParseOfPointer(tokens: seq<string>)
    requires tokens != [] && tokens[0] == ROOT
    ensures ParseStructuredContentPointer(PointerOf(tokens)) == Success(tokens)
  {
    RootIsLetters();
    LettersAreUnchanged(tokens[0]);
    PointerSplits(tokens, tokens[0]);
  }

  /** The first token of a headed pointer is the root. */
  lemma HeadOfPointer(pointer: string, root: string)
    requires Headed(pointer, root) && '/' !in root
    ensures pointer[0] == '/' && Split(pointer[1..], '/')[0] == root
  {
    if pointer == "/" + root {
      SplitPart(root, [], '/');
      assert pointer[1..] == root;
    } else {
      var prefix := "/" + root + "/";
      assert pointer == prefix + pointer[|prefix|..];
      assert pointer[1..] == root + ['/'] + pointer[|prefix|..];
      SplitPart(root, pointer[|prefix|..], '/');
    }
  }

  /** Encoding and joining undo splitting and decoding on every pointer with valid escapes. */
  lemma SplitPoints(pointer: string, root: string)
    requires Headed(pointer, root) && !HasInvalidEscape(pointer) && '/' !in root
    ensures PointerOf(DecodeTokens(Split(pointer[1..], '/'))) == pointer
  {
    var parts := Split(pointer[1..], '/');
    var tokens := DecodeTokens(parts);
    HeadOfPointer(pointer, root);
    JoinSplit(pointer[1..], '/');
    InvalidEscapeOfJoin(parts);
    forall i | 0 <= i < |parts|
      ensures EncodeAll(tokens)[i] == parts[i]
    {
      DecodeInTwoPasses(parts[i]);
      EncodeDecode(parts[i]);
    }
    assert EncodeAll(tokens) == parts;
    assert pointer == [pointer[0]] + pointer[1..];
  }

  /** Every accepted pointer is the one its tokens print to, and they are headed by the root. */
  lemma PointerOfParse(pointer: string)
    requires ParseStructuredContentPointer(pointer).Success?
    ensures var tokens := ParseStructuredContentPointer(pointer).value;
            tokens != [] && tokens[0] == ROOT && PointerOf(tokens) == pointer
  {
    RootIsLetters();
    PointerOfHeaded(pointer, ROOT);
  }

  lemma PointerOfHeaded(pointer: string, root: string)
    requires Headed(pointer, root) && !HasInvalidEscape(pointer)
    requires IsLetters(root) && |root| <= MAX_SEGMENT_LENGTH
    ensures var tokens := DecodeTokens(Split(pointer[1..], '/'));
            tokens[0] == root && PointerOf(tokens) == pointer
  {
    LettersAreUnchanged(root);
    HeadOfPointer(pointer, root);
    SplitPoints(pointer, root);
  }

  /** What the diagnostic printer prints is the pointer of the escaped tokens. */
  lemma PrintIsPointer(tokens: seq<string>, escaped: seq<string>)
    requires tokens != [] && |escaped| == |tokens|
    requires forall i :: 0 <= i < |tokens| ==> escaped[i] == EscapeDiagnosticText(tokens[i])
    ensures FormatDiagnosticPath(tokens) == PointerOf(escaped)
  {
    forall i | 0 <= i < |tokens|
      ensures PrintSegments(tokens)[i] == EncodeAll(escaped)[i]
    {
      EncodeInTwoPasses(escaped[i]);
    }
    assert PrintSegments(tokens) == EncodeAll(escaped);
  }

  /**
   The diagnostic printer is undone by the parser exactly on the token lists that diagnostic escaping
   leaves unchanged.
   */
  lemma PrintParseRoundTrip(tokens: seq<string>)
    requires tokens != [] && tokens[0] == ROOT
    ensures ParseStructuredContentPointer(FormatDiagnosticPath(tokens)) == Success(tokens)
            <==> forall i :: 0 <= i < |tokens| ==> Unchanged(tokens[i])
  {
    ParseOfPrint(tokens);
    EscapedTokensSame(tokens);
  }

  lemma EscapedTokensSame(tokens: seq<string>)
    ensures EscapeTokens(tokens) == tokens <==> forall i :: 0 <= i < |tokens| ==> Unchanged(tokens[i])
  {
    hide EscapeDiagnosticText, Unchanged;
    forall i | 0 <= i < |tokens|
      ensures EscapeTokens(tokens)[i] == tokens[i] <==> Unchanged(tokens[i])
    {
      UnchangedExactly(tokens[i]);
    }
  }

  function Repeat(c: char, n: nat): (s: string)
    ensures |s| == n && forall i :: 0 <= i < n ==> s[i] == c
  {
    seq(n, _ => c)
  }

  lemma {:induction false} UnitsOfRepeat(c: char, s: string)
    requires forall i :: 0 <= i < |s| ==> s[i] == c
    ensures Units(s) == |s| * Width(c)
  {
    if s != [] {
      UnitsOfRepeat(c, s[1..]);
    }
  }

  /** A token that is not unchanged does not come back. */
  lemma ChangedIsLost(token: string)
    requires !Unchanged(token)
    ensures ParseStructuredContentPointer(FormatDiagnosticPath([ROOT, token])) != Success([ROOT, token])
  {
    hide ParseStructuredContentPointer, FormatDiagnosticPath, Unchanged;
    PrintParseRoundTrip([ROOT, token]);
    assert [ROOT, token][1] == token;
  }

  const GRINNING: char := '\U{1F600}'

  /**
   Witnesses that it is not always undone: a line break, plain text that is too long by one character, and text that
   is short in characters but not in code units.  Of the last the cut splits the pair.
   */
  lemma PrintIsNotAlwaysUndone(token: string)
    requires || token == "\n" || token == Repeat('a', 129) || token == Repeat(GRINNING, 65)
             || token == Repeat('a', 127) + [GRINNING]
    ensures ParseStructuredContentPointer(FormatDiagnosticPath([ROOT, token])) != Success([ROOT, token])
    ensures token == Repeat('a', 127) + [GRINNING] ==>
              EscapeDiagnosticText(token) == Repeat('a', 127) + "\\ud83d" + [ELLIPSIS]
  {
    if token == "\n" {
      assert token[0] == '\n';
    } else if token == Repeat('a', 129) {
      UnitsOfRepeat('a', token);
    } else if token == Repeat(GRINNING, 65) {
      UnitsOfRepeat(GRINNING, token);
    } else {
      SplitPairIsCut(Repeat('a', 127));
    }
    ChangedIsLost(token);
  }

  lemma HalfOfGrinning()
    ensures Width(GRINNING) == 2 && UnicodeEscape(HighSurrogate(GRINNING)) == "\\ud83d"
    ensures EscapeFirst([GRINNING], 1) == "\\ud83d"
  {
    assert HighSurrogate(GRINNING) == 0xD83D;
  }

  lemma SplitPairIsCut(letters: string)
    requires |letters| == 127 && forall i :: 0 <= i < |letters| ==> letters[i] == 'a'
    ensures !Unchanged(letters + [GRINNING])
    ensures EscapeDiagnosticText(letters + [GRINNING]) == letters + "\\ud83d" + [ELLIPSIS]
  {
    hide EscapeAll, EscapeFirst, Units, UnicodeEscape, HighSurrogate;
    UnitsOfRepeat('a', letters);
    UnitsOfRepeat(GRINNING, [GRINNING]);
    UnitsAppend(letters, [GRINNING]);
    EscapeAllLength(letters);
    EllipsisIsPlain();
    HalfOfGrinning();
    EscapeBeyond(letters, [GRINNING], 1);
  }

  lemma ParseOfPrint(tokens: seq<string>)
    requires tokens != [] && tokens[0] == ROOT
    ensures ParseStructuredContentPointer(FormatDiagnosticPath(tokens)) == Success(EscapeTokens(tokens))
  {
    RootIsLetters();
    PrintHeadIsUnchanged(tokens, tokens[0]);
    ParseOfPointer(EscapeTokens(tokens));
  }

  lemma PrintHeadIsUnchanged(tokens: seq<string>, root: string)
    requires tokens != [] && tokens[0] == root && IsLetters(root) && |root| <= MAX_SEGMENT_LENGTH
    ensures EscapeTokens(tokens)[0] == root
    ensures FormatDiagnosticPath(tokens) == PointerOf(EscapeTokens(tokens))
  {
    LettersAreUnchanged(root);
    PrintIsPointer(tokens, EscapeTokens(tokens));
  }

  function EscapeTokens(tokens: seq<string>): seq<string> {
    seq(|tokens|, i requires 0 <= i < |tokens| => EscapeDiagnosticText(tokens[i]))
  }

  /** Unchanged tokens are printed as the standard has it. */
  lemma PrintOfUnchanged(tokens: seq<string>)
    requires tokens != [] && forall i :: 0 <= i < |tokens| ==> Unchanged(tokens[i])
    ensures FormatDiagnosticPath(tokens) == PointerOf(tokens)
  {
    hide FormatDiagnosticPath, PointerOf, Unchanged, EscapeDiagnosticText;
    EscapedTokensSame(tokens);
    PrintIsPointer(tokens, EscapeTokens(tokens));
  }

  /** And an accepted pointer is the printing of its tokens exactly when escaping leaves them unchanged. */
  lemma ParsePrintRoundTrip(pointer: string)
    requires ParseStructuredContentPointer(pointer).Success?
    ensures var tokens := ParseStructuredContentPointer(pointer).value;
            FormatDiagnosticPath(tokens) == pointer
            <==> forall i :: 0 <= i < |tokens| ==> Unchanged(tokens[i])
  {
    hide ParseStructuredContentPointer, FormatDiagnosticPath, PointerOf, Unchanged;
    PointerOfParse(pointer);
    var tokens := ParseStructuredContentPointer(pointer).value;
    if FormatDiagnosticPath(tokens) == pointer {
      PrintParseRoundTrip(tokens);
    } else if forall i :: 0 <= i < |tokens| ==> Unchanged(tokens[i]) {
      PrintOfUnchanged(tokens);
    }
  }

  // ---------------------------------------------------------------- evaluation

  predicate IsDigit(c: char) {
    '0' <= c <= '9'
  }

  /** `0`, or digits that do not begin with a zero. */
  predicate IsArrayIndex(token: string) {
    && token != [] && (forall i :: 0 <= i < |token| ==> IsDigit(token[i]))
    && (token[0] == '0' ==> |token| == 1)
  }

  function IndexValue(token: string): nat
    requires forall i :: 0 <= i < |token| ==> IsDigit(token[i])
  {
    if token == [] then 0
    else
      assert IsDigit(token[|token| - 1]);
      10 * IndexValue(token[..|token| - 1]) + (token[|token| - 1] as nat - '0' as nat)
  }

  function Decimal(n: nat): string {
    var digit := "0123456789"[n % 10];
    if n < 10 then [digit] else Decimal(n / 10) + [digit]
  }

  lemma {:induction false} DecimalIsIndex(n: nat)
    ensures IsArrayIndex(Decimal(n)) && IndexValue(Decimal(n)) == n
    ensures n > 0 ==> Decimal(n)[0] != '0'
  {
    if n >= 10 {
      DecimalIsIndex(n / 10);
      assert Decimal(n)[..|Decimal(n)| - 1] == Decimal(n / 10);
    }
  }

  lemma DigitOfChar(c: char)
    requires IsDigit(c)
    ensures "0123456789"[c as int - '0' as int] == c
  {
  }

  lemma DecimalAppend(n: nat, digit: nat)
    requires n > 0 && digit < 10
    ensures Decimal(10 * n + digit) == Decimal(n) + ["0123456789"[digit]]
  {
    assert (10 * n + digit) / 10 == n && (10 * n + digit) % 10 == digit;
  }

  lemma DigitIsDecimal(token: string)
    requires |token| == 1 && IsDigit(token[0])
    ensures Decimal(IndexValue(token)) == token && (token[0] != '0' ==> IndexValue(token) > 0)
  {
    assert IndexValue(token[..0]) == 0;
    DigitOfChar(token[0]);
  }

  /** Every array index is the decimal of its value. */
  lemma {:induction false} IndexIsDecimal(token: string)
    requires IsArrayIndex(token)
    ensures Decimal(IndexValue(token)) == token
    ensures token[0] != '0' ==> IndexValue(token) > 0
  {
    hide Decimal;
    if |token| == 1 {
      DigitIsDecimal(token);
    } else {
      var init, last := token[..|token| - 1], token[|token| - 1];
      DigitOfChar(last);
      IndexIsDecimal(init);
      DecimalAppend(IndexValue(init), last as int - '0' as int);
      assert token == init + [last];
    }
  }

  function FindMember(members: seq<Member>, key: string): Option<Json> {
    if members == [] then None
    else if members[0].key == key then Some(members[0].value)
    else FindMember(members[1..], key)
  }

  function ReadMember(current: Json, token: string): Result<Json, PointerFault> {
    match current
    case Array(items) =>
      if !IsArrayIndex(token) || IndexValue(token) > MAX_SAFE_INTEGER then Failure(InvalidArrayIndex)
      else if IndexValue(token) >= |items| then Failure(ArrayIndexOutOfBounds)
      else Success(items[IndexValue(token)])
    case Object(members) =>
      var member := FindMember(members, token);
      if member.None? then Failure(MissingMember) else Success(member.value)
    case _ => Failure(NonContainer)
  }

  function Walk(current: Json, tokens: seq<string>): Result<Json, PointerFault>
    decreases |tokens|
  {
    if tokens == [] then Success(current)
    else
      var next := ReadMember(current, tokens[0]);
      if next.Failure? then next else Walk(next.value, tokens[1..])
  }

  /** The value a pointer leads to, by its tokens. */
  function Resolution(document: Json, pointer: string): Result<Json, PointerFault> {
    match ParseStructuredContentPointer(pointer)
    case Failure(fault) => Failure(fault)
    case Success(tokens) => Walk(document, tokens)
  }

  method ResolveStructuredContentPointer(document: Json, pointer: string) returns (r: Result<Json, PointerFault>)
    ensures r == Resolution(document, pointer)
  {
    var tokens :- ParseStructuredContentPointer(pointer);
    var current := document;
    for i := 0 to |tokens|
      invariant Walk(current, tokens[i..]) == Walk(document, tokens)
    {
      var next := ReadMember(current, tokens[i]);
      if next.Failure? {
        return next;
      }
      current := next.value;
      assert tokens[i..][1..] == tokens[i + 1..];
    }
    r := Success(current);
  }

  /** The member found is the first one with the key, and none is found only if there is none. */
  lemma {:induction false} FoundIsFirst(members: seq<Member>, key: string, i: nat)
    requires i <= |members| && forall j :: 0 <= j < i ==> members[j].key != key
    requires i < |members| ==> members[i].key == key
    ensures FindMember(members, key) == if i < |members| then Some(members[i].value) else None
  {
    if i > 0 {
      FoundIsFirst(members[1..], key, i - 1);
    }
  }

  /** One step: into an array by the decimal of a position, into an object by a key, into nothing else. */
  lemma StepExactly(current: Json, token: string)
    ensures current.Array? ==>
              && (forall n: nat :: token == Decimal(n) && n <= 9007199254740991 ==>
                    ReadMember(current, token)
                    == if n < |current.items| then Success(current.items[n]) else Failure(ArrayIndexOutOfBounds))
              && ((forall n: nat :: token == Decimal(n) ==> n > 9007199254740991) ==>
                    ReadMember(current, token) == Failure(InvalidArrayIndex))
    ensures current.Object? ==>
              ReadMember(current, token)
              == match FindMember(current.members, token)
                 case Some(value) => Success(value)
                 case None => Failure(MissingMember)
    ensures !current.Array? && !current.Object? ==> ReadMember(current, token) == Failure(NonContainer)
  {
    hide Decimal;
    forall n: nat | token == Decimal(n)
      ensures IsArrayIndex(token) && IndexValue(token) == n
    {
      DecimalIsIndex(n);
    }
    if IsArrayIndex(token) {
      IndexIsDecimal(token);
    }
  }

  /** A walk fails with the fault of the first step that fails. */
  lemma {:induction false} FirstFaultIsReported(current: Json, tokens: seq<string>, n: nat)
    requires n < |tokens| && Walk(current, tokens[..n]).Success?
    ensures Walk(current, tokens[..n + 1]) == ReadMember(Walk(current, tokens[..n]).value, tokens[n])
    ensures Walk(current, tokens[..n + 1]).Failure? ==> Walk(current, tokens) == Walk(current, tokens[..n + 1])
    decreases |tokens|
  {
    assert tokens[..n + 1][0] == tokens[0];
    if n > 0 {
      assert tokens[..n][1..] == tokens[1..][..n - 1] && tokens[..n + 1][1..] == tokens[1..][..n];
      FirstFaultIsReported(ReadMember(current, tokens[0]).value, tokens[1..], n - 1);
    } else {
      assert tokens[..1][1..] == [];
    }
  }

  /** A pointer is refused by its syntax exactly if it is that of no token list headed by the root member. */
  lemma RefusedExactly(document: Json, pointer: string)
    ensures Resolution(document, pointer) == Failure(InvalidSyntax)
            <==> !exists tokens: seq<string> ::
                   tokens != [] && tokens[0] == "structuredContent" && PointerOf(tokens) == pointer
  {
    WalkHasSyntax(document, if Accepted(pointer) then ParseStructuredContentPointer(pointer).value else []);
    if Accepted(pointer) {
      PointerOfParse(pointer);
    }
    forall tokens: seq<string> | tokens != [] && tokens[0] == "structuredContent" && PointerOf(tokens) == pointer
      ensures Accepted(pointer)
    {
      ParseOfPointer(tokens);
    }
  }

  lemma {:induction false} WalkHasSyntax(current: Json, tokens: seq<string>)
    ensures Walk(current, tokens) != Failure(InvalidSyntax)
    decreases |tokens|
  {
    if tokens != [] && ReadMember(current, tokens[0]).Success? {
      WalkHasSyntax(ReadMember(current, tokens[0]).value, tokens[1..]);
    }
  }

  /** The value a path of member names and array positions leads to. */
  function At(current: Json, path: seq<Segment>): Option<Json>
    decreases |path|
  {
    if path == [] then Some(current)
    else match (current, path[0])
      case (Object(members), Key(key)) =>
        if FindMember(members, key).Some? then At(FindMember(members, key).value, path[1..]) else None
      case (Array(items), Index(i)) => if i < |items| then At(items[i], path[1..]) else None
      case _ => None
  }

  function TokenOf(step: Segment): string {
    match step
    case Key(key) => key
    case Index(i) => Decimal(i)
  }

  function TokensOf(path: seq<Segment>): seq<string> {
    if path == [] then [] else [TokenOf(path[0])] + TokensOf(path[1..])
  }

  predicate SafeIndices(path: seq<Segment>) {
    forall i :: 0 <= i < |path| && path[i].Index? ==> path[i].index <= MAX_SAFE_INTEGER
  }

  /** Walking the tokens of a path follows the path. */
  lemma {:induction false} WalkFollowsPath(current: Json, path: seq<Segment>)
    requires At(current, path).Some? && SafeIndices(path)
    ensures Walk(current, TokensOf(path)) == Success(At(current, path).value)
    decreases |path|
  {
    if path != [] {
      match (current, path[0])
      case (Object(members), Key(key)) =>
        WalkFollowsPath(FindMember(members, key).value, path[1..]);
      case (Array(items), Index(i)) =>
        DecimalIsIndex(i);
        WalkFollowsPath(items[i], path[1..]);
    }
  }

  /** And every successful walk follows a path of the document. */
  lemma {:induction false} WalkHasPath(current: Json, tokens: seq<string>) returns (path: seq<Segment>)
    requires Walk(current, tokens).Success?
    ensures TokensOf(path) == tokens && At(current, path) == Some(Walk(current, tokens).value) && SafeIndices(path)
    decreases |tokens|
  {
    path := [];
    if tokens != [] {
      var next := ReadMember(current, tokens[0]).value;
      var rest := WalkHasPath(next, tokens[1..]);
      var step := if current.Array? then Index(IndexValue(tokens[0])) else Key(tokens[0]);
      if current.Array? {
        IndexIsDecimal(tokens[0]);
      }
      path := [step] + rest;
      assert path[1..] == rest;
    }
  }

  /** What the evaluation method returns for this pointer. */
  predicate Resolves(document: Json, pointer: string, value: Json) {
    Resolution(document, pointer) == Success(value)
  }

  /** The path starts at the root member, prints to the pointer and leads to the value. */
  predicate LeadsTo(document: Json, path: seq<Segment>, pointer: string, value: Json) {
    && path != [] && path[0] == Key(ROOT) && SafeIndices(path)
    && PointerOf(TokensOf(path)) == pointer
    && At(document, path) == Some(value)
  }

  lemma LettersAreNoIndex(token: string)
    requires IsLetters(token) && token != []
    ensures !IsArrayIndex(token)
  {
    assert !IsDigit(token[0]);
  }

  /** A walk that starts with letters starts at a member. */
  lemma WalkStartsAtMember(document: Json, tokens: seq<string>, root: string) returns (path: seq<Segment>)
    requires Walk(document, tokens).Success? && tokens != [] && tokens[0] == root
    requires IsLetters(root) && root != []
    ensures TokensOf(path) == tokens && At(document, path) == Some(Walk(document, tokens).value) && SafeIndices(path)
    ensures path != [] && path[0] == Key(root)
  {
    path := WalkHasPath(document, tokens);
    assert TokenOf(path[0]) == root;
    LettersAreNoIndex(root);
    if path[0].Index? {
      DecimalIsIndex(path[0].index);
    }
  }

  lemma ResolvedHasPath(document: Json, pointer: string, value: Json) returns (path: seq<Segment>)
    requires Resolves(document, pointer, value)
    ensures LeadsTo(document, path, pointer, value)
  {
    var root := ROOT;
    RootIsLetters();
    PointerOfParse(pointer);
    path := WalkStartsAtMember(document, ParseStructuredContentPointer(pointer).value, root);
  }

  lemma PathResolves(document: Json, path: seq<Segment>, pointer: string, value: Json)
    requires LeadsTo(document, path, pointer, value)
    ensures Resolves(document, pointer, value)
  {
    ParseOfPointer(TokensOf(path));
    WalkFollowsPath(document, path);
  }

  /**
   A pointer resolves to a value exactly when some path of the document, headed by the root member, has this
   pointer and leads to that value.
   */
  lemma ResolvesExactlyPaths(document: Json, pointer: string, value: Json)
    ensures Resolves(document, pointer, value) <==> exists path :: LeadsTo(document, path, pointer, value)
  {
    if Resolves(document, pointer, value) {
      var path := ResolvedHasPath(document, pointer, value);
    }
    forall path | LeadsTo(document, path, pointer, value)
      ensures Resolves(document, pointer, value)
    {
      PathResolves(document, path, pointer, value);
    }
  }
}
