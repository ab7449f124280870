/**
 The canonical JSON parser as a function on the unread text. `strict` is the parser the
 repository exports, which refuses unsafe plain integers; with `strict` false the same
 grammar is read without that test, as the built-in JSON.parse reads it.
 */
module CanonicalJsonParser {
  import opened CanonicalJson

  /**
   `Outside` is a number with a fraction or an exponent: floating-point values are not
   part of this model.
   */
  datatype Outcome<+T> = Got(value: T, rest: Text) | Reject | Outside

  predicate IsSpace(u: CodeUnit) {
    u == 0x09 || u == 0x0A || u == 0x0D || u == 0x20
  }

  predicate IsDigit(u: CodeUnit) {
    0x30 <= u <= 0x39
  }

  predicate IsHex(u: CodeUnit) {
    IsDigit(u) || 0x41 <= u <= 0x46 || 0x61 <= u <= 0x66
  }

  predicate StartsWith(t: Text, u: CodeUnit) {
    t != [] && t[0] == u
  }

  function SkipSpace(t: Text): (r: Text)
    ensures |r| <= |t|
    ensures r == [] || !IsSpace(r[0])
  {
    if t != [] && IsSpace(t[0]) then SkipSpace(t[1..]) else t
  }

  // Strings: the scan that finds the closing quote, then the built-in unescape.

  predicate SimpleEscape(u: CodeUnit) {
    u == QUOTE || u == BACKSLASH || u == 0x2F || u == 0x62 || u == 0x66 || u == 0x6E || u == 0x72 || u == 0x74
  }

  /** From an index inside a string literal, the index just past its closing quote. */
  function ScanClose(t: Text, i: nat): (r: Option<nat>)
    requires i <= |t|
    ensures r.Some? ==> i < r.value <= |t|
    decreases |t| - i
  {
    if i == |t| then None
    else if t[i] == QUOTE then Some(i + 1)
    else if t[i] == BACKSLASH then
      if i + 1 == |t| then None
      else if t[i + 1] == LOWER_U then
        if i + 6 <= |t| && forall k | i + 2 <= k < i + 6 :: IsHex(t[k]) then ScanClose(t, i + 6) else None
      else if SimpleEscape(t[i + 1]) then ScanClose(t, i + 2)
      else None
    else if t[i] < 0x20 then None
    else ScanClose(t, i + 1)
  }

  function HexValue(u: CodeUnit): (d: int)
    ensures 0 <= d < 16
  {
    if u <= 0x39 then (u - 0x30) % 16
    else if u <= 0x46 then (u - 0x37) % 16
    else (u - 0x57) % 16
  }

  function EscapedUnit(u: CodeUnit): CodeUnit {
    if u == 0x62 then 0x08
    else if u == 0x66 then 0x0C
    else if u == 0x6E then 0x0A
    else if u == 0x72 then 0x0D
    else if u == 0x74 then 0x09
    else u
  }

  /** The string a scanned literal body denotes. */
  function Unescape(body: Text): Text {
    if body == [] then []
    else if body[0] != BACKSLASH then [body[0]] + Unescape(body[1..])
    else if |body| >= 6 && body[1] == LOWER_U then
      [((HexValue(body[2]) * 16 + HexValue(body[3])) * 16 + HexValue(body[4])) * 16 + HexValue(body[5])]
          + Unescape(body[6..])
    else if |body| >= 2 then [EscapedUnit(body[1])] + Unescape(body[2..])
    else []
  }

  function ParseString(t: Text): (r: Outcome<Text>)
    ensures r.Got? ==> |r.rest| < |t| && WellFormed(r.value)
    ensures !r.Outside?
  {
    if !StartsWith(t, QUOTE) then Reject
    else
      var close := ScanClose(t, 1);
      if close.None? then Reject
      else
        var value := Unescape(t[1..close.value - 1]);
        if WellFormed(value) then Got(value, t[close.value..]) else Reject
  }

  // Numbers.

  function DigitRun(t: Text): (n: nat)
    ensures n <= |t|
    ensures forall i | 0 <= i < n :: IsDigit(t[i])
    ensures n == |t| || !IsDigit(t[n])
  {
    if t != [] && IsDigit(t[0]) then 1 + DigitRun(t[1..]) else 0
  }

  function DigitsValue(ds: Text): (n: nat)
    requires forall i | 0 <= i < |ds| :: IsDigit(ds[i])
  {
    if ds == [] then 0
    else
      assert IsDigit(ds[|ds| - 1]);
      10 * DigitsValue(ds[..|ds| - 1]) + (ds[|ds| - 1] as int - 0x30)
  }

  /** Whether a fraction or an exponent continues the number. */
  predicate ContinuesAsFloat(t: Text) {
    || (|t| >= 2 && t[0] == 0x2E && IsDigit(t[1]))
    || (|t| >= 2 && (t[0] == 0x65 || t[0] == 0x45)
        && (IsDigit(t[1]) || (|t| >= 3 && (t[1] == 0x2B || t[1] == MINUS) && IsDigit(t[2]))))
  }

  function ParseNumber(t: Text, strict: bool): (r: Outcome<Json>)
    ensures r.Got? ==> |r.rest| < |t| && r.value.Num?
    ensures r.Got? && strict ==> IsSafe(r.value.n)
  {
    var negative := StartsWith(t, MINUS);
    var digits := if negative then t[1..] else t;
    if digits == [] || !IsDigit(digits[0]) then Reject
    else
      var length := if digits[0] == ZERO then 1 else DigitRun(digits);
      var rest := digits[length..];
      if ContinuesAsFloat(rest) then Outside
      else
        var magnitude: int := DigitsValue(digits[..length]);
        var n: int := if negative then -magnitude else magnitude;
        if strict && !IsSafe(n) then Reject else Got(Num(n), rest)
  }

  // Values.

  predicate HasPrefix(t: Text, token: Text) {
    |token| <= |t| && t[..|token|] == token
  }

  function ParseValue(input: Text, strict: bool): (r: Outcome<Json>)
    ensures r.Got? ==> |r.rest| < |input|
    decreases |input|, 1
  {
    var t := SkipSpace(input);
    if StartsWith(t, QUOTE) then
      match ParseString(t)
      case Got(s, rest) => Got(Str(s), rest)
      case _ => Reject
    else if StartsWith(t, OPEN_BRACKET) then
      var t1 := SkipSpace(t[1..]);
      if StartsWith(t1, CLOSE_BRACKET) then Got(Arr([]), t1[1..]) else ParseElements(t1, [], strict)
    else if StartsWith(t, OPEN_BRACE) then
      var t1 := SkipSpace(t[1..]);
      if StartsWith(t1, CLOSE_BRACE) then Got(Obj(map[]), t1[1..]) else ParseMembers(t1, map[], strict)
    else if HasPrefix(t, TRUE_TEXT) then Got(Bool(true), t[4..])
    else if HasPrefix(t, FALSE_TEXT) then Got(Bool(false), t[5..])
    else if HasPrefix(t, NULL_TEXT) then Got(Null, t[4..])
    else ParseNumber(t, strict)
  }

  function ParseElements(t: Text, parsed: seq<Json>, strict: bool): (r: Outcome<Json>)
    ensures r.Got? ==> |r.rest| < |t|
    decreases |t|, 2
  {
    match ParseValue(t, strict)
    case Got(v, rest) =>
      var after := SkipSpace(rest);
      if StartsWith(after, CLOSE_BRACKET) then Got(Arr(parsed + [v]), after[1..])
      else if StartsWith(after, COMMA) then ParseElements(after[1..], parsed + [v], strict)
      else Reject
    case Reject => Reject
    case Outside => Outside
  }

  /** A key that is new and harmless, a colon, and a value. */
  function ParseMember(t: Text, taken: set<Text>, strict: bool): (r: Outcome<(Text, Json)>)
    ensures r.Got? ==> |r.rest| < |t|
    decreases |t|, 2
  {
    match ParseString(SkipSpace(t))
    case Reject => Reject
    case Outside => Outside
    case Got(key, afterKey) =>
      var colon := SkipSpace(afterKey);
      if key in taken || DangerousKey(key) || !StartsWith(colon, COLON) then Reject
      else
        match ParseValue(colon[1..], strict)
        case Got(v, rest) => Got((key, v), rest)
        case Reject => Reject
        case Outside => Outside
  }

  function ParseMembers(t: Text, parsed: map<Text, Json>, strict: bool): (r: Outcome<Json>)
    ensures r.Got? ==> |r.rest| < |t|
    decreases |t|, 3
  {
    match ParseMember(t, parsed.Keys, strict)
    case Got(member, rest) =>
      var after := SkipSpace(rest);
      var more := parsed[member.0 := member.1];
      if StartsWith(after, CLOSE_BRACE) then Got(Obj(more), after[1..])
      else if StartsWith(after, COMMA) then ParseMembers(after[1..], more, strict)
      else Reject
    case Reject => Reject
    case Outside => Outside
  }

  datatype Parsed = Accepted(value: Json) | Refused | OutsideModel

  /** `parseCanonicalJsonV2` up to its last line, which encodes the result and discards the text. */
  function ParseText(text: Text, strict: bool): Parsed {
    match ParseValue(text, strict)
    case Got(v, rest) => if SkipSpace(rest) == [] then Accepted(v) else Refused
    case Reject => Refused
    case Outside => OutsideModel
  }

  function Parse(text: Text): Parsed {
    ParseText(text, true)
  }
}
