/**
 What printing and parsing mean for one another: parsing undoes printing exactly on values
 whose numbers are safe, and the printed text decides equality of values.
 */
module CanonicalJsonLaws {
  import opened CanonicalJson
  import opened CanonicalJsonParser

  // Strings.

  lemma {:induction false} ScanFindsClose(pre: Text, s: Text, rest: Text)
    ensures ScanClose(pre + EscapeAll(s) + [QUOTE] + rest, |pre|) == Some(|pre| + |EscapeAll(s)| + 1)
    decreases |s|
  {
    hide Escape;
    var t := pre + EscapeAll(s) + [QUOTE] + rest;
    if s == [] {
      assert t[|pre|] == QUOTE;
    } else {
      var e := Escape(s[0]);
      assert t == (pre + e) + EscapeAll(s[1..]) + [QUOTE] + rest;
      ScanFindsClose(pre + e, s[1..], rest);
      assert forall k | 0 <= k < |e| :: t[|pre| + k] == e[k];
      ScanEscape(t, |pre|, s[0]);
    }
  }

  lemma ScanEscape(t: Text, i: nat, u: CodeUnit)
    requires i + |Escape(u)| <= |t|
    requires forall k | 0 <= k < |Escape(u)| :: t[i + k] == Escape(u)[k]
    ensures ScanClose(t, i) == ScanClose(t, i + |Escape(u)|)
  {
    var e := Escape(u);
    assert t[i] == e[0];
    if |e| == 6 {
      assert t[i + 1] == e[1];
      assert t[i + 2] == e[2] && t[i + 3] == e[3] && t[i + 4] == e[4] && t[i + 5] == e[5];
    } else if |e| == 2 {
      assert t[i + 1] == e[1];
    }
  }

  lemma UnescapeOne(u: CodeUnit, tail: Text)
    ensures Unescape(Escape(u) + tail) == [u] + Unescape(tail)
  {
    var e := Escape(u);
    var body := e + tail;
    assert body[|e|..] == tail;
    assert body[0] == e[0];
    if |e| == 6 {
      assert body[1] == LOWER_U && body[2] == ZERO && body[3] == ZERO;
      assert body[4] == e[4] && body[5] == e[5];
      assert HexValue(e[4]) == u / 16 && HexValue(e[5]) == u % 16;
    } else if |e| == 2 {
      assert body[1] == e[1];
    }
  }

  lemma {:induction false} UnescapeUndoesEscape(s: Text)
    ensures Unescape(EscapeAll(s)) == s
  {
    hide Escape;
    if s != [] {
      UnescapeOne(s[0], EscapeAll(s[1..]));
      UnescapeUndoesEscape(s[1..]);
      assert s == [s[0]] + s[1..];
    }
  }

  lemma ParseStringUndoesQuote(s: Text, rest: Text)
    requires WellFormed(s)
    ensures ParseString(Quote(s) + rest) == Got(s, rest)
  {
    hide EscapeAll, Unescape, WellFormed, ScanClose;
    var t := Quote(s) + rest;
    assert t == [QUOTE] + EscapeAll(s) + [QUOTE] + rest;
    ScanFindsClose([QUOTE], s, rest);
    var close := |Quote(s)|;
    assert t[1..close - 1] == EscapeAll(s);
    assert t[close..] == rest;
    UnescapeUndoesEscape(s);
  }

  // Numbers.

  lemma {:induction false} DecimalDigits(n: nat)
    ensures var d := Decimal(n);
            && (forall i | 0 <= i < |d| :: IsDigit(d[i]))
            && DigitsValue(d) == n
            && (n == 0 ==> d == [ZERO])
            && (n > 0 ==> d[0] != ZERO)
  {
    var d := Decimal(n);
    if n < 10 {
      assert d[..|d| - 1] == [];
    } else {
      DecimalDigits(n / 10);
      assert d[..|d| - 1] == Decimal(n / 10);
    }
  }

  /** A number token ends here: what follows can extend neither its digits nor its kind. */
  predicate Delimited(rest: Text) {
    rest == [] || rest[0] in {COMMA, CLOSE_BRACKET, CLOSE_BRACE}
  }

  lemma {:induction false} DigitRunIs(ds: Text, rest: Text)
    requires forall i | 0 <= i < |ds| :: IsDigit(ds[i])
    requires rest == [] || !IsDigit(rest[0])
    ensures DigitRun(ds + rest) == |ds|
  {
    if ds == [] {
      assert ds + rest == rest;
    } else {
      assert (ds + rest)[1..] == ds[1..] + rest;
      DigitRunIs(ds[1..], rest);
    }
  }

  lemma ParseNumberUndoesPrint(n: int, rest: Text, strict: bool)
    requires Delimited(rest)
    ensures ParseNumber(PrintInt(n) + rest, strict) == if strict && !IsSafe(n) then Reject else Got(Num(n), rest)
  {
    hide Decimal, DigitsValue, DigitRun, ParseNumber, ContinuesAsFloat;
    var magnitude := if n < 0 then -n else n;
    var d := Decimal(magnitude);
    DecimalDigits(magnitude);
    DigitRunIs(d, rest);
    NoFloat(rest);
    assert PrintInt(n) == if n < 0 then [MINUS] + d else d;
    if n < 0 {
      ParseNegative(d, rest, strict);
    } else {
      ParseNonnegative(d, rest, strict);
    }
  }

  /** A run of digits that reads as one number. */
  predicate IsNumeral(d: Text, rest: Text) {
    && d != [] && (forall i | 0 <= i < |d| :: IsDigit(d[i]))
    && DigitRun(d + rest) == |d| && (d[0] == ZERO ==> |d| == 1) && !ContinuesAsFloat(rest)
  }

  lemma ParseNonnegative(d: Text, rest: Text, strict: bool)
    requires IsNumeral(d, rest)
    ensures var n: int := DigitsValue(d);
            ParseNumber(d + rest, strict) == if strict && !IsSafe(n) then Reject else Got(Num(n), rest)
  {
    hide DigitsValue, DigitRun, ContinuesAsFloat;
    var t := d + rest;
    assert t[0] == d[0] && t[|d|..] == rest && t[..|d|] == d;
  }

  lemma ParseNegative(d: Text, rest: Text, strict: bool)
    requires IsNumeral(d, rest)
    ensures var magnitude: int := DigitsValue(d);
            ParseNumber([MINUS] + d + rest, strict) == if strict && !IsSafe(-magnitude) then Reject
                else Got(Num(-magnitude), rest)
  {
    hide DigitsValue, DigitRun, ContinuesAsFloat;
    var t, digits := [MINUS] + d + rest, d + rest;
    assert t[0] == MINUS && t[1..] == digits;
    assert digits[0] == d[0] && digits[|d|..] == rest && digits[..|d|] == d;
  }

  lemma NoFloat(rest: Text)
    requires Delimited(rest)
    ensures !ContinuesAsFloat(rest)
  {
  }

  // Values.

  /** What `ParseValue` must return on the printed form of `v` followed by `rest`. */
  ghost function Expected(v: Json, rest: Text, strict: bool): Outcome<Json> {
    if strict && !AllSafe(v) then Reject else Got(v, rest)
  }

  lemma PrintHead(v: Json, tail: Text)
    ensures var t := Print(v) + tail;
            && t[0] == Print(v)[0]
            && SkipSpace(t) == t
            && !StartsWith(t, CLOSE_BRACKET) && !StartsWith(t, CLOSE_BRACE)
  {
    if v.Num? {
      DecimalDigits(if v.n < 0 then -v.n else v.n);
    }
  }

  lemma ScalarUndoesPrint(v: Json, rest: Text, strict: bool)
    requires Canonical(v) && Delimited(rest) && !v.Arr? && !v.Obj?
    ensures ParseValue(Print(v) + rest, strict) == Expected(v, rest, strict)
  {
    hide Decimal, ParseNumber, ParseString, EscapeAll;
    var t := Print(v) + rest;
    PrintHead(v, rest);
    match v
    case Null => assert t[..4] == NULL_TEXT && t[4..] == rest; assert t[0] == NULL_TEXT[0];
    case Bool(b) =>
      if b {
        assert t[..4] == TRUE_TEXT && t[4..] == rest;
      } else {
        assert t[..5] == FALSE_TEXT && t[5..] == rest;
        assert t[0] == FALSE_TEXT[0];
      }
    case Num(n) =>
      ParseNumberUndoesPrint(n, rest, strict);
      DecimalDigits(if n < 0 then -n else n);
      assert IsDigit(t[0]) || t[0] == MINUS;
    case Str(s) => ParseStringUndoesQuote(s, rest);
  }

  /** An array reads as its elements, an object as its members; only the opening unit matters. */
  lemma ContainerOpens(v: Json, inner: Text, strict: bool)
    requires v.Arr? || v.Obj?
    requires SkipSpace(inner) == inner
    requires !StartsWith(inner, CLOSE_BRACKET) && !StartsWith(inner, CLOSE_BRACE)
    ensures v.Arr? ==> ParseValue([OPEN_BRACKET] + inner, strict) == ParseElements(inner, [], strict)
    ensures v.Obj? ==> ParseValue([OPEN_BRACE] + inner, strict) == ParseMembers(inner, map[], strict)
  {
    hide ParseElements, ParseMembers, ParseString, ParseNumber;
    var t := (if v.Arr? then [OPEN_BRACKET] else [OPEN_BRACE]) + inner;
    assert t[1..] == inner;
  }

  lemma {:induction false} ParseUndoesPrint(v: Json, rest: Text, strict: bool)
    requires Canonical(v) && Delimited(rest)
    ensures ParseValue(Print(v) + rest, strict) == Expected(v, rest, strict)
    decreases v, 1, 0
  {
    match v
    case Arr(items) => ArrayUndoesPrint(v, rest, strict);
    case Obj(fields) => ObjectUndoesPrint(v, rest, strict);
    case _ => ScalarUndoesPrint(v, rest, strict);
  }

  lemma {:induction false} ArrayUndoesPrint(v: Json, rest: Text, strict: bool)
    requires Canonical(v) && Delimited(rest) && v.Arr?
    ensures ParseValue(Print(v) + rest, strict) == Expected(v, rest, strict)
    decreases v, 0, |v.items| + 1
  {
    hide ParseValue, ParseElements, PrintItems;
    if v.items == [] {
      EmptyUndoesPrint(v, rest, strict);
    } else {
      var inner := PrintItems(v.items) + ([CLOSE_BRACKET] + rest);
      assert Print(v) + rest == [OPEN_BRACKET] + inner;
      PrintItemsHead(v.items, [CLOSE_BRACKET] + rest);
      ContainerOpens(v, inner, strict);
      ElementsUndoPrint(v, 0, rest, strict);
      assert v.items[0..] == v.items && v.items[..0] == [];
    }
  }

  lemma {:induction false} ObjectUndoesPrint(v: Json, rest: Text, strict: bool)
    requires Canonical(v) && Delimited(rest) && v.Obj?
    ensures ParseValue(Print(v) + rest, strict) == Expected(v, rest, strict)
    decreases v, 0, |v.fields| + 1
  {
    hide ParseValue, ParseMembers, PrintMembers, SortedKeys;
    var fields, keys := v.fields, SortedKeys(v.fields.Keys);
    if keys == [] {
      assert fields.Keys == {};
      EmptyUndoesPrint(v, rest, strict);
    } else {
      var inner := PrintMembers(v, keys) + ([CLOSE_BRACE] + rest);
      assert Print(v) + rest == [OPEN_BRACE] + inner;
      PrintMembersHead(v, keys, [CLOSE_BRACE] + rest);
      ContainerOpens(v, inner, strict);
      assert SafeFrom(v, keys, 0) == forall j | 0 <= j < |keys| :: AllSafe(v.fields[keys[j]]);
      MembersUndoPrint(v, keys, 0, rest, strict);
      assert keys[0..] == keys && keys[..|keys|] == keys;
      assert Prefix(fields, keys, 0) == map[];
      assert Prefix(fields, keys, |keys|) == fields;
      SafeMembers(v, keys);
    }
  }

  lemma SafeMembers(v: Json, keys: seq<Text>)
    requires v.Obj? && forall k :: k in keys <==> k in v.fields
    ensures AllSafe(v) <==> forall j | 0 <= j < |keys| :: AllSafe(v.fields[keys[j]])
  {
    if forall j | 0 <= j < |keys| :: AllSafe(v.fields[keys[j]]) {
      forall k | k in v.fields
        ensures AllSafe(v.fields[k])
      {
        var j :| 0 <= j < |keys| && keys[j] == k;
      }
    }
  }

  lemma EmptyUndoesPrint(v: Json, rest: Text, strict: bool)
    requires v == Arr([]) || (v.Obj? && v.fields.Keys == {})
    ensures ParseValue(Print(v) + rest, strict) == Expected(v, rest, strict)
  {
    hide ParseElements, ParseMembers;
    var t := Print(v) + rest;
    if v.Arr? {
      assert t == [OPEN_BRACKET, CLOSE_BRACKET] + rest;
    } else {
      assert v == Obj(map[]);
      assert SortedKeys({}) == [];
      assert t == [OPEN_BRACE, CLOSE_BRACE] + rest;
    }
    assert SkipSpace(t[1..]) == t[1..];
    assert t[2..] == rest;
  }

  lemma PrintItemsHead(items: seq<Json>, tail: Text)
    requires items != []
    ensures var t := PrintItems(items) + tail;
            SkipSpace(t) == t && !StartsWith(t, CLOSE_BRACKET) && !StartsWith(t, CLOSE_BRACE)
  {
    var more := PrintItems(items)[|Print(items[0])|..];
    assert PrintItems(items) + tail == Print(items[0]) + (more + tail);
    PrintHead(items[0], more + tail);
  }

  lemma PrintMembersHead(v: Json, keys: seq<Text>, tail: Text)
    requires v.Obj? && keys != [] && forall k | k in keys :: k in v.fields
    ensures var t := PrintMembers(v, keys) + tail; SkipSpace(t) == t && StartsWith(t, QUOTE)
  {
    assert PrintMember(v, keys[0])[0] == QUOTE;
    assert PrintMembers(v, keys)[0] == QUOTE;
  }

  /** Reading the elements from index `i` on, after `items[..i]` have been read. */
  lemma {:induction false} ElementsUndoPrint(v: Json, i: nat, rest: Text, strict: bool)
    requires v.Arr? && Canonical(v) && i < |v.items|
    ensures var safe := forall j | i <= j < |v.items| :: AllSafe(v.items[j]);
            ParseElements(PrintItems(v.items[i..]) + ([CLOSE_BRACKET] + rest), v.items[..i], strict)
            == if strict && !safe then Reject else Got(v, rest)
    decreases v, 0, |v.items| - i
  {
    hide Print, ParseValue;
    var items := v.items;
    var suffix := items[i..];
    assert suffix[0] == items[i] && suffix[1..] == items[i + 1..];
    assert items[..i] + [items[i]] == items[..i + 1];
    var t := PrintItems(suffix) + ([CLOSE_BRACKET] + rest);
    if i + 1 == |items| {
      ParseUndoesPrint(items[i], [CLOSE_BRACKET] + rest, strict);
      assert items[..i + 1] == items;
      assert ([CLOSE_BRACKET] + rest)[1..] == rest;
    } else {
      var tail := PrintItems(items[i + 1..]) + ([CLOSE_BRACKET] + rest);
      assert t == Print(items[i]) + ([COMMA] + tail);
      ParseUndoesPrint(items[i], [COMMA] + tail, strict);
      assert ([COMMA] + tail)[1..] == tail;
      ElementsUndoPrint(v, i + 1, rest, strict);
    }
  }

  ghost function Prefix(fields: map<Text, Json>, keys: seq<Text>, n: nat): map<Text, Json>
    requires n <= |keys| && forall k | k in keys :: k in fields
  {
    map k | k in fields && k in keys[..n] :: fields[k]
  }

  /** One member, given what its value reads as. */
  lemma OneMemberUndoesPrint(v: Json, k: Text, tail: Text, parsed: map<Text, Json>, strict: bool)
    requires v.Obj? && k in v.fields && k !in parsed && WellFormed(k) && !DangerousKey(k)
    requires tail != [] && tail[0] in {COMMA, CLOSE_BRACE}
    requires ParseValue(Print(v.fields[k]) + tail, strict) == Expected(v.fields[k], tail, strict)
    ensures var value := v.fields[k];
            ParseMembers(PrintMember(v, k) + tail, parsed, strict)
            == if strict && !AllSafe(value) then Reject
               else if tail[0] == CLOSE_BRACE then Got(Obj(parsed[k := value]), tail[1..])
               else ParseMembers(tail[1..], parsed[k := value], strict)
  {
    hide Print, EscapeAll, ParseValue, ParseString, DangerousKey, WellFormed, AllSafe;
    var value := v.fields[k];
    var t := PrintMember(v, k) + tail;
    var afterKey := [COLON] + Print(value) + tail;
    assert t == Quote(k) + afterKey;
    assert t[0] == QUOTE;
    ParseStringUndoesQuote(k, afterKey);
    assert SkipSpace(afterKey) == afterKey;
    assert afterKey[1..] == Print(value) + tail;
    assert SkipSpace(tail) == tail;
  }

  predicate SafeFrom(v: Json, keys: seq<Text>, i: nat)
    requires v.Obj? && forall k | k in keys :: k in v.fields
  {
    forall j | i <= j < |keys| :: AllSafe(v.fields[keys[j]])
  }

  lemma ReadSoFar(v: Json, keys: seq<Text>, i: nat)
    requires v.Obj? && Ascending(keys) && i < |keys| && forall k | k in keys :: k in v.fields
    ensures keys[i] !in Prefix(v.fields, keys, i)
    ensures Prefix(v.fields, keys, i)[keys[i] := v.fields[keys[i]]] == Prefix(v.fields, keys, i + 1)
    ensures SafeFrom(v, keys, i) == (AllSafe(v.fields[keys[i]]) && (i + 1 == |keys| || SafeFrom(v, keys, i + 1)))
  {
    hide AllSafe;
    KeyIsNew(keys, i);
    assert keys[..i + 1] == keys[..i] + [keys[i]];
  }

  /** What follows the `i`-th member in the printed object. */
  function MembersTail(v: Json, keys: seq<Text>, i: nat, rest: Text): Text
    requires v.Obj? && i < |keys| && forall k | k in keys :: k in v.fields
  {
    if i + 1 == |keys| then [CLOSE_BRACE] + rest
    else [COMMA] + (PrintMembers(v, keys[i + 1..]) + ([CLOSE_BRACE] + rest))
  }

  lemma MembersText(v: Json, keys: seq<Text>, i: nat, rest: Text)
    requires v.Obj? && i < |keys| && forall k | k in keys :: k in v.fields
    ensures PrintMembers(v, keys[i..]) + ([CLOSE_BRACE] + rest) == PrintMember(v, keys[i])
            + MembersTail(v, keys, i, rest)
    ensures var tail := MembersTail(v, keys, i, rest);
            && tail != []
            && (if i + 1 == |keys| then tail[0] == CLOSE_BRACE && tail[1..] == rest
                else tail[0] == COMMA && tail[1..] == PrintMembers(v, keys[i + 1..]) + ([CLOSE_BRACE] + rest))
  {
    hide PrintMember;
    var suffix := keys[i..];
    assert suffix[0] == keys[i] && suffix[1..] == keys[i + 1..];
  }

  /** Reading the members from the `i`-th key on, after the first `i` have been read. */
  lemma {:induction false} MembersUndoPrint(v: Json, keys: seq<Text>, i: nat, rest: Text, strict: bool)
    requires v.Obj? && Canonical(v) && i < |keys| && Ascending(keys) && forall k | k in keys :: k in v.fields
    ensures ParseMembers(PrintMembers(v, keys[i..]) + ([CLOSE_BRACE] + rest), Prefix(v.fields, keys, i), strict)
            == if strict && !SafeFrom(v, keys, i) then Reject else Got(Obj(Prefix(v.fields, keys, |keys|)), rest)
    decreases v, 0, |keys| - i
  {
    var k := keys[i];
    assert WellFormed(k) && !DangerousKey(k) && Canonical(v.fields[k]);
    hide Print, PrintMembers, ParseValue, ParseMembers, DangerousKey, WellFormed, PrintMember, SafeFrom, AllSafe;
    hide Prefix, MembersTail, Ascending;
    ReadSoFar(v, keys, i);
    MembersText(v, keys, i, rest);
    var tail := MembersTail(v, keys, i, rest);
    ParseUndoesPrint(v.fields[k], tail, strict);
    OneMemberUndoesPrint(v, k, tail, Prefix(v.fields, keys, i), strict);
    if i + 1 < |keys| {
      MembersUndoPrint(v, keys, i + 1, rest, strict);
    }
  }

  lemma KeyIsNew(keys: seq<Text>, i: nat)
    requires Ascending(keys) && i < |keys|
    ensures keys[i] !in keys[..i]
  {
    LessIsIrreflexive(keys[i]);
  }

  // The main laws.

  /** Parsing a printed value gives it back exactly when all of its numbers are safe integers. */
  lemma RoundTrip(v: Json)
    requires Canonical(v)
    ensures Parse(Print(v)) == if AllSafe(v) then Accepted(v) else Refused
  {
    assert Print(v) + [] == Print(v);
    ParseUndoesPrint(v, [], true);
  }

  /** JSON.parse of a printed value: what the repository's `cloneJson` computes. */
  lemma CloneIsIdentity(v: Json)
    requires Canonical(v)
    ensures ParseText(Print(v), false) == Accepted(v)
  {
    assert Print(v) + [] == Print(v);
    ParseUndoesPrint(v, [], false);
  }

  /** The printed text decides equality, for numbers beyond the safe range as well. */
  lemma EncodingDecidesEquality(a: Json, b: Json)
    requires Canonical(a) && Canonical(b)
    ensures Print(a) == Print(b) <==> a == b
  {
    CloneIsIdentity(a);
    CloneIsIdentity(b);
  }

  /** Every value the strict parser produces is one the encoder accepts, with safe numbers only. */
  lemma {:induction false} ParsedIsCanonical(t: Text)
    ensures ParseValue(t, true).Got? ==> Canonical(ParseValue(t, true).value) && AllSafe(ParseValue(t, true).value)
    decreases |t|, 1
  {
    hide ParseString, ParseNumber, WellFormed;
    var u := SkipSpace(t);
    if StartsWith(u, QUOTE) {
    } else if StartsWith(u, OPEN_BRACKET) {
      ParsedElementsAreCanonical(SkipSpace(u[1..]), []);
    } else if StartsWith(u, OPEN_BRACE) {
      ParsedMembersAreCanonical(SkipSpace(u[1..]), map[]);
    }
  }

  lemma {:induction false} ParsedElementsAreCanonical(t: Text, parsed: seq<Json>)
    requires Canonical(Arr(parsed)) && AllSafe(Arr(parsed))
    ensures var r := ParseElements(t, parsed, true); r.Got? ==> Canonical(r.value) && AllSafe(r.value)
    decreases |t|, 2
  {
    hide ParseValue;
    ParsedIsCanonical(t);
    match ParseValue(t, true)
    case Got(v, rest) =>
      var after := SkipSpace(rest);
      assert Canonical(Arr(parsed + [v])) && AllSafe(Arr(parsed + [v]));
      if StartsWith(after, COMMA) {
        ParsedElementsAreCanonical(after[1..], parsed + [v]);
      }
    case _ =>
  }

  lemma {:induction false} ParsedMembersAreCanonical(t: Text, parsed: map<Text, Json>)
    requires Canonical(Obj(parsed)) && AllSafe(Obj(parsed))
    ensures var r := ParseMembers(t, parsed, true); r.Got? ==> Canonical(r.value) && AllSafe(r.value)
    decreases |t|, 3
  {
    hide ParseMember, WellFormed, DangerousKey;
    ParsedMemberIsCanonical(t, parsed.Keys);
    match ParseMember(t, parsed.Keys, true)
    case Got(member, rest) =>
      var more := parsed[member.0 := member.1];
      assert Canonical(Obj(more)) && AllSafe(Obj(more));
      var after := SkipSpace(rest);
      if StartsWith(after, COMMA) {
        ParsedMembersAreCanonical(after[1..], more);
      }
    case _ =>
  }

  lemma {:induction false} ParsedMemberIsCanonical(t: Text, taken: set<Text>)
    ensures var r := ParseMember(t, taken, true);
            r.Got? ==> WellFormed(r.value.0) && !DangerousKey(r.value.0) && Canonical(r.value.1) && AllSafe(r.value.1)
    decreases |t|, 2
  {
    hide ParseValue, ParseString, WellFormed, DangerousKey;
    var name := ParseString(SkipSpace(t));
    if name.Got? && StartsWith(SkipSpace(name.rest), COLON) {
      ParsedIsCanonical(SkipSpace(name.rest)[1..]);
    }
  }

  /**
   For every accepted text, the parser's last line never throws, and printing the result is
   the canonical text: parsing it again changes neither the value nor the text.
   */
  lemma AcceptedTextHasCanonicalForm(text: Text)
    requires Parse(text).Accepted?
    ensures var v := Parse(text).value;
            && Encode(v) == Some(Print(v))
            && Parse(Print(v)) == Accepted(v)
  {
    ParsedIsCanonical(text);
    RoundTrip(Parse(text).value);
  }
}
