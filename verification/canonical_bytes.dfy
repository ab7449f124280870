/** The bytes `canonicalJsonV2` returns: the canonical text in UTF-8. */
module CanonicalBytes {
  import opened CanonicalJson
  import opened CanonicalJsonLaws
  import opened Utf8

  lemma {:induction false} WellFormedConcat(a: Text, b: Text)
    requires WellFormed(a) && WellFormed(b)
    ensures WellFormed(a + b)
  {
    if a == [] {
      assert a + b == b;
    } else {
      var n := if HighSurrogate(a[0]) then 2 else 1;
      WellFormedConcat(a[n..], b);
      assert (a + b)[n..] == a[n..] + b;
    }
  }

  predicate NoSurrogates(t: Text) {
    forall i | 0 <= i < |t| :: t[i] < 0xD800
  }

  lemma {:induction false} PlainTextIsWellFormed(t: Text)
    requires NoSurrogates(t)
    ensures WellFormed(t)
  {
    if t != [] {
      PlainTextIsWellFormed(t[1..]);
    }
  }

  lemma {:induction false} EscapeIsWellFormed(s: Text)
    requires WellFormed(s)
    ensures WellFormed(EscapeAll(s))
  {
    if s != [] {
      if HighSurrogate(s[0]) {
        EscapeIsWellFormed(s[2..]);
        assert s[1..][1..] == s[2..];
        assert EscapeAll(s) == [s[0], s[1]] + EscapeAll(s[2..]);
        assert EscapeAll(s)[2..] == EscapeAll(s[2..]);
      } else {
        EscapeIsWellFormed(s[1..]);
        PlainOrSame(s[0]);
        WellFormedConcat(Escape(s[0]), EscapeAll(s[1..]));
      }
    }
  }

  lemma PlainOrSame(u: CodeUnit)
    requires !HighSurrogate(u) && !LowSurrogate(u)
    ensures WellFormed(Escape(u))
  {
    var e := Escape(u);
    if e == [u] {
      assert e[1..] == [];
    } else {
      PlainTextIsWellFormed(e);
    }
  }

  lemma QuoteIsWellFormed(s: Text)
    requires WellFormed(s)
    ensures WellFormed(Quote(s))
  {
    EscapeIsWellFormed(s);
    PlainTextIsWellFormed([QUOTE]);
    WellFormedConcat([QUOTE], EscapeAll(s));
    WellFormedConcat([QUOTE] + EscapeAll(s), [QUOTE]);
  }

  lemma {:induction false} PrintIsWellFormed(v: Json)
    requires Canonical(v)
    ensures WellFormed(Print(v))
    decreases v, 1, 0
  {
    hide WellFormed, Quote, DangerousKey;
    match v
    case Null => PlainTextIsWellFormed(NULL_TEXT);
    case Bool(b) => PlainTextIsWellFormed(if b then TRUE_TEXT else FALSE_TEXT);
    case Num(n) =>
      DecimalDigits(if n < 0 then -n else n);
      PlainTextIsWellFormed(PrintInt(n));
    case Str(s) => QuoteIsWellFormed(s);
    case Arr(items) =>
      PrintItemsIsWellFormed(items);
      Bracketed([OPEN_BRACKET], PrintItems(items), [CLOSE_BRACKET]);
    case Obj(fields) =>
      var keys := SortedKeys(fields.Keys);
      PrintMembersIsWellFormed(v, keys);
      Bracketed([OPEN_BRACE], PrintMembers(v, keys), [CLOSE_BRACE]);
  }

  lemma Bracketed(open: Text, t: Text, close: Text)
    requires NoSurrogates(open) && NoSurrogates(close) && WellFormed(t)
    ensures WellFormed(open + t + close)
  {
    PlainTextIsWellFormed(open);
    PlainTextIsWellFormed(close);
    WellFormedConcat(open, t);
    WellFormedConcat(open + t, close);
  }

  lemma {:induction false} PrintItemsIsWellFormed(items: seq<Json>)
    requires forall i | 0 <= i < |items| :: Canonical(items[i])
    ensures WellFormed(PrintItems(items))
    decreases items, 0, 0
  {
    if items != [] {
      PrintIsWellFormed(items[0]);
      if |items| > 1 {
        PrintItemsIsWellFormed(items[1..]);
        Bracketed([], Print(items[0]), [COMMA]);
        assert [] + Print(items[0]) + [COMMA] == Print(items[0]) + [COMMA];
        WellFormedConcat(Print(items[0]) + [COMMA], PrintItems(items[1..]));
      }
    }
  }

  lemma {:induction false} PrintMembersIsWellFormed(v: Json, keys: seq<Text>)
    requires v.Obj? && Canonical(v) && forall k | k in keys :: k in v.fields
    ensures WellFormed(PrintMembers(v, keys))
    decreases v, 0, |keys|
  {
    hide WellFormed, Quote, DangerousKey;
    if keys != [] {
      var k := keys[0];
      QuoteIsWellFormed(k);
      PrintIsWellFormed(v.fields[k]);
      PlainTextIsWellFormed([COLON]);
      WellFormedConcat(Quote(k), [COLON]);
      WellFormedConcat(Quote(k) + [COLON], Print(v.fields[k]));
      if |keys| > 1 {
        PrintMembersIsWellFormed(v, keys[1..]);
        PlainTextIsWellFormed([COMMA]);
        WellFormedConcat(PrintMember(v, k), [COMMA]);
        WellFormedConcat(PrintMember(v, k) + [COMMA], PrintMembers(v, keys[1..]));
      } else {
        PlainTextIsWellFormed([]);
      }
    } else {
      PlainTextIsWellFormed([]);
    }
  }

  function Bytes(v: Json): seq<Byte>
    requires Canonical(v)
  {
    PrintIsWellFormed(v);
    Utf8.Encode(Scalars(Print(v)))
  }

  /** `jsonEqual`: equal bytes are equal values. */
  lemma BytesDecideEquality(a: Json, b: Json)
    requires Canonical(a) && Canonical(b)
    ensures Bytes(a) == Bytes(b) <==> a == b
  {
    PrintIsWellFormed(a);
    PrintIsWellFormed(b);
    if Bytes(a) == Bytes(b) {
      EncodeIsInjective(Scalars(Print(a)), Scalars(Print(b)));
      ScalarsIsInjective(Print(a), Print(b));
      EncodingDecidesEquality(a, b);
    }
  }
}
