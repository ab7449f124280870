/** Decoding bytes to text, where the source decodes and then insists that encoding gives the bytes back. */
module TextDecoding {
  import opened CanonicalJson
  import opened Utf8

  predicate IsScalar(c: int) {
    0 <= c < 0xD800 || 0xE000 <= c < 0x11_0000
  }

  /** One scalar value in UTF-16. */
  function Units(c: Scalar): Text {
    if c < 0x1_0000 then [c] else [0xD800 + (c - 0x1_0000) / 0x400, 0xDC00 + (c - 0x1_0000) % 0x400]
  }

  /** The text of a byte string; None where re-encoding the decoded text gives other bytes. */
  function DecodeUtf8(b: seq<Byte>): Option<Text> {
    if b == [] then Some([])
    else
      var n := LeadLength(b[0]);
      if |b| < n then None
      else
        var c := Assemble(b[..n]);
        if !IsScalar(c) || EncodeScalar(c) != b[..n] then None
        else
          match DecodeUtf8(b[n..])
          case None => None
          case Some(t) => Some(Units(c) + t)
  }

  lemma UnitsOfScalar(c: Scalar, t: Text)
    requires WellFormed(t)
    ensures WellFormed(Units(c) + t) && Scalars(Units(c) + t) == [c] + Scalars(t)
  {
    var u := Units(c);
    assert (u + t)[|u|..] == t;
  }

  lemma {:induction false} DecodedReencodes(b: seq<Byte>)
    requires DecodeUtf8(b).Some?
    ensures WellFormed(DecodeUtf8(b).value) && Utf8.Encode(Scalars(DecodeUtf8(b).value)) == b
  {
    hide EncodeScalar, Assemble, Units;
    if b != [] {
      var n := LeadLength(b[0]);
      var c := Assemble(b[..n]);
      DecodedReencodes(b[n..]);
      UnitsOfScalar(c, DecodeUtf8(b[n..]).value);
      assert b == b[..n] + b[n..];
    }
  }

  lemma {:induction false} DecodeUndoesEncode(t: Text)
    requires WellFormed(t)
    ensures DecodeUtf8(Utf8.Encode(Scalars(t))) == Some(t)
  {
    if t != [] {
      var m := if HighSurrogate(t[0]) then 2 else 1;
      var c := Scalars(t)[0];
      assert Scalars(t)[1..] == Scalars(t[m..]);
      DecodeUndoesEncode(t[m..]);
      ScalarFromBytes(c);
      UnitsOfHead(t);
      hide EncodeScalar, Assemble, Units;
      var b, e := Utf8.Encode(Scalars(t)), EncodeScalar(c);
      assert b == e + Utf8.Encode(Scalars(t[m..])) && b[0] == e[0];
      assert b[..|e|] == e && b[|e|..] == Utf8.Encode(Scalars(t[m..]));
      assert t == t[..m] + t[m..];
    }
  }

  /** The encoding of any code points decodes. */
  lemma {:induction false} EncodedDecodes(cs: seq<Scalar>)
    ensures DecodeUtf8(Utf8.Encode(cs)).Some?
  {
    if cs != [] {
      EncodedDecodes(cs[1..]);
      ScalarFromBytes(cs[0]);
      hide EncodeScalar, Assemble, Units;
      var b, e := Utf8.Encode(cs), EncodeScalar(cs[0]);
      assert b[0] == e[0] && b[..|e|] == e && b[|e|..] == Utf8.Encode(cs[1..]);
    }
  }

  lemma UnitsOfHead(t: Text)
    requires WellFormed(t) && t != []
    ensures Units(Scalars(t)[0]) == t[..if HighSurrogate(t[0]) then 2 else 1]
  {
  }

  // Unpadded base64url (RFC 4648, section 5).

  function Symbol(d: int): CodeUnit
    requires 0 <= d < 64
  {
    if d < 26 then 0x41 + d
    else if d < 52 then 0x61 + d - 26
    else if d < 62 then 0x30 + d - 52
    else if d == 62 then 0x2D
    else 0x5F
  }

  predicate IsSymbol(u: CodeUnit) {
    0x41 <= u <= 0x5A || 0x61 <= u <= 0x7A || 0x30 <= u <= 0x39 || u == 0x2D || u == 0x5F
  }

  function Sextet(u: CodeUnit): (d: int)
    requires IsSymbol(u)
    ensures 0 <= d < 64 && Symbol(d) == u
  {
    if 0x41 <= u <= 0x5A then u - 0x41
    else if 0x61 <= u <= 0x7A then u - 0x61 + 26
    else if 0x30 <= u <= 0x39 then u - 0x30 + 52
    else if u == 0x2D then 62
    else 63
  }

  lemma SymbolIsSymbol(d: int)
    requires 0 <= d < 64
    ensures IsSymbol(Symbol(d)) && Sextet(Symbol(d)) == d
  {
  }

  function Base64(b: seq<Byte>): Text {
    if b == [] then []
    else if |b| == 1 then [Symbol(b[0] / 4), Symbol(b[0] % 4 * 16)]
    else if |b| == 2 then [Symbol(b[0] / 4), Symbol(b[0] % 4 * 16 + b[1] / 16), Symbol(b[1] % 16 * 4)]
    else [Symbol(b[0] / 4), Symbol(b[0] % 4 * 16 + b[1] / 16), Symbol(b[1] % 16 * 4 + b[2] / 64), Symbol(b[2] % 64)]
         + Base64(b[3..])
  }

  predicate AllSymbols(t: Text) {
    forall i | 0 <= i < |t| :: IsSymbol(t[i])
  }

  /** The lenient decoder: spare bits, and a single symbol left over, are dropped. */
  function FromBase64(t: Text): seq<Byte>
    requires AllSymbols(t)
  {
    if |t| <= 1 then []
    else
      var first := Sextet(t[0]) * 4 + Sextet(t[1]) / 16;
      if |t| == 2 then [first]
      else
        var second := Sextet(t[1]) % 16 * 16 + Sextet(t[2]) / 4;
        if |t| == 3 then [first, second]
        else [first, second, Sextet(t[2]) % 4 * 64 + Sextet(t[3])] + FromBase64(t[4..])
  }

  /** `strictBase64url`, the length argument aside. */
  function StrictBase64(t: Text): Option<seq<Byte>> {
    if t == [] || !AllSymbols(t) || Base64(FromBase64(t)) != t then None else Some(FromBase64(t))
  }

  lemma {:induction false} Base64Decodes(b: seq<Byte>)
    ensures AllSymbols(Base64(b)) && FromBase64(Base64(b)) == b
  {
    if b != [] {
      hide Symbol, IsSymbol, Sextet, FromBase64, AllSymbols;
      if |b| == 1 {
        OneByte(b[0]);
        assert b == [b[0]];
      } else if |b| == 2 {
        TwoBytes(b[0], b[1]);
        assert b == [b[0], b[1]];
      } else {
        Base64Decodes(b[3..]);
        Group(b[0], b[1], b[2], Base64(b[3..]));
        assert b == [b[0], b[1], b[2]] + b[3..];
      }
    }
  }

  lemma {:induction false} Base64Length(b: seq<Byte>)
    ensures |Base64(b)| == (4 * |b| + 2) / 3
  {
    hide Symbol;
    if |b| >= 3 {
      Base64Length(b[3..]);
    }
  }

  lemma OneByte(x: Byte)
    ensures var t := [Symbol(x / 4), Symbol(x % 4 * 16)]; AllSymbols(t) && FromBase64(t) == [x]
  {
    hide Symbol, IsSymbol, Sextet;
    SymbolIsSymbol(x / 4);
    SymbolIsSymbol(x % 4 * 16);
  }

  lemma TwoBytes(x: Byte, y: Byte)
    ensures var t := [Symbol(x / 4), Symbol(x % 4 * 16 + y / 16), Symbol(y % 16 * 4)];
            AllSymbols(t) && FromBase64(t) == [x, y]
  {
    hide Symbol, IsSymbol, Sextet;
    SymbolIsSymbol(x / 4);
    SymbolIsSymbol(x % 4 * 16 + y / 16);
    SymbolIsSymbol(y % 16 * 4);
  }

  lemma Group(x: Byte, y: Byte, z: Byte, rest: Text)
    requires AllSymbols(rest)
    ensures var t := [Symbol(x / 4), Symbol(x % 4 * 16 + y / 16), Symbol(y % 16 * 4 + z / 64), Symbol(z % 64)] + rest;
            AllSymbols(t) && FromBase64(t) == [x, y, z] + FromBase64(rest)
  {
    hide Symbol, IsSymbol, Sextet;
    GroupBits(x, y, z);
    var p, q, r, d := x / 4, x % 4 * 16 + y / 16, y % 16 * 4 + z / 64, z % 64;
    SymbolIsSymbol(p);
    SymbolIsSymbol(q);
    SymbolIsSymbol(r);
    SymbolIsSymbol(d);
    FromGroup(p, q, r, d, rest);
  }

  lemma FromGroup(p: int, q: int, r: int, d: int, rest: Text)
    requires 0 <= p < 64 && 0 <= q < 64 && 0 <= r < 64 && 0 <= d < 64 && AllSymbols(rest)
    ensures var t := [Symbol(p), Symbol(q), Symbol(r), Symbol(d)] + rest;
            AllSymbols(t) && FromBase64(t) == [p * 4 + q / 16, q % 16 * 16 + r / 4, r % 4 * 64 + d] + FromBase64(rest)
  {
    SymbolIsSymbol(p);
    SymbolIsSymbol(q);
    SymbolIsSymbol(r);
    SymbolIsSymbol(d);
    hide Symbol, IsSymbol, Sextet;
    var head := [Symbol(p), Symbol(q), Symbol(r), Symbol(d)];
    var t := head + rest;
    assert forall i | 0 <= i < |t| :: t[i] == if i < 4 then head[i] else rest[i - 4];
    assert t[4..] == rest;
  }

  lemma GroupBits(x: Byte, y: Byte, z: Byte)
    ensures x / 4 * 4 + (x % 4 * 16 + y / 16) / 16 == x
    ensures (x % 4 * 16 + y / 16) % 16 * 16 + (y % 16 * 4 + z / 64) / 4 == y
    ensures (y % 16 * 4 + z / 64) % 4 * 64 + z % 64 == z
  {
    assert (x % 4 * 16 + y / 16) / 16 == x % 4;
    assert (x % 4 * 16 + y / 16) % 16 == y / 16;
    assert (y % 16 * 4 + z / 64) / 4 == y % 16;
    assert (y % 16 * 4 + z / 64) % 4 == z / 64;
  }

  /** The strict decoder reads exactly the encoder's output: each byte string has one spelling. */
  lemma StrictBase64IsExact(t: Text, b: seq<Byte>)
    ensures StrictBase64(t) == Some(b) <==> b != [] && t == Base64(b)
  {
    Base64Decodes(b);
    if StrictBase64(t) == Some(b) {
      assert t == Base64(b);
    }
  }
}
