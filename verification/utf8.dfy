/** UTF-8 and UTF-16 as encodings of Unicode scalar values (RFC 3629, section 3). */
module Utf8 {
  import opened CanonicalJson

  type Byte = b: int | 0 <= b < 0x100
  type Scalar = c: int | 0 <= c < 0xD800 || 0xE000 <= c < 0x11_0000

  predicate IsContinuation(b: Byte) {
    0x80 <= b < 0xC0
  }

  function EncodeScalar(c: Scalar): (r: seq<Byte>)
    ensures r != []
    ensures !IsContinuation(r[0])
    ensures forall i | 0 < i < |r| :: IsContinuation(r[i])
  {
    if c < 0x80 then [c]
    else if c < 0x800 then [0xC0 + c / 0x40, 0x80 + c % 0x40]
    else if c < 0x1_0000 then [0xE0 + c / 0x40 / 0x40, 0x80 + c / 0x40 % 0x40, 0x80 + c % 0x40]
    else [0xF0 + c / 0x40 / 0x40 / 0x40, 0x80 + c / 0x40 / 0x40 % 0x40, 0x80 + c / 0x40 % 0x40, 0x80 + c % 0x40]
  }

  function Encode(cs: seq<Scalar>): seq<Byte> {
    if cs == [] then [] else EncodeScalar(cs[0]) + Encode(cs[1..])
  }

  /** The scalar values of a well-formed UTF-16 string, surrogate pairs joined. */
  function Scalars(s: Text): seq<Scalar>
    requires WellFormed(s)
  {
    if s == [] then []
    else if HighSurrogate(s[0]) then
      [0x1_0000 + (s[0] - 0xD800) * 0x400 + (s[1] - 0xDC00)] + Scalars(s[2..])
    else [s[0]] + Scalars(s[1..])
  }

  /** The length of the sequence a lead byte announces. */
  function LeadLength(b: Byte): nat {
    if b < 0x80 then 1 else if b < 0xE0 then 2 else if b < 0xF0 then 3 else 4
  }

  /** The payload bits of a sequence, put back together. */
  function Assemble(r: seq<Byte>): int {
    if |r| == 1 then r[0]
    else if |r| == 2 then Join(r[0] as int - 0xC0, r[1])
    else if |r| == 3 then Join(Join(r[0] as int - 0xE0, r[1]), r[2])
    else if |r| == 4 then Join(Join(Join(r[0] as int - 0xF0, r[1]), r[2]), r[3])
    else 0
  }

  function Join(high: int, b: Byte): int {
    high * 0x40 + (b as int - 0x80)
  }

  lemma ScalarFromBytes(c: Scalar)
    ensures var r := EncodeScalar(c); |r| == LeadLength(r[0]) && Assemble(r) == c
  {
    assert Join(c / 0x40, 0x80 + c % 0x40) == c;
    assert Join(c / 0x40 / 0x40, 0x80 + c / 0x40 % 0x40) == c / 0x40;
    assert Join(c / 0x40 / 0x40 / 0x40, 0x80 + c / 0x40 / 0x40 % 0x40) == c / 0x40 / 0x40;
  }

  lemma ScalarIsSelfDelimiting(a: Scalar, b: Scalar, x: seq<Byte>, y: seq<Byte>)
    requires EncodeScalar(a) + x == EncodeScalar(b) + y
    ensures a == b && x == y
  {
    ScalarFromBytes(a);
    ScalarFromBytes(b);
    hide EncodeScalar, Assemble;
    var ea, eb := EncodeScalar(a), EncodeScalar(b);
    assert ea[0] == (ea + x)[0] == (eb + y)[0] == eb[0];
    assert ea == (ea + x)[..|ea|] == (eb + y)[..|eb|] == eb;
    assert x == (ea + x)[|ea|..] == (eb + y)[|eb|..] == y;
  }

  lemma {:induction false} EncodeIsInjective(a: seq<Scalar>, b: seq<Scalar>)
    requires Encode(a) == Encode(b)
    ensures a == b
  {
    hide EncodeScalar;
    if a != [] && b != [] {
      ScalarIsSelfDelimiting(a[0], b[0], Encode(a[1..]), Encode(b[1..]));
      EncodeIsInjective(a[1..], b[1..]);
      assert a == [a[0]] + a[1..] && b == [b[0]] + b[1..];
    }
  }

  lemma {:induction false} ScalarsIsInjective(a: Text, b: Text)
    requires WellFormed(a) && WellFormed(b) && Scalars(a) == Scalars(b)
    ensures a == b
  {
    if a != [] && b != [] {
      assert Scalars(a)[0] == Scalars(b)[0];
      var n := if HighSurrogate(a[0]) then 2 else 1;
      assert HighSurrogate(a[0]) <==> HighSurrogate(b[0]);
      assert Scalars(a)[1..] == Scalars(a[n..]) && Scalars(b)[1..] == Scalars(b[n..]);
      ScalarsIsInjective(a[n..], b[n..]);
      assert a == a[..n] + a[n..] && b == b[..n] + b[n..];
    }
  }

  lemma {:induction false} EncodeConcat(a: seq<Scalar>, b: seq<Scalar>)
    ensures Encode(a + b) == Encode(a) + Encode(b)
  {
    hide EncodeScalar;
    if a == [] {
      assert a + b == b;
    } else {
      EncodeConcat(a[1..], b);
      assert (a + b)[1..] == a[1..] + b;
    }
  }
}
