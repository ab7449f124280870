/**
 Decoding bytes to text with replacement characters, as `toString("utf8")` does: each maximal
 part of an ill-formed sequence becomes one U+FFFD (the UTF-8 decoder of the WHATWG Encoding
 Standard, section 8.1.1).
 */
module LossyDecoding {
  import opened CanonicalJson
  import opened Utf8
  import opened TextDecoding

  const REPLACEMENT: Scalar := 0xFFFD

  /** How many bytes follow a lead byte; None where no sequence starts. */
  function Following(lead: Byte): Option<nat> {
    if lead < 0x80 then Some(0)
    else if 0xC2 <= lead < 0xE0 then Some(1)
    else if 0xE0 <= lead < 0xF0 then Some(2)
    else if 0xF0 <= lead < 0xF5 then Some(3)
    else None
  }

  /** The second byte is restricted so that no code point has two spellings, is a surrogate or is too large. */
  predicate SecondAllowed(lead: Byte, b: Byte) {
    && (if lead == 0xE0 then 0xA0 else if lead == 0xF0 then 0x90 else 0x80) <= b
    && b <= (if lead == 0xED then 0x9F else if lead == 0xF4 then 0x8F else 0xBF)
  }

  predicate Allowed(b: seq<Byte>, k: nat)
    requires 0 < k < |b|
  {
    if k == 1 then SecondAllowed(b[0], b[1]) else IsContinuation(b[k])
  }

  /** The number of bytes from the second on, up to `most`, that the sequence can have there. */
  function Run(b: seq<Byte>, k: nat, most: nat): (r: nat)
    requires 0 < k <= most + 1 && b != []
    ensures k <= r <= most + 1 && (k <= |b| ==> r <= |b|)
    ensures forall i | k <= i < r :: i < |b| && Allowed(b, i)
    ensures r <= most ==> r >= |b| || !Allowed(b, r)
    decreases most + 1 - k
  {
    if k <= most && k < |b| && Allowed(b, k) then Run(b, k + 1, most) else k
  }

  /** The length of the first part, and whether it is a code point. */
  function FirstPart(b: seq<Byte>): (part: (nat, bool))
    requires b != []
    ensures 0 < part.0 <= |b| && part.0 <= 4
  {
    match Following(b[0])
    case None => (1, false)
    case Some(n) => var r := Run(b, 1, n); (r, r == n + 1)
  }

  /** A part that is not a code point has at most three bytes. */
  lemma IllFormedIsShort(b: seq<Byte>)
    requires b != [] && !FirstPart(b).1
    ensures FirstPart(b).0 <= 3
  {
  }

  lemma WellFormedPart(b: seq<Byte>)
    requires b != [] && FirstPart(b).1
    ensures var n := FirstPart(b).0; IsScalar(Assemble(b[..n])) && EncodeScalar(Assemble(b[..n])) == b[..n]
  {
    var n := FirstPart(b).0;
    var lead := b[0];
    assert forall i | 1 <= i < n :: Allowed(b, i);
    if n == 1 {
      assert b[..1] == [lead];
    } else if n == 2 {
      TwoByteScalar(b[0], b[1]);
      assert b[..2] == [b[0], b[1]];
    } else if n == 3 {
      assert Allowed(b, 1) && Allowed(b, 2);
      ThreeByteScalar(b[0], b[1], b[2]);
      assert b[..3] == [b[0], b[1], b[2]];
    } else {
      assert Allowed(b, 1) && Allowed(b, 2) && Allowed(b, 3);
      FourByteScalar(b[0], b[1], b[2], b[3]);
      assert b[..4] == [b[0], b[1], b[2], b[3]];
    }
  }

  lemma TwoByteScalar(x: Byte, y: Byte)
    requires 0xC2 <= x < 0xE0 && IsContinuation(y)
    ensures var c := Assemble([x, y]); IsScalar(c) && EncodeScalar(c) == [x, y]
  {
  }

  lemma ThreeByteScalar(x: Byte, y: Byte, z: Byte)
    requires 0xE0 <= x < 0xF0 && SecondAllowed(x, y) && IsContinuation(z)
    ensures var c := Assemble([x, y, z]); IsScalar(c) && EncodeScalar(c) == [x, y, z]
  {
    var high := Join(x as int - 0xE0, y);
    var c := Join(high, z);
    assert c / 0x40 == high && c % 0x40 == z as int - 0x80;
    assert high / 0x40 == x as int - 0xE0 && high % 0x40 == y as int - 0x80;
  }

  lemma FourByteScalar(x: Byte, y: Byte, z: Byte, w: Byte)
    requires 0xF0 <= x < 0xF5 && SecondAllowed(x, y) && IsContinuation(z) && IsContinuation(w)
    ensures var c := Assemble([x, y, z, w]); IsScalar(c) && EncodeScalar(c) == [x, y, z, w]
  {
    var top := Join(x as int - 0xF0, y);
    var high := Join(top, z);
    var c := Join(high, w);
    assert c / 0x40 == high && c % 0x40 == w as int - 0x80;
    assert high / 0x40 == top && high % 0x40 == z as int - 0x80;
    assert top / 0x40 == x as int - 0xF0 && top % 0x40 == y as int - 0x80;
  }

  function Lossy(b: seq<Byte>): seq<Scalar> {
    if b == [] then []
    else
      var (n, ok) := FirstPart(b);
      (if ok && IsScalar(Assemble(b[..n])) then [Assemble(b[..n])] else [REPLACEMENT]) + Lossy(b[n..])
  }

  /** Every part that is not a code point has three bytes, as many as its replacement. */
  predicate GapsAreThree(b: seq<Byte>) {
    b == [] || (var (n, ok) := FirstPart(b); (ok || n == 3) && GapsAreThree(b[n..]))
  }

  /** Replacement never shortens, and keeps the length exactly in that case. */
  lemma {:induction false} LossyLength(b: seq<Byte>)
    ensures |Utf8.Encode(Lossy(b))| >= |b|
    ensures |Utf8.Encode(Lossy(b))| == |b| <==> GapsAreThree(b)
  {
    hide EncodeScalar, Assemble, FirstPart;
    if b != [] {
      var (n, ok) := FirstPart(b);
      LossyLength(b[n..]);
      if ok {
        WellFormedPart(b);
      } else {
        IllFormedIsShort(b);
        ReplacementLength();
      }
      LossyStep(b);
    }
  }

  lemma ReplacementLength()
    ensures |EncodeScalar(REPLACEMENT)| == 3
  {
  }

  lemma LossyStep(b: seq<Byte>)
    requires b != []
    ensures var (n, ok) := FirstPart(b);
            var c := if ok && IsScalar(Assemble(b[..n])) then Assemble(b[..n]) else REPLACEMENT;
            Utf8.Encode(Lossy(b)) == EncodeScalar(c) + Utf8.Encode(Lossy(b[n..]))
  {
    hide EncodeScalar, Assemble, FirstPart;
    var (n, ok) := FirstPart(b);
    var c := if ok && IsScalar(Assemble(b[..n])) then Assemble(b[..n]) else REPLACEMENT;
    assert Lossy(b) == [c] + Lossy(b[n..]);
    assert Lossy(b)[1..] == Lossy(b[n..]);
  }

  // Valid UTF-8.

  lemma ScalarIsFirstPart(c: Scalar, rest: seq<Byte>)
    ensures var e := EncodeScalar(c); FirstPart(e + rest) == (|e|, true)
  {
    var e := EncodeScalar(c);
    var b := e + rest;
    ScalarBytes(c);
    assert forall i | 0 <= i < |e| :: b[i] == e[i];
    assert Following(b[0]) == Some(|e| - 1);
    assert forall i | 1 <= i < |e| :: Allowed(b, i);
  }

  lemma ScalarBytes(c: Scalar)
    ensures var e := EncodeScalar(c);
            Following(e[0]) == Some(|e| - 1) && (|e| > 1 ==> SecondAllowed(e[0], e[1]))
  {
  }

  lemma {:induction false} EncodingHasNoGaps(cs: seq<Scalar>)
    ensures GapsAreThree(Utf8.Encode(cs)) && Lossy(Utf8.Encode(cs)) == cs
  {
    if cs != [] {
      EncodingHasNoGaps(cs[1..]);
      ScalarFromBytes(cs[0]);
      ScalarIsFirstPart(cs[0], Utf8.Encode(cs[1..]));
      hide EncodeScalar, Assemble, FirstPart;
      var b, e := Utf8.Encode(cs), EncodeScalar(cs[0]);
      assert b == e + Utf8.Encode(cs[1..]) && b[..|e|] == e && b[|e|..] == Utf8.Encode(cs[1..]);
      assert cs == [cs[0]] + cs[1..];
    }
  }

  // Text.

  function TextOf(cs: seq<Scalar>): Text {
    if cs == [] then [] else Units(cs[0]) + TextOf(cs[1..])
  }

  lemma {:induction false} TextOfIsWellFormed(cs: seq<Scalar>)
    ensures WellFormed(TextOf(cs)) && Scalars(TextOf(cs)) == cs
  {
    hide Units;
    if cs != [] {
      TextOfIsWellFormed(cs[1..]);
      UnitsOfScalar(cs[0], TextOf(cs[1..]));
      assert cs == [cs[0]] + cs[1..];
    }
  }

  lemma {:induction false} TextOfConcat(a: seq<Scalar>, b: seq<Scalar>)
    ensures TextOf(a + b) == TextOf(a) + TextOf(b)
  {
    hide Units;
    if a == [] {
      assert a + b == b;
    } else {
      TextOfConcat(a[1..], b);
      assert (a + b)[1..] == a[1..] + b;
    }
  }
}
