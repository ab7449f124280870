/** JSON Pointers (RFC 6901): token escaping, pointer syntax, and reads and writes along a pointer. */
module JsonPointer {
  import opened CanonicalJson
  import opened CanonicalJsonParser
  import opened CanonicalJsonLaws

  const TILDE: CodeUnit := 0x7E
  const SLASH: CodeUnit := 0x2F
  const ONE: CodeUnit := 0x31

  // Tokens.

  /** `replaceAll` of a two-unit pattern by one unit, from left to right. */
  function ReplacePair(t: Text, a: CodeUnit, b: CodeUnit, with: CodeUnit): Text {
    if t == [] then []
    else if |t| >= 2 && t[0] == a && t[1] == b then [with] + ReplacePair(t[2..], a, b, with)
    else [t[0]] + ReplacePair(t[1..], a, b, with)
  }

  /** `replaceAll` of one unit by two. */
  function ReplaceUnit(t: Text, a: CodeUnit, with: Text): Text {
    if t == [] then []
    else (if t[0] == a then with else [t[0]]) + ReplaceUnit(t[1..], a, with)
  }

  /** The two passes of the source, in its order. */
  function UnescapeToken(t: Text): Text {
    ReplacePair(ReplacePair(t, TILDE, ONE, SLASH), TILDE, ZERO, TILDE)
  }

  function EscapeToken(t: Text): Text {
    ReplaceUnit(ReplaceUnit(t, TILDE, [TILDE, ZERO]), SLASH, [TILDE, ONE])
  }

  /** Every `~` is followed by `0` or `1`. */
  predicate WellEscaped(t: Text) {
    forall i | 0 <= i < |t| && t[i] == TILDE :: i + 1 < |t| && (t[i + 1] == ZERO || t[i + 1] == ONE)
  }

  /** The decoder section 4 of RFC 6901 describes, in one pass. */
  function DecodeToken(t: Text): Text {
    if t == [] then []
    else if |t| >= 2 && t[0] == TILDE && t[1] == ONE then [SLASH] + DecodeToken(t[2..])
    else if |t| >= 2 && t[0] == TILDE && t[1] == ZERO then [TILDE] + DecodeToken(t[2..])
    else [t[0]] + DecodeToken(t[1..])
  }

  function EncodeUnit(u: CodeUnit): Text {
    if u == TILDE then [TILDE, ZERO] else if u == SLASH then [TILDE, ONE] else [u]
  }

  function EncodeToken(t: Text): Text {
    if t == [] then [] else EncodeUnit(t[0]) + EncodeToken(t[1..])
  }

  predicate SlashFree(t: Text) {
    forall i | 0 <= i < |t| :: t[i] != SLASH
  }

  lemma {:induction false} TwoPassesAreOne(t: Text)
    requires WellEscaped(t)
    ensures UnescapeToken(t) == DecodeToken(t)
  {
    if t != [] {
      if t[0] == TILDE {
        assert WellEscaped(t[2..]) by { assert forall i | 0 <= i < |t| - 2 :: t[2..][i] == t[i + 2]; }
        TwoPassesAreOne(t[2..]);
        if t[1] == ZERO {
          var first := ReplacePair(t[2..], TILDE, ONE, SLASH);
          assert t[1..][1..] == t[2..];
          assert ReplacePair(t, TILDE, ONE, SLASH) == [TILDE] + ([ZERO] + first);
          var once := ReplacePair(t, TILDE, ONE, SLASH);
          assert once[0] == TILDE && once[1] == ZERO && once[2..] == first;
        } else {
          var first := ReplacePair(t[2..], TILDE, ONE, SLASH);
          assert ([SLASH] + first)[1..] == first;
        }
      } else {
        assert WellEscaped(t[1..]) by { assert forall i | 0 <= i < |t| - 1 :: t[1..][i] == t[i + 1]; }
        TwoPassesAreOne(t[1..]);
        var first := ReplacePair(t[1..], TILDE, ONE, SLASH);
        assert ([t[0]] + first)[1..] == first;
      }
    }
  }

  lemma {:induction false} EscapeIsOnePass(t: Text)
    ensures EscapeToken(t) == EncodeToken(t)
  {
    if t != [] {
      EscapeIsOnePass(t[1..]);
      var tail := ReplaceUnit(t[1..], TILDE, [TILDE, ZERO]);
      if t[0] == TILDE {
        var once := [TILDE, ZERO] + tail;
        assert once[1..] == [ZERO] + tail;
        assert ([ZERO] + tail)[1..] == tail;
        assert ReplaceUnit(once, SLASH, [TILDE, ONE]) == [TILDE] + ([ZERO] + ReplaceUnit(tail, SLASH, [TILDE, ONE]));
      } else {
        assert ([t[0]] + tail)[1..] == tail;
      }
    }
  }

  /** Escaping then decoding gives the token back, and the escaped form is well formed. */
  lemma {:induction false} DecodeUndoesEscape(t: Text)
    ensures WellEscaped(EscapeToken(t)) && SlashFree(EscapeToken(t))
    ensures UnescapeToken(EscapeToken(t)) == t
  {
    EscapeIsOnePass(t);
    DecodeUndoesEncode(t);
    TwoPassesAreOne(EscapeToken(t));
  }

  lemma {:induction false} DecodeUndoesEncode(t: Text)
    ensures WellEscaped(EncodeToken(t)) && SlashFree(EncodeToken(t))
    ensures DecodeToken(EncodeToken(t)) == t
  {
    if t != [] {
      DecodeUndoesEncode(t[1..]);
      EncodedHead(t[0], EncodeToken(t[1..]));
      assert t == [t[0]] + t[1..];
    }
  }

  lemma EncodedHead(u: CodeUnit, tail: Text)
    requires WellEscaped(tail) && SlashFree(tail)
    ensures var w := EncodeUnit(u) + tail; WellEscaped(w) && SlashFree(w) && DecodeToken(w) == [u] + DecodeToken(tail)
  {
    var e := EncodeUnit(u);
    var w := e + tail;
    assert forall i | |e| <= i < |w| :: w[i] == tail[i - |e|];
    assert w[|e|..] == tail;
  }

  /** Conversely, a well-formed escaped token is the escape of what it decodes to. */
  lemma {:induction false} EscapeUndoesDecode(t: Text)
    requires WellEscaped(t) && SlashFree(t)
    ensures EscapeToken(UnescapeToken(t)) == t
  {
    TwoPassesAreOne(t);
    EscapeIsOnePass(DecodeToken(t));
    EncodeUndoesDecode(t);
  }

  lemma {:induction false} EncodeUndoesDecode(t: Text)
    requires WellEscaped(t) && SlashFree(t)
    ensures EncodeToken(DecodeToken(t)) == t
  {
    if t != [] {
      var n := if t[0] == TILDE then 2 else 1;
      assert forall i | 0 <= i < |t| - n :: t[n..][i] == t[i + n];
      EncodeUndoesDecode(t[n..]);
      var d := DecodeToken(t);
      assert d[1..] == DecodeToken(t[n..]);
      assert t == t[..n] + t[n..];
      assert EncodeUnit(d[0]) == t[..n];
    }
  }

  // Pointers.

  /** `split("/")`. */
  function Split(t: Text): (parts: seq<Text>)
    ensures parts != []
    ensures forall i | 0 <= i < |parts| :: SlashFree(parts[i])
  {
    if t == [] then [[]]
    else
      var rest := Split(t[1..]);
      if t[0] == SLASH then [[]] + rest else [[t[0]] + rest[0]] + rest[1..]
  }

  /** A pointer's text: `/` before each part. */
  function Slashed(parts: seq<Text>): Text {
    if parts == [] then [] else [SLASH] + parts[0] + Slashed(parts[1..])
  }

  function MapEscape(tokens: seq<Text>): (r: seq<Text>)
    ensures |r| == |tokens|
  {
    seq(|tokens|, i requires 0 <= i < |tokens| => EscapeToken(tokens[i]))
  }

  function Format(tokens: seq<Text>): Text {
    Slashed(MapEscape(tokens))
  }

  /** `parsePointer`: the tokens, or None where the source throws. The empty text is the root, if allowed. */
  function ParsePointer(p: Text, allowRoot: bool): Option<seq<Text>> {
    if p == [] then (if allowRoot then Some([]) else None)
    else if p[0] != SLASH then None
    else
      var parts := Split(p[1..]);
      if forall i | 0 <= i < |parts| :: WellEscaped(parts[i]) then
        Some(seq(|parts|, i requires 0 <= i < |parts| => UnescapeToken(parts[i])))
      else None
  }

  lemma {:induction false} SlashedSplit(t: Text)
    ensures Slashed(Split(t)) == [SLASH] + t
  {
    if t == [] {
      assert Slashed([[]]) == [SLASH] + [] + Slashed([]);
    } else {
      SlashedSplit(t[1..]);
      SlashedFirst(t[0], Split(t[1..]));
      assert t == [t[0]] + t[1..];
    }
  }

  lemma SlashedFirst(u: CodeUnit, rest: seq<Text>)
    requires rest != []
    ensures Slashed([[]] + rest) == [SLASH] + Slashed(rest)
    ensures Slashed([[u] + rest[0]] + rest[1..]) == [SLASH, u] + Slashed(rest)[1..]
  {
    hide Slashed;
    var more := Slashed(rest[1..]);
    assert ([[]] + rest)[1..] == rest;
    assert ([[u] + rest[0]] + rest[1..])[1..] == rest[1..];
    SlashedCons(rest);
    SlashedCons([[]] + rest);
    SlashedCons([[u] + rest[0]] + rest[1..]);
  }

  lemma SlashedCons(parts: seq<Text>)
    requires parts != []
    ensures Slashed(parts) == [SLASH] + parts[0] + Slashed(parts[1..])
  {
  }

  lemma {:induction false} SplitOfPart(part: Text, more: Text)
    requires SlashFree(part)
    requires more == [] || more[0] == SLASH
    ensures Split(part + more) == [part] + Split(more)[1..]
  {
    if part == [] {
      assert part + more == more;
      assert Split(more)[0] == [];
      assert Split(more) == [part] + Split(more)[1..];
    } else {
      assert part[0] != SLASH;
      assert forall i | 0 <= i < |part| - 1 :: part[1..][i] == part[i + 1];
      SplitOfPart(part[1..], more);
      assert (part + more)[1..] == part[1..] + more;
      assert part == [part[0]] + part[1..];
    }
  }

  lemma {:induction false} SplitSlashed(parts: seq<Text>)
    requires parts != [] && forall i | 0 <= i < |parts| :: SlashFree(parts[i])
    ensures Split(Slashed(parts)[1..]) == parts
  {
    var more := Slashed(parts[1..]);
    assert Slashed(parts)[1..] == parts[0] + more;
    SplitOfPart(parts[0], more);
    if |parts| == 1 {
      assert more == [] && Split(more)[1..] == [];
      assert parts == [parts[0]];
    } else {
      SplitSlashed(parts[1..]);
      assert more[0] == SLASH;
      assert Split(more) == [[]] + Split(more[1..]);
      assert parts == [parts[0]] + parts[1..];
    }
  }

  /** Formatting then parsing gives the tokens back. */
  lemma ParseUndoesFormat(tokens: seq<Text>, allowRoot: bool)
    requires tokens != []
    ensures ParsePointer(Format(tokens), allowRoot) == Some(tokens)
  {
    var parts := MapEscape(tokens);
    forall i | 0 <= i < |tokens|
      ensures WellEscaped(parts[i]) && SlashFree(parts[i]) && UnescapeToken(parts[i]) == tokens[i]
    {
      DecodeUndoesEscape(tokens[i]);
    }
    SplitSlashed(parts);
    assert Format(tokens)[0] == SLASH;
    assert seq(|parts|, i requires 0 <= i < |parts| => UnescapeToken(parts[i])) == tokens;
  }

  /** Every accepted pointer is already in normal form. */
  lemma AcceptedPointerIsNormal(p: Text, allowRoot: bool)
    requires ParsePointer(p, allowRoot).Some?
    ensures Format(ParsePointer(p, allowRoot).value) == p
    ensures p != [] <==> ParsePointer(p, allowRoot).value != []
  {
    if p != [] {
      var parts, tokens := Split(p[1..]), ParsePointer(p, allowRoot).value;
      forall i | 0 <= i < |parts|
        ensures EscapeToken(tokens[i]) == parts[i]
      {
        EscapeUndoesDecode(parts[i]);
      }
      assert MapEscape(tokens) == parts;
      SlashedSplit(p[1..]);
    }
  }

  // Values at pointers.

  /** `^(?:0|[1-9]\d*)$`, as the index it denotes. */
  function ArrayIndex(token: Text): Option<nat> {
    if token != [] && (forall i | 0 <= i < |token| :: IsDigit(token[i])) && (token[0] != ZERO || |token| == 1)
    then Some(DigitsValue(token)) else None
  }

  predicate Indexes(token: Text, items: seq<Json>) {
    ArrayIndex(token).Some? && ArrayIndex(token).value < |items| && IsSafe(ArrayIndex(token).value)
  }

  /** The accessor every plain object inherits. */
  predicate IsProto(token: Text) {
    token == Ascii("__proto__")
  }

  /**
   Assigning a member of a plain object. Assigning to `__proto__` reaches the prototype
   setter: a scalar is ignored, and an object or array leaves an object that is no longer
   plain, which the next canonical encoding refuses.
   */
  function WriteMember(fields: map<Text, Json>, token: Text, x: Json): Option<map<Text, Json>> {
    if IsProto(token) then (if x.Obj? || x.Arr? then None else Some(fields))
    else Some(fields[token := x])
  }

  predicate HasChild(v: Json, token: Text) {
    (v.Obj? && token in v.fields) || (v.Arr? && Indexes(token, v.items))
  }

  function Child(v: Json, token: Text): (c: Json)
    requires HasChild(v, token)
    ensures c < v
  {
    if v.Obj? then v.fields[token] else v.items[ArrayIndex(token).value]
  }

  function WithChild(v: Json, token: Text, c: Json): Json
    requires HasChild(v, token)
  {
    if v.Obj? then Obj(v.fields[token := c]) else Arr(v.items[ArrayIndex(token).value := c])
  }

  /** `setDeclaredPointer`. */
  function Set(v: Json, tokens: seq<Text>, x: Json): Option<Json>
    decreases tokens
  {
    if tokens == [] then None
    else if |tokens| == 1 then
      if v.Obj? then
        match WriteMember(v.fields, tokens[0], x)
        case None => None
        case Some(fields) => Some(Obj(fields))
      else if HasChild(v, tokens[0]) then Some(WithChild(v, tokens[0], x)) else None
    else if HasChild(v, tokens[0]) then
      match Set(Child(v, tokens[0]), tokens[1..], x)
      case None => None
      case Some(c) => Some(WithChild(v, tokens[0], c))
    else None
  }

  /** `readDeclaredPointer`. */
  function Get(v: Json, tokens: seq<Text>): Option<Json>
    decreases tokens
  {
    if tokens == [] then Some(v)
    else if HasChild(v, tokens[0]) then Get(Child(v, tokens[0]), tokens[1..])
    else None
  }

  method ReadDeclaredPointer(input: Json, tokens: seq<Text>) returns (r: Option<Json>)
    ensures r == Get(input, tokens)
  {
    var current := input;
    var i := 0;
    assert tokens[0..] == tokens;
    while i < |tokens|
      invariant i <= |tokens|
      invariant Get(input, tokens) == Get(current, tokens[i..])
    {
      assert tokens[i..][1..] == tokens[i + 1..];
      if !HasChild(current, tokens[i]) {
        return None;
      }
      current := Child(current, tokens[i]);
      i := i + 1;
    }
    return Some(current);
  }

  /** Neither pointer is a token prefix of the other. */
  predicate Independent(p: seq<Text>, q: seq<Text>) {
    !(p <= q) && !(q <= p)
  }

  /** Assigning here is the silent no-op at the prototype. */
  predicate EndsAtPrototype(tokens: seq<Text>) {
    tokens != [] && IsProto(tokens[|tokens| - 1])
  }

  lemma {:induction false} IndexIsCanonical(token: Text)
    requires ArrayIndex(token).Some?
    ensures token == Decimal(DigitsValue(token))
  {
    var n := |token|;
    if n == 1 {
      assert token[..0] == [];
    } else {
      var front := token[..n - 1];
      assert forall i | 0 <= i < n - 1 :: front[i] == token[i];
      IndexIsCanonical(front);
      FrontIsPositive(front);
      assert DigitsValue(token) == 10 * DigitsValue(front) + (token[n - 1] as int - 0x30);
      assert token == front + [token[n - 1]];
    }
  }

  lemma {:induction false} FrontIsPositive(ds: Text)
    requires ds != [] && (forall i | 0 <= i < |ds| :: IsDigit(ds[i])) && ds[0] != ZERO
    ensures DigitsValue(ds) > 0
  {
    if |ds| > 1 {
      FrontIsPositive(ds[..|ds| - 1]);
    }
  }

  /** Distinct tokens name distinct children. */
  lemma DistinctChildren(v: Json, a: Text, b: Text, c: Json)
    requires HasChild(v, a) && a != b
    ensures HasChild(v, b) <==> HasChild(WithChild(v, a, c), b)
    ensures HasChild(v, b) ==> Child(WithChild(v, a, c), b) == Child(v, b)
  {
    if v.Arr? && Indexes(b, v.items) {
      IndexIsCanonical(a);
      IndexIsCanonical(b);
    }
  }

  lemma SameChild(v: Json, a: Text, c: Json, d: Json)
    requires HasChild(v, a)
    ensures HasChild(WithChild(v, a, c), a) && Child(WithChild(v, a, c), a) == c
    ensures WithChild(WithChild(v, a, c), a, d) == WithChild(v, a, d)
    ensures WithChild(v, a, Child(v, a)) == v
  {
  }

  /**
   A successful write can be read back, exactly when it is not an assignment to the prototype
   of an object that lacks the key.
   */
  lemma {:induction false} ReadAfterWrite(v: Json, p: seq<Text>, x: Json)
    requires Set(v, p, x).Some? && (EndsAtPrototype(p) ==> Canonical(v))
    ensures Get(Set(v, p, x).value, p) == if EndsAtPrototype(p) then None else Some(x)
    decreases p
  {
    assert forall t | IsProto(t) :: ArrayIndex(t).None? by {
      assert !IsDigit(Ascii("__proto__")[0]);
    }
    if |p| == 1 {
      assert p[1..] == [];
    } else {
      ReadAfterWrite(Child(v, p[0]), p[1..], x);
      SameChild(v, p[0], Set(Child(v, p[0]), p[1..], x).value, Null);
    }
  }

  /** A write does not disturb a read at an independent pointer. */
  lemma {:induction false} ReadAfterOtherWrite(v: Json, p: seq<Text>, x: Json, q: seq<Text>)
    requires Set(v, p, x).Some? && Independent(p, q)
    ensures Get(Set(v, p, x).value, q) == Get(v, q)
    decreases p
  {
    if p[0] != q[0] {
      if v.Arr? || |p| > 1 {
        var c := if |p| == 1 then x else Set(Child(v, p[0]), p[1..], x).value;
        DistinctChildren(v, p[0], q[0], c);
      }
    } else {
      TailsIndependent(p, q);
      ReadAfterOtherWrite(Child(v, p[0]), p[1..], x, q[1..]);
      SameChild(v, p[0], Set(Child(v, p[0]), p[1..], x).value, Null);
    }
  }

  lemma TailsIndependent(p: seq<Text>, q: seq<Text>)
    requires Independent(p, q) && p[0] == q[0]
    ensures |p| > 1 && |q| > 1 && Independent(p[1..], q[1..])
  {
    assert p == [p[0]] + p[1..] && q == [q[0]] + q[1..];
  }

  function SetIn(v: Option<Json>, p: seq<Text>, x: Json): Option<Json> {
    if v.None? then None else Set(v.value, p, x)
  }

  /** Writes at independent pointers commute, failures included. */
  lemma {:induction false} WritesCommute(v: Json, p: seq<Text>, x: Json, q: seq<Text>, y: Json)
    requires Independent(p, q)
    ensures SetIn(Set(v, p, x), q, y) == SetIn(Set(v, q, y), p, x)
    decreases p
  {
    hide Set, HasChild, WithChild, Child;
    if p[0] == q[0] {
      TailsIndependent(p, q);
      BothBelow(v, p, x, q, y);
      BothBelow(v, q, y, p, x);
      if HasChild(v, p[0]) {
        WritesCommute(Child(v, p[0]), p[1..], x, q[1..], y);
      }
    } else {
      WritesApart(v, p, x, q, y);
    }
  }

  /** Two writes below the same child are two writes into that child. */
  lemma BothBelow(v: Json, p: seq<Text>, x: Json, q: seq<Text>, y: Json)
    requires |p| > 1 && |q| > 1 && p[0] == q[0]
    ensures SetIn(Set(v, p, x), q, y)
         == if !HasChild(v, p[0]) then None
            else
              var both := SetIn(Set(Child(v, p[0]), p[1..], x), q[1..], y);
              if both.None? then None else Some(WithChild(v, p[0], both.value))
  {
    hide IsProto, ArrayIndex;
    if HasChild(v, p[0]) {
      var c := Set(Child(v, p[0]), p[1..], x);
      if c.Some? {
        var both := Set(c.value, q[1..], y);
        SameChild(v, p[0], c.value, if both.Some? then both.value else Null);
      }
    }
  }

  /** What a write stores as the first token's child, if the write succeeds. */
  function NewChild(v: Json, p: seq<Text>, x: Json): Option<Json>
    requires p != []
  {
    if |p| == 1 then (if v.Obj? && IsProto(p[0]) && (x.Obj? || x.Arr?) then None else Some(x))
    else if HasChild(v, p[0]) then Set(Child(v, p[0]), p[1..], x)
    else None
  }

  /** Storing a child; assigning to the prototype stores nothing. */
  function Store(v: Json, p: seq<Text>, c: Json): Option<Json>
    requires p != []
  {
    if HasChild(v, p[0]) && !(v.Obj? && |p| == 1 && IsProto(p[0])) then Some(WithChild(v, p[0], c))
    else if v.Obj? && |p| == 1 then Some(if IsProto(p[0]) then v else Obj(v.fields[p[0] := c]))
    else None
  }

  lemma SetIsStore(v: Json, p: seq<Text>, x: Json)
    requires p != []
    ensures Set(v, p, x) == if NewChild(v, p, x).None? then None else Store(v, p, NewChild(v, p, x).value)
  {
  }

  lemma StoresCommute(v: Json, p: seq<Text>, c: Json, q: seq<Text>, d: Json)
    requires p != [] && q != [] && p[0] != q[0]
    ensures Store(v, p, c).Some? && Store(v, q, d).Some? ==>
              Store(Store(v, p, c).value, q, d) == Store(Store(v, q, d).value, p, c)
    ensures Store(v, p, c).Some? ==>
              && (HasChild(Store(v, p, c).value, q[0]) <==> HasChild(v, q[0]))
              && (HasChild(v, q[0]) ==> Child(Store(v, p, c).value, q[0]) == Child(v, q[0]))
              && Store(v, p, c).value.Obj? == v.Obj?
              && (Store(Store(v, p, c).value, q, d).Some? <==> Store(v, q, d).Some?)
  {
    hide IsProto, ArrayIndex;
    if v.Arr? && HasChild(v, p[0]) {
      DistinctChildren(v, p[0], q[0], c);
      if HasChild(v, q[0]) {
        IndexesDiffer(p[0], q[0]);
        var i, j := ArrayIndex(p[0]).value, ArrayIndex(q[0]).value;
        assert v.items[i := c][j := d] == v.items[j := d][i := c];
      }
    } else if v.Obj? {
      assert v.fields[p[0] := c][q[0] := d] == v.fields[q[0] := d][p[0] := c];
    }
  }

  lemma IndexesDiffer(a: Text, b: Text)
    requires ArrayIndex(a).Some? && ArrayIndex(b).Some? && a != b
    ensures ArrayIndex(a) != ArrayIndex(b)
  {
    IndexIsCanonical(a);
    IndexIsCanonical(b);
  }

  lemma WritesApart(v: Json, p: seq<Text>, x: Json, q: seq<Text>, y: Json)
    requires p != [] && q != [] && p[0] != q[0]
    ensures SetIn(Set(v, p, x), q, y) == SetIn(Set(v, q, y), p, x)
  {
    hide Set, Store, IsProto, ArrayIndex, Indexes, HasChild, Child, WithChild;
    SetIsStore(v, p, x);
    SetIsStore(v, q, y);
    var c, d := NewChild(v, p, x), NewChild(v, q, y);
    if c.Some? && Store(v, p, c.value).Some? {
      SetIsStore(Store(v, p, c.value).value, q, y);
      StoresCommute(v, p, c.value, q, if d.Some? then d.value else Null);
    }
    if d.Some? && Store(v, q, d.value).Some? {
      SetIsStore(Store(v, q, d.value).value, p, x);
      StoresCommute(v, q, d.value, p, if c.Some? then c.value else Null);
    }
  }
}
