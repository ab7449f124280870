/**
 Canonical JSON: the value type, which values `encode` accepts, and the text it prints.

 Strings are sequences of 16-bit code units, as in ECMAScript, so lone surrogates and
 code-unit ordering can be expressed. `Num(n)` is the number that JSON.stringify prints as
 the plain decimal integer `n`; below 2^53 in magnitude that is the integer itself.
 */
module CanonicalJson {

  type CodeUnit = u: int | 0 <= u < 0x10000
  type Text = seq<CodeUnit>

  datatype Json =
    | Null
    | Bool(b: bool)
    | Num(n: int)
    | Str(s: Text)
    | Arr(items: seq<Json>)
    | Obj(fields: map<Text, Json>)

  datatype Option<+T> = None | Some(value: T)

  /** The code units of an ASCII literal. */
  function Ascii(s: string): (t: Text)
    ensures |t| == |s|
    ensures forall i | 0 <= i < |s| :: t[i] == s[i] as int % 0x10000
  {
    seq(|s|, i requires 0 <= i < |s| => s[i] as int % 0x10000)
  }

  const QUOTE: CodeUnit := 0x22
  const COMMA: CodeUnit := 0x2C
  const COLON: CodeUnit := 0x3A
  const BACKSLASH: CodeUnit := 0x5C
  const OPEN_BRACKET: CodeUnit := 0x5B
  const CLOSE_BRACKET: CodeUnit := 0x5D
  const OPEN_BRACE: CodeUnit := 0x7B
  const CLOSE_BRACE: CodeUnit := 0x7D
  const MINUS: CodeUnit := 0x2D
  const ZERO: CodeUnit := 0x30
  const LOWER_U: CodeUnit := 0x75

  const TRUE_TEXT: Text := [0x74, 0x72, 0x75, 0x65]
  const FALSE_TEXT: Text := [0x66, 0x61, 0x6C, 0x73, 0x65]
  const NULL_TEXT: Text := [0x6E, 0x75, 0x6C, 0x6C]

  /** Number.MAX_SAFE_INTEGER. */
  const MAX_SAFE: int := 0x1F_FFFF_FFFF_FFFF
  /** From 10^21 on, JSON.stringify prints an exponent instead of plain digits. */
  const PLAIN_LIMIT: int := 1_000_000_000_000_000_000_000

  predicate IsSafe(n: int) {
    -MAX_SAFE <= n <= MAX_SAFE
  }

  predicate DangerousKey(k: Text) {
    k == Ascii("__proto__") || k == Ascii("prototype") || k == Ascii("constructor")
  }

  predicate HighSurrogate(u: CodeUnit) {
    0xD800 <= u <= 0xDBFF
  }

  predicate LowSurrogate(u: CodeUnit) {
    0xDC00 <= u <= 0xDFFF
  }

  /** No lone surrogate: every high surrogate is followed by a low one, and conversely. */
  predicate WellFormed(s: Text) {
    if s == [] then true
    else if HighSurrogate(s[0]) then |s| >= 2 && LowSurrogate(s[1]) && WellFormed(s[2..])
    else !LowSurrogate(s[0]) && WellFormed(s[1..])
  }

  /** The values `encode` accepts; on every other value it throws. */
  predicate Canonical(v: Json) {
    match v
    case Num(n) => -PLAIN_LIMIT < n < PLAIN_LIMIT
    case Str(s) => WellFormed(s)
    case Arr(items) => forall i | 0 <= i < |items| :: Canonical(items[i])
    case Obj(fields) => forall k | k in fields :: WellFormed(k) && !DangerousKey(k) && Canonical(fields[k])
    case _ => true
  }

  /** Every number in the value is a safe integer. */
  predicate AllSafe(v: Json) {
    match v
    case Num(n) => IsSafe(n)
    case Arr(items) => forall i | 0 <= i < |items| :: AllSafe(items[i])
    case Obj(fields) => forall k | k in fields :: AllSafe(fields[k])
    case _ => true
  }

  // Code-unit order, the order of ECMAScript's default sort.

  predicate Less(a: Text, b: Text) {
    if b == [] then false
    else if a == [] then true
    else a[0] < b[0] || (a[0] == b[0] && Less(a[1..], b[1..]))
  }

  lemma {:induction false} LessIsTotal(a: Text, b: Text)
    ensures a == b || Less(a, b) || Less(b, a)
  {
    if a != [] && b != [] && a[0] == b[0] {
      LessIsTotal(a[1..], b[1..]);
      if a[1..] == b[1..] {
        assert a == [a[0]] + a[1..] && b == [b[0]] + b[1..];
      }
    }
  }

  lemma {:induction false} LessIsTransitive(a: Text, b: Text, c: Text)
    requires Less(a, b) && Less(b, c)
    ensures Less(a, c)
  {
    if a != [] && a[0] == b[0] == c[0] {
      LessIsTransitive(a[1..], b[1..], c[1..]);
    }
  }

  lemma {:induction false} LessIsIrreflexive(a: Text)
    ensures !Less(a, a)
  {
    if a != [] {
      LessIsIrreflexive(a[1..]);
    }
  }

  predicate IsLeast(k: Text, keys: set<Text>) {
    k in keys && forall x | x in keys && x != k :: Less(k, x)
  }

  lemma {:induction false} LeastExists(keys: set<Text>)
    requires keys != {}
    ensures exists k :: IsLeast(k, keys)
    decreases |keys|
  {
    var x :| x in keys;
    if keys == {x} {
      assert IsLeast(x, keys);
    } else {
      LeastExists(keys - {x});
      var k :| IsLeast(k, keys - {x});
      LessIsTotal(k, x);
      if Less(k, x) {
        assert IsLeast(k, keys);
      } else {
        forall y | y in keys && y != x
          ensures Less(x, y)
        {
          if y != k {
            LessIsTransitive(x, k, y);
          }
        }
        assert IsLeast(x, keys);
      }
    }
  }

  lemma LeastIsUnique(keys: set<Text>)
    ensures forall j, k | IsLeast(j, keys) && IsLeast(k, keys) :: j == k
  {
    forall j, k | IsLeast(j, keys) && IsLeast(k, keys) && j != k
      ensures false
    {
      LessIsTransitive(j, k, j);
      LessIsIrreflexive(j);
    }
  }

  predicate Ascending(keys: seq<Text>) {
    forall i, j | 0 <= i < j < |keys| :: Less(keys[i], keys[j])
  }

  /** The keys of an object in the order `encode` prints them. */
  function SortedKeys(keys: set<Text>): (r: seq<Text>)
    ensures |r| == |keys|
    ensures forall k :: k in r <==> k in keys
    ensures Ascending(r)
    decreases |keys|
  {
    if keys == {} then []
    else
      LeastExists(keys);
      LeastIsUnique(keys);
      var k :| k in keys && IsLeast(k, keys);
      var rest := SortedKeys(keys - {k});
      LeastFirst(k, keys, rest);
      [k] + rest
  }

  lemma LeastFirst(k: Text, keys: set<Text>, rest: seq<Text>)
    requires k in keys && IsLeast(k, keys) && Ascending(rest)
    requires forall x :: x in rest <==> x in keys - {k}
    ensures Ascending([k] + rest)
    ensures forall x :: x in [k] + rest <==> x in keys
  {
    hide Less;
    var r := [k] + rest;
    forall j | 1 <= j < |r|
      ensures r[j] in keys && r[j] != k && r[j] == rest[j - 1]
    {
      assert rest[j - 1] in rest;
    }
  }

  lemma SortedTail(keys: set<Text>)
    requires keys != {}
    ensures var r := SortedKeys(keys); r != [] && r[1..] == SortedKeys(keys - {r[0]})
  {
    hide IsLeast, Ascending;
    var r := SortedKeys(keys);
    LeastExists(keys);
    LeastIsUnique(keys);
    var least :| least in keys && IsLeast(least, keys) && r == [least] + SortedKeys(keys - {least});
  }

  /** Sorting forgets insertion order: an object's keys have one ascending enumeration. */
  lemma {:induction false} SortIsUnique(keys: set<Text>, sorted: seq<Text>)
    requires Ascending(sorted)
    requires forall k :: k in sorted <==> k in keys
    ensures sorted == SortedKeys(keys)
    decreases |sorted|
  {
    var r := SortedKeys(keys);
    if sorted == [] {
      assert keys == {};
    } else {
      assert sorted[0] in keys;
      AscendingHead(sorted, r);
      var rest := keys - {r[0]};
      forall k
        ensures k in sorted[1..] <==> k in rest
      {
        AscendingTail(sorted, k);
      }
      SortIsUnique(rest, sorted[1..]);
      SortedTail(keys);
      assert sorted == [sorted[0]] + sorted[1..];
    }
  }

  lemma AscendingHead(a: seq<Text>, b: seq<Text>)
    requires Ascending(a) && Ascending(b) && a != []
    requires forall k :: k in a <==> k in b
    ensures b != [] && a[0] == b[0]
  {
    assert a[0] in b;
    assert b[0] in a;
    if a[0] != b[0] {
      assert Less(a[0], b[0]);
      assert Less(b[0], a[0]);
      LessIsTransitive(a[0], b[0], a[0]);
      LessIsIrreflexive(a[0]);
    }
  }

  lemma AscendingTail(a: seq<Text>, k: Text)
    requires Ascending(a) && a != []
    ensures k in a[1..] <==> k in a && k != a[0]
  {
    LessIsIrreflexive(a[0]);
    if k in a && k != a[0] {
      var i :| 0 <= i < |a| && a[i] == k;
      assert a[1..][i - 1] == k;
    }
  }

  // Printing.

  function HexDigit(d: int): CodeUnit
    requires 0 <= d < 16
  {
    if d < 10 then 0x30 + d else 0x57 + d
  }

  /** How JSON.stringify writes one code unit of a well-formed string. */
  function Escape(u: CodeUnit): (t: Text)
    ensures t != []
  {
    if u == QUOTE || u == BACKSLASH then [BACKSLASH, u]
    else if u == 0x08 then [BACKSLASH, 0x62]
    else if u == 0x09 then [BACKSLASH, 0x74]
    else if u == 0x0A then [BACKSLASH, 0x6E]
    else if u == 0x0C then [BACKSLASH, 0x66]
    else if u == 0x0D then [BACKSLASH, 0x72]
    else if u < 0x20 then [BACKSLASH, LOWER_U, ZERO, ZERO, HexDigit(u / 16), HexDigit(u % 16)]
    else [u]
  }

  function EscapeAll(s: Text): Text {
    if s == [] then [] else Escape(s[0]) + EscapeAll(s[1..])
  }

  function Quote(s: Text): Text {
    [QUOTE] + EscapeAll(s) + [QUOTE]
  }

  function Decimal(n: nat): (t: Text)
    ensures t != []
  {
    if n < 10 then [ZERO + n] else Decimal(n / 10) + [ZERO + n % 10]
  }

  function PrintInt(n: int): Text {
    if n < 0 then [MINUS] + Decimal(-n) else Decimal(n)
  }

  function Print(v: Json): (t: Text)
    ensures t != []
    decreases v, 1, 0
  {
    match v
    case Null => NULL_TEXT
    case Bool(b) => if b then TRUE_TEXT else FALSE_TEXT
    case Num(n) => PrintInt(n)
    case Str(s) => Quote(s)
    case Arr(items) => [OPEN_BRACKET] + PrintItems(items) + [CLOSE_BRACKET]
    case Obj(fields) => [OPEN_BRACE] + PrintMembers(v, SortedKeys(fields.Keys)) + [CLOSE_BRACE]
  }

  function PrintItems(items: seq<Json>): Text
    decreases items, 0, 0
  {
    if items == [] then []
    else if |items| == 1 then Print(items[0])
    else Print(items[0]) + [COMMA] + PrintItems(items[1..])
  }

  function PrintMember(v: Json, k: Text): Text
    requires v.Obj? && k in v.fields
    decreases v, 0, 0
  {
    Quote(k) + [COLON] + Print(v.fields[k])
  }

  function PrintMembers(v: Json, keys: seq<Text>): Text
    requires v.Obj? && forall k | k in keys :: k in v.fields
    decreases v, 0, |keys|
  {
    if keys == [] then []
    else if |keys| == 1 then PrintMember(v, keys[0])
    else PrintMember(v, keys[0]) + [COMMA] + PrintMembers(v, keys[1..])
  }

  /** The encoder: text for a canonical value, a thrown TypeError for any other. */
  function Encode(v: Json): Option<Text> {
    if Canonical(v) then Some(Print(v)) else None
  }

  /** The surrogate scan, with its index that skips two units over a pair. */
  method AssertString(value: Text) returns (ok: bool)
    ensures ok == WellFormed(value)
  {
    var index := 0;
    assert value[0..] == value;
    while index < |value|
      invariant 0 <= index <= |value|
      invariant WellFormed(value) == WellFormed(value[index..])
    {
      var code := value[index];
      if HighSurrogate(code) {
        if index + 1 >= |value| || !LowSurrogate(value[index + 1]) {
          return false;
        }
        assert value[index..][2..] == value[index + 2..];
        index := index + 1;
      } else if LowSurrogate(code) {
        return false;
      } else {
        assert value[index..][1..] == value[index + 1..];
      }
      index := index + 1;
    }
    return true;
  }
}
