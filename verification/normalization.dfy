/**
 Applying a schema to a value: defaults, checks, and normalization of children. The schema's
 topological order is the termination measure.
 */
module Normalization {
  import opened CanonicalJson
  import opened CanonicalJsonParser
  import opened JsonPointer
  import opened SchemaProfile

  const K_TYPE: Text := Ascii("type")
  const K_REQUIRED: Text := Ascii("required")
  const K_ENUM: Text := Ascii("enum")
  const K_CONST: Text := Ascii("const")
  const K_DEFAULT: Text := Ascii("default")
  const K_MINIMUM: Text := Ascii("minimum")
  const K_MAXIMUM: Text := Ascii("maximum")
  const K_EXCLUSIVE_MINIMUM: Text := Ascii("exclusiveMinimum")
  const K_EXCLUSIVE_MAXIMUM: Text := Ascii("exclusiveMaximum")
  const K_MIN_ITEMS: Text := Ascii("minItems")
  const K_MAX_ITEMS: Text := Ascii("maxItems")
  const K_MIN_LENGTH: Text := Ascii("minLength")
  const K_MAX_LENGTH: Text := Ascii("maxLength")

  const T_OBJECT: Text := Ascii("object")
  const T_ARRAY: Text := Ascii("array")
  const T_STRING: Text := Ascii("string")
  const T_NUMBER: Text := Ascii("number")
  const T_INTEGER: Text := Ascii("integer")
  const T_BOOLEAN: Text := Ascii("boolean")
  const T_NULL: Text := Ascii("null")

  /** A root with the finishing order of its reference check. */
  datatype Schema = Schema(root: Json, order: seq<Json>)

  ghost predicate Sound(sc: Schema) {
    && Topological(sc.root, sc.order)
    && (sc.root.Obj? ==> sc.root in sc.order)
    && forall s | s in sc.order :: Canonical(s)
  }

  /** A node the reference check reached; values without keywords need not be. */
  predicate InScope(sc: Schema, s: Json) {
    s.Obj? ==> s in sc.order
  }

  ghost function Rank(sc: Schema, s: Json): nat
    requires InScope(sc, s)
  {
    if s.Obj? then Position(sc.order, s) + 1 else 0
  }

  /** Every edge from a node in scope falls in rank: normalization and dereferencing terminate. */
  lemma EdgesFall(sc: Schema, s: Json, c: Json)
    requires Sound(sc) && s.Obj? && InScope(sc, s) && c in Successors(sc.root, s)
    ensures Resolves(sc.root, s) && InScope(sc, c) && !c.Null? && Rank(sc, c) < Rank(sc, s)
  {
    hide Successors;
    var i := Position(sc.order, s);
    assert Placed(sc.root, sc.order[i], sc.order[..i]);
    if c.Obj? {
      EarlierPosition(sc.order, c, i);
    }
  }

  lemma ReferenceFalls(sc: Schema, s: Json)
    requires Sound(sc) && InScope(sc, s) && RefOf(s).Some?
    ensures Resolves(sc.root, s)
    ensures var c := Resolve(sc.root, RefOf(s).value).value; InScope(sc, c) && Rank(sc, c) < Rank(sc, s)
  {
    var i := Position(sc.order, s);
    assert Placed(sc.root, sc.order[i], sc.order[..i]);
    var c := Resolve(sc.root, RefOf(s).value).value;
    assert Successors(sc.root, s)[0] == c;
    EdgesFall(sc, s, c);
  }

  // Checks that look at the value as given.

  function SchemaTypes(s: Json): Option<set<Text>> {
    if !Has(s, K_TYPE) then Some({})
    else
      var t := s.fields[K_TYPE];
      if t.Str? then TypeNames([t])
      else if t.Arr? then TypeNames(t.items)
      else None
  }

  /** A non-empty list of distinct supported names; the source throws on any other. */
  function TypeNames(items: seq<Json>): Option<set<Text>> {
    if && items != []
       && (forall i | 0 <= i < |items| :: items[i].Str? && SupportedType(items[i].s))
       && (forall i, j | 0 <= i < j < |items| :: items[i] != items[j])
    then Some(set i | 0 <= i < |items| && items[i].Str? :: items[i].s)
    else None
  }

  predicate SupportedType(t: Text) {
    t == T_OBJECT || t == T_ARRAY || t == T_STRING || t == T_NUMBER || t == T_INTEGER || t == T_BOOLEAN || t == T_NULL
  }

  predicate HasType(v: Json, t: Text) {
    match v
    case Null => t == T_NULL
    case Bool(_) => t == T_BOOLEAN
    case Num(n) => t == T_NUMBER || (t == T_INTEGER && IsSafe(n))
    case Str(_) => t == T_STRING
    case Arr(_) => t == T_ARRAY
    case Obj(_) => t == T_OBJECT
  }

  predicate TypeAllows(s: Json, v: Json) {
    var types := SchemaTypes(s);
    types.Some? && (types.value == {} || exists t | t in types.value :: HasType(v, t))
  }

  /** `enum` and `const`, compared by canonical text, that is by equality of values. */
  predicate ChoicesAllow(s: Json, v: Json) {
    && (Has(s, K_ENUM) ==> s.fields[K_ENUM].Arr? && v in s.fields[K_ENUM].items)
    && (Has(s, K_CONST) ==> s.fields[K_CONST] == v)
  }

  function Bound(s: Json, key: Text): Option<int> {
    if Has(s, key) && s.fields[key].Num? then Some(s.fields[key].n) else None
  }

  predicate Within(s: Json, low: Text, high: Text, n: int) {
    && (Bound(s, low).Some? ==> Bound(s, low).value <= n)
    && (Bound(s, high).Some? ==> n <= Bound(s, high).value)
  }

  predicate NumberAllowed(s: Json, n: int) {
    var types := SchemaTypes(s);
    && (types.Some? && T_INTEGER in types.value && T_NUMBER !in types.value ==> IsSafe(n))
    && Within(s, K_MINIMUM, K_MAXIMUM, n)
    && (Bound(s, K_EXCLUSIVE_MINIMUM).Some? ==> Bound(s, K_EXCLUSIVE_MINIMUM).value < n)
    && (Bound(s, K_EXCLUSIVE_MAXIMUM).Some? ==> n < Bound(s, K_EXCLUSIVE_MAXIMUM).value)
  }

  /** `[...value].length`: a surrogate pair counts once. */
  function CodePointCount(s: Text): nat {
    if s == [] then 0
    else if |s| >= 2 && HighSurrogate(s[0]) && LowSurrogate(s[1]) then 1 + CodePointCount(s[2..])
    else 1 + CodePointCount(s[1..])
  }

  // Children.

  predicate HasDefault(p: Json) {
    Has(p, K_DEFAULT)
  }

  /** The members, with the default of every absent property that has one. */
  function Fill(s: Json, fields: map<Text, Json>): (filled: map<Text, Json>)
    ensures forall k :: k in filled <==> k in fields || (k in Properties(s) && HasDefault(Properties(s)[k]))
    ensures forall k | k in fields :: filled[k] == fields[k]
  {
    (map k | k in Properties(s) && HasDefault(Properties(s)[k]) :: Properties(s)[k].fields[K_DEFAULT]) + fields
  }

  predicate RequiredPresent(s: Json, keys: set<Text>) {
    if !Has(s, K_REQUIRED) || s.fields[K_REQUIRED].Null? then true
    else
      var r := s.fields[K_REQUIRED];
      r.Arr? && forall i | 0 <= i < |r.items| :: r.items[i].Str? && r.items[i].s in keys
  }

  /** The schema of an object member: its property, else `additionalProperties`, else no constraint. */
  function MemberSchema(s: Json, key: Text): Json {
    if key in Properties(s) then Properties(s)[key]
    else if Has(s, K_ADDITIONAL) && IsSchemaValue(s.fields[K_ADDITIONAL]) then s.fields[K_ADDITIONAL]
    else Bool(true)
  }

  function ItemSchema(s: Json): Json {
    if Has(s, K_ITEMS) then s.fields[K_ITEMS] else Bool(true)
  }

  lemma MemberSchemaFalls(sc: Schema, s: Json, key: Text)
    requires Sound(sc) && s.Obj? && InScope(sc, s)
    ensures InScope(sc, MemberSchema(s, key)) && Rank(sc, MemberSchema(s, key)) < Rank(sc, s)
  {
    hide Resolve, Topological, SortedKeys;
    var c := MemberSchema(s, key);
    var properties := Properties(s);
    var keys := SortedKeys(properties.Keys);
    if key in properties {
      assert key in keys;
      var i :| 0 <= i < |keys| && keys[i] == key;
      assert Values(properties, keys)[i] == c;
      assert c in Successors(sc.root, s);
      EdgesFall(sc, s, c);
    } else if c != Bool(true) {
      assert Single(s, K_ADDITIONAL)[0] == c;
      assert c in Successors(sc.root, s);
      EdgesFall(sc, s, c);
    }
  }

  lemma ItemSchemaFalls(sc: Schema, s: Json)
    requires Sound(sc) && s.Obj? && InScope(sc, s)
    ensures InScope(sc, ItemSchema(s)) && Rank(sc, ItemSchema(s)) < Rank(sc, s)
  {
    hide Resolve, Topological, SortedKeys;
    var c := ItemSchema(s);
    if c.Obj? {
      assert Single(s, K_ITEMS)[0] == c;
      assert c in Successors(sc.root, s);
      EdgesFall(sc, s, c);
    }
  }

  // Normalization.

  /** `normalizeAgainstSchema`; None where the source throws. */
  function Normalize(sc: Schema, s: Json, v: Json): Option<Json>
    requires Sound(sc) && InScope(sc, s)
    decreases Rank(sc, s), 2
  {
    if !s.Obj? then
      if s == Bool(false) || s.Null? || !Canonical(v) then None else Some(v)
    else if RefOf(s).Some? then
      ReferenceFalls(sc, s);
      match Normalize(sc, Resolve(sc.root, RefOf(s).value).value, v)
      case None => None
      case Some(t) => if s.fields.Keys == {K_REF} then Some(t) else NormalizeNode(sc, s, t)
    else NormalizeNode(sc, s, v)
  }

  /** A node's own keywords, `$ref` aside. */
  function NormalizeNode(sc: Schema, s: Json, v: Json): Option<Json>
    requires Sound(sc) && s.Obj? && InScope(sc, s)
    decreases Rank(sc, s), 1
  {
    if !Canonical(v) || !ChoicesAllow(s, v) || !TypeAllows(s, v) then None
    else
      match v
      case Obj(fields) =>
        var filled := Fill(s, fields);
        if RequiredPresent(s, filled.Keys) && forall k | k in filled :: NormalizeMember(sc, s, k, filled[k]).Some?
        then Some(Obj(map k | k in filled :: NormalizeMember(sc, s, k, filled[k]).value))
        else None
      case Arr(items) =>
        if Within(s, K_MIN_ITEMS, K_MAX_ITEMS, |items|) && forall i | 0 <= i < |items| ::
            NormalizeItem(sc, s, items[i]).Some?
        then Some(Arr(seq(|items|, i requires 0 <= i < |items| && NormalizeItem(sc, s, items[i]).Some? =>
          NormalizeItem(sc, s, items[i]).value)))
        else None
      case Num(n) => if NumberAllowed(s, n) then Some(v) else None
      case Str(t) => if Within(s, K_MIN_LENGTH, K_MAX_LENGTH, CodePointCount(t)) then Some(v) else None
      case _ => Some(v)
  }

  function NormalizeMember(sc: Schema, s: Json, key: Text, v: Json): Option<Json>
    requires Sound(sc) && s.Obj? && InScope(sc, s)
    decreases Rank(sc, s), 0
  {
    MemberSchemaFalls(sc, s, key);
    Normalize(sc, MemberSchema(s, key), v)
  }

  function NormalizeItem(sc: Schema, s: Json, v: Json): Option<Json>
    requires Sound(sc) && s.Obj? && InScope(sc, s)
    decreases Rank(sc, s), 0
  {
    ItemSchemaFalls(sc, s);
    Normalize(sc, ItemSchema(s), v)
  }

  /** `dereference`: follow `$ref` until a node without one; a null node makes the source throw. */
  function Dereference(sc: Schema, s: Json): (d: Option<Json>)
    requires Sound(sc) && InScope(sc, s)
    ensures d.Some? ==> InScope(sc, d.value) && RefOf(d.value).None?
    decreases Rank(sc, s)
  {
    if s.Null? then None
    else if RefOf(s).Some? then
      ReferenceFalls(sc, s);
      Dereference(sc, Resolve(sc.root, RefOf(s).value).value)
    else Some(s)
  }

  /** `objectChildSchema`; None is MISSING. */
  function ObjectChildSchema(s: Json, key: Text): Option<Json> {
    if s.Bool? then (if s.b then Some(Bool(true)) else None)
    else if key in Properties(s) then Some(Properties(s)[key])
    else if Has(s, K_ADDITIONAL)
      && s.fields[K_ADDITIONAL].Bool? then (if s.fields[K_ADDITIONAL].b then Some(Bool(true)) else None)
    else if Has(s, K_ADDITIONAL) && s.fields[K_ADDITIONAL].Obj? then Some(s.fields[K_ADDITIONAL])
    else None
  }

  /** `arrayChildSchema`. */
  function ArrayChildSchema(s: Json): Option<Json> {
    if s.Bool? then (if s.b then Some(Bool(true)) else None)
    else if Has(s, K_ITEMS) && IsSchemaValue(s.fields[K_ITEMS]) then Some(s.fields[K_ITEMS])
    else None
  }

  function ChildSchema(s: Json, v: Json, token: Text): Option<Json> {
    if v.Obj? then ObjectChildSchema(s, token) else ArrayChildSchema(s)
  }

  lemma ChildSchemaInScope(sc: Schema, s: Json, v: Json, token: Text)
    requires Sound(sc) && InScope(sc, s) && ChildSchema(s, v, token).Some?
    ensures InScope(sc, ChildSchema(s, v, token).value)
  {
    if s.Obj? {
      MemberSchemaFalls(sc, s, token);
      ItemSchemaFalls(sc, s);
    }
  }

  /** `setPointer`: a write at which the schema admits every step. */
  function SchemaSet(sc: Schema, s: Json, v: Json, tokens: seq<Text>, x: Json): Option<Json>
    requires Sound(sc) && InScope(sc, s)
    decreases tokens
  {
    if tokens == [] then None
    else
      match Dereference(sc, s)
      case None => None
      case Some(d) =>
        var token := tokens[0];
        var child := ChildSchema(d, v, token);
        if child.None? || !(v.Obj? || HasChild(v, token)) then None
        else if |tokens| == 1 then Set(v, tokens, x)
        else if !HasChild(v, token) then None
        else
          ChildSchemaInScope(sc, d, v, token);
          match SchemaSet(sc, child.value, Child(v, token), tokens[1..], x)
          case None => None
          case Some(c) => Some(WithChild(v, token, c))
  }

  /** Where the schema admits the write, it is the plain write. */
  lemma {:induction false} SchemaSetIsSet(sc: Schema, s: Json, v: Json, tokens: seq<Text>, x: Json)
    requires Sound(sc) && InScope(sc, s) && SchemaSet(sc, s, v, tokens, x).Some?
    ensures Set(v, tokens, x) == SchemaSet(sc, s, v, tokens, x)
    decreases tokens
  {
    hide Dereference, ChildSchema;
    if |tokens| > 1 {
      var d := Dereference(sc, s).value;
      ChildSchemaInScope(sc, d, v, tokens[0]);
      SchemaSetIsSet(sc, ChildSchema(d, v, tokens[0]).value, Child(v, tokens[0]), tokens[1..], x);
    }
  }
}
