/** Schemas outside the two classes, on which the fixed-point laws fail. */
module NormalizationWitnesses {
  import opened CanonicalJson
  import opened CanonicalJsonParser
  import opened JsonPointer
  import opened SchemaProfile
  import opened Normalization
  import opened NormalizationLaws
  import opened CanonicalBytes
  import opened SchemaValidation

  const X: Text := Ascii("x")
  const Y: Text := Ascii("y")
  const Z: Text := Ascii("z")
  const T: Text := Ascii("T")
  const EMPTY: Json := Obj(map[])
  const REFERENCE: Text := Ascii("#/$defs/T")

  /** A node that supplies 1 where nothing is given. */
  const ONE_BY_DEFAULT: Json := Obj(map[K_DEFAULT := Num(1)])

  /** `enum: [{}]` beside a property with a default. */
  const CHOICE: Json := Obj(map[
    K_SCHEMA := Str(DIALECT),
    K_ENUM := Arr([EMPTY]),
    K_PROPERTIES := Obj(map[X := ONE_BY_DEFAULT]),
    K_ADDITIONAL := Bool(false)])

  /** A reference whose target normalizes what the sibling property supplies. */
  const INNER: Json := Obj(map[
    K_PROPERTIES := Obj(map[Z := ONE_BY_DEFAULT]),
    K_ADDITIONAL := Bool(false)])
  const TARGET: Json := Obj(map[K_ADDITIONAL := INNER])
  const EMPTY_BY_DEFAULT: Json := Obj(map[K_DEFAULT := EMPTY])
  const SIBLING: Json := Obj(map[
    K_SCHEMA := Str(DIALECT),
    K_DEFS := Obj(map[T := TARGET]),
    K_REF := Str(REFERENCE),
    K_PROPERTIES := Obj(map[Y := EMPTY_BY_DEFAULT]),
    K_ADDITIONAL := EMPTY])

  lemma NamesDiffer()
    ensures X != Y && X != Z && Y != Z
  {
    assert X[0] != Y[0] && X[0] != Z[0] && Y[0] != Z[0];
  }

  lemma KeywordsDiffer()
    ensures K_ENUM != K_PROPERTIES && K_ENUM != K_CONST && K_ENUM != K_TYPE && K_ENUM != K_REQUIRED
    ensures K_ENUM != K_ADDITIONAL && K_ENUM != K_REF && K_ENUM != K_ITEMS && K_ENUM != K_DEFAULT && K_ENUM != K_DEFS
    ensures K_CONST != K_PROPERTIES && K_CONST != K_DEFAULT && K_CONST != K_ADDITIONAL && K_CONST != K_DEFS
    ensures K_CONST != K_REF
    ensures K_TYPE != K_PROPERTIES && K_TYPE != K_DEFAULT && K_TYPE != K_ADDITIONAL && K_TYPE != K_DEFS
    ensures K_TYPE != K_REF
    ensures K_REQUIRED != K_PROPERTIES && K_REQUIRED != K_ADDITIONAL && K_REQUIRED != K_DEFAULT && K_REQUIRED != K_DEFS
    ensures K_REQUIRED != K_REF
    ensures K_PROPERTIES != K_ADDITIONAL && K_PROPERTIES != K_DEFAULT && K_PROPERTIES != K_DEFS && K_PROPERTIES != K_REF
    ensures K_ADDITIONAL != K_DEFAULT && K_ADDITIONAL != K_DEFS && K_ADDITIONAL != K_REF
    ensures K_DEFAULT != K_REF && K_DEFAULT != K_DEFS && K_REF != K_DEFS
    ensures K_SCHEMA !in {K_ENUM, K_CONST, K_TYPE, K_REQUIRED, K_PROPERTIES, K_ADDITIONAL, K_DEFAULT, K_REF, K_DEFS,
            K_ITEMS}
    ensures K_ITEMS !in {K_PROPERTIES, K_ADDITIONAL, K_DEFAULT, K_REF, K_DEFS, K_ENUM}
  {
    assert |K_SCHEMA| == 7 && K_SCHEMA[0] == 0x24 && K_DEFAULT[0] == 0x64 && K_ITEMS[0] == 0x69;
    assert |K_ENUM| == 4 && |K_TYPE| == 4 && K_ENUM[0] != K_TYPE[0] && |K_REF| == 4 && K_REF[0] == 0x24
        && K_ENUM[0] == 0x65;
    assert K_TYPE[0] == 0x74;
    assert |K_CONST| == 5 && |K_DEFS| == 5 && |K_ITEMS| == 5 && K_CONST[0] != K_DEFS[0];
    assert |K_PROPERTIES| == 10 && |K_REQUIRED| == 8 && |K_ADDITIONAL| == 20 && |K_DEFAULT| == 7;
  }

  lemma BoundsDiffer()
    ensures K_DEFAULT != K_MINIMUM && K_DEFAULT != K_MAXIMUM && K_DEFAULT != K_EXCLUSIVE_MINIMUM
    ensures K_DEFAULT != K_EXCLUSIVE_MAXIMUM
  {
    assert |K_MINIMUM| == 7 && K_MINIMUM[0] == 0x6D && |K_MAXIMUM| == 7 && K_MAXIMUM[0] == 0x6D && K_DEFAULT[0] == 0x64;
    assert |K_EXCLUSIVE_MINIMUM| == 16 && |K_EXCLUSIVE_MAXIMUM| == 16 && |K_DEFAULT| == 7;
  }

  lemma OneMemberIsCanonical(k: Text, v: Json)
    requires (k == X || k == Y || k == Z) && Canonical(v)
    ensures Canonical(Obj(map[k := v]))
  {
    PlainTextIsWellFormed(k);
    assert |k| == 1;
  }

  lemma OneFacts()
    ensures var s := ONE_BY_DEFAULT;
            RefOf(s).None? && SchemaTypes(s) == Some({}) && ChoicesAllow(s, Num(1)) && NumberAllowed(s, 1)
  {
    KeywordsDiffer();
    BoundsDiffer();
    var s := ONE_BY_DEFAULT;
    assert SchemaTypes(s) == Some({});
  }

  lemma OneByDefaultKeeps(sc: Schema)
    requires Sound(sc) && InScope(sc, ONE_BY_DEFAULT)
    ensures Normalize(sc, ONE_BY_DEFAULT, Num(1)) == Some(Num(1))
  {
    OneFacts();
    hide RefOf, SchemaTypes, ChoicesAllow, NumberAllowed;
    NodeIsRelation(sc, ONE_BY_DEFAULT, Num(1), Num(1));
  }

  /** No keyword that could refuse an object. */
  predicate Admits(s: Json) {
    !Has(s, K_TYPE) && !Has(s, K_REQUIRED) && !Has(s, K_CONST)
  }

  lemma AdmittedObject(sc: Schema, s: Json, v: Json, filled: map<Text, Json>, w: Json)
    requires Sound(sc) && s.Obj? && InScope(sc, s)
    requires Admits(s) && ChoicesAllow(s, v) && v.Obj? && w.Obj? && Canonical(v)
    requires Fill(s, v.fields) == filled && w.fields.Keys == filled.Keys
    requires forall k | k in filled :: NormalizeMember(sc, s, k, filled[k]) == Some(w.fields[k])
    ensures NormalizeNode(sc, s, v) == Some(w)
  {
    hide NormalizeNode, NormalizeMember, Canonical, ChoicesAllow, Fill;
    NodeIsRelation(sc, s, v, w);
    assert SchemaTypes(s) == Some({});
  }

  lemma FillsOne(s: Json, key: Text, supplied: Json)
    requires Properties(s) == map[key := Obj(map[K_DEFAULT := supplied])]
    ensures Fill(s, map[]) == map[key := supplied]
  {
    hide Properties;
    assert HasDefault(Properties(s)[key]);
  }

  /** Normalizing the empty object against a node whose only effect is to supply one member. */
  lemma SuppliesOne(sc: Schema, s: Json, key: Text, supplied: Json)
    requires Sound(sc) && s.Obj? && InScope(sc, s)
    requires Admits(s) && ChoicesAllow(s, EMPTY)
    requires Properties(s) == map[key := Obj(map[K_DEFAULT := supplied])]
    requires NormalizeMember(sc, s, key, supplied) == Some(supplied)
    ensures NormalizeNode(sc, s, EMPTY) == Some(Obj(map[key := supplied]))
  {
    hide NormalizeNode, NormalizeMember, ChoicesAllow, Fill, Properties, Admits, Sound, InScope;
    FillsOne(s, key, supplied);
    AdmittedObject(sc, s, EMPTY, map[key := supplied], Obj(map[key := supplied]));
  }

  lemma ChoiceFacts()
    ensures RefOf(CHOICE).None? && Admits(CHOICE) && Properties(CHOICE) == map[X := ONE_BY_DEFAULT]
    ensures ChoicesAllow(CHOICE, EMPTY) && !ChoicesAllow(CHOICE, Obj(map[X := Num(1)]))
  {
    KeywordsDiffer();
    var keyed := Obj(map[X := Num(1)]);
    assert X in keyed.fields && X !in EMPTY.fields;
    assert CHOICE.fields[K_ENUM] == Arr([EMPTY]);
  }

  /** With a non-scalar choice, normalization can fail on its own output. */
  lemma ChoicesMustBeScalars(sc: Schema)
    requires Sound(sc) && sc.root == CHOICE && InScope(sc, CHOICE)
    ensures Normalize(sc, CHOICE, EMPTY) == Some(Obj(map[X := Num(1)]))
    ensures Normalize(sc, CHOICE, Obj(map[X := Num(1)])).None?
  {
    ChoiceFacts();
    hide Properties, ChoicesAllow, Admits, RefOf;
    MemberSchemaFalls(sc, CHOICE, X);
    OneByDefaultKeeps(sc);
    SuppliesOne(sc, CHOICE, X, Num(1));
  }

  lemma ReferenceParses()
    ensures Ascii("#/$defs/") <= REFERENCE
    ensures ParsePointer(REFERENCE[1..], true) == Some([K_DEFS, T])
  {
    var pointer := REFERENCE[1..];
    var rest := pointer[1..];
    var tokens := [K_DEFS, T];
    assert pointer[0] == SLASH && rest == K_DEFS + ([SLASH] + T);
    SplitOfPart(K_DEFS, [SLASH] + T);
    SplitOfPart(T, []);
    assert T + [] == T && ([SLASH] + T)[1..] == T;
    assert Split(rest) == tokens;
    PlainTokenIsItself(K_DEFS);
    PlainTokenIsItself(T);
    hide Split, WellEscaped, UnescapeToken;
    assert tokens[0] == K_DEFS && tokens[1] == T;
    assert seq(|tokens|, i requires 0 <= i < |tokens| => UnescapeToken(tokens[i])) == tokens;
  }

  lemma ReferenceResolves()
    ensures RefOf(SIBLING) == Some(REFERENCE)
    ensures Resolve(SIBLING, REFERENCE) == Some(TARGET)
  {
    KeywordsDiffer();
    ReferenceParses();
    hide ParsePointer;
    var tokens := [K_DEFS, T];
    assert tokens[1..] == [T] && [T][1..] == [];
    assert Descend(TARGET, []) == Some(TARGET);
    assert Descend(Obj(map[T := TARGET]), [T]) == Some(TARGET);
    assert Descend(SIBLING, tokens) == Some(TARGET);
  }

  lemma {:induction false} PlainTokenIsItself(t: Text)
    requires forall i | 0 <= i < |t| :: t[i] != TILDE
    ensures WellEscaped(t) && UnescapeToken(t) == t
  {
    PlainPairs(t, ONE, SLASH);
    PlainPairs(t, ZERO, TILDE);
  }

  lemma {:induction false} PlainPairs(t: Text, b: CodeUnit, with: CodeUnit)
    requires forall i | 0 <= i < |t| :: t[i] != TILDE
    ensures ReplacePair(t, TILDE, b, with) == t
  {
    if t != [] {
      PlainPairs(t[1..], b, with);
      assert t == [t[0]] + t[1..];
    }
  }

  /** With a rewriting sibling of a reference, a second normalization can change the value. */
  lemma ReferenceSiblingsMustOnlyCheck(sc: Schema)
    requires Sound(sc) && sc.root == SIBLING && InScope(sc, SIBLING)
    ensures Normalize(sc, SIBLING, EMPTY) == Some(Obj(map[Y := EMPTY]))
    ensures Normalize(sc, SIBLING, Obj(map[Y := EMPTY])) == Some(Obj(map[Y := Obj(map[Z := Num(1)])]))
    ensures Obj(map[Y := EMPTY]) != Obj(map[Y := Obj(map[Z := Num(1)])])
  {
    hide Resolve;
    ReferenceResolves();
    ReferenceFalls(sc, SIBLING);
    TargetOnEmpty(sc);
    SiblingOnEmpty(sc);
    TargetOnSupplied(sc);
    SiblingOnSupplied(sc);
    KeywordsDiffer();
    assert K_DEFS in SIBLING.fields.Keys && K_DEFS !in {K_REF};
    assert Z !in EMPTY.fields;
    var one, two := map[Y := EMPTY], map[Y := Obj(map[Z := Num(1)])];
    assert one[Y] != two[Y];
  }

  lemma TargetFacts()
    ensures RefOf(TARGET).None? && Admits(TARGET) && Properties(TARGET) == map[]
    ensures (forall k :: MemberSchema(TARGET, k) == INNER) && forall v :: ChoicesAllow(TARGET, v)
  {
    KeywordsDiffer();
  }

  lemma InnerFacts()
    ensures RefOf(INNER).None? && Admits(INNER) && Properties(INNER) == map[Z := ONE_BY_DEFAULT]
    ensures ChoicesAllow(INNER, EMPTY)
  {
    KeywordsDiffer();
  }

  lemma SiblingFacts()
    ensures Admits(SIBLING) && Properties(SIBLING) == map[Y := EMPTY_BY_DEFAULT] && forall v :: ChoicesAllow(SIBLING, v)
  {
    KeywordsDiffer();
  }

  lemma EmptyByDefaultFacts()
    ensures var s := EMPTY_BY_DEFAULT;
            && RefOf(s).None? && Admits(s) && Properties(s) == map[]
            && (forall v :: ChoicesAllow(s, v)) && forall k :: MemberSchema(s, k) == Bool(true)
  {
    KeywordsDiffer();
  }

  lemma NothingToFill(s: Json, fields: map<Text, Json>)
    requires forall k | k in Properties(s) :: k in fields
    ensures Fill(s, fields) == fields
  {
    hide Properties;
  }

  lemma TargetOnEmpty(sc: Schema)
    requires Sound(sc) && InScope(sc, TARGET)
    ensures Normalize(sc, TARGET, EMPTY) == Some(EMPTY)
  {
    TargetFacts();
    NothingToFill(TARGET, map[]);
    hide Properties, ChoicesAllow, Admits, RefOf, Fill, MemberSchema;
    AdmittedObject(sc, TARGET, EMPTY, map[], EMPTY);
  }

  lemma SiblingOnEmpty(sc: Schema)
    requires Sound(sc) && InScope(sc, SIBLING)
    ensures NormalizeNode(sc, SIBLING, EMPTY) == Some(Obj(map[Y := EMPTY]))
  {
    SiblingFacts();
    hide Properties, ChoicesAllow, Admits;
    MemberSchemaFalls(sc, SIBLING, Y);
    DefaultedKeeps(sc, EMPTY);
    SuppliesOne(sc, SIBLING, Y, EMPTY);
  }

  lemma DefaultedKeeps(sc: Schema, v: Json)
    requires Sound(sc) && InScope(sc, EMPTY_BY_DEFAULT) && v.Obj? && Canonical(v)
    ensures Normalize(sc, EMPTY_BY_DEFAULT, v) == Some(v)
  {
    EmptyByDefaultFacts();
    var s := EMPTY_BY_DEFAULT;
    NothingToFill(s, v.fields);
    hide Properties, ChoicesAllow, Admits, RefOf, Fill, MemberSchema;
    forall k | k in v.fields
      ensures NormalizeMember(sc, s, k, v.fields[k]) == Some(v.fields[k])
    {
      assert MemberSchema(s, k) == Bool(true);
    }
    AdmittedObject(sc, s, v, v.fields, v);
  }

  /** A node that only constrains further members normalizes a single member on its own. */
  lemma PassesOn(sc: Schema, s: Json, key: Text, given: Json, result: Json)
    requires Sound(sc) && s.Obj? && InScope(sc, s) && Admits(s) && Properties(s).Keys <= {key}
    requires Canonical(Obj(map[key := given])) && ChoicesAllow(s, Obj(map[key := given]))
    requires NormalizeMember(sc, s, key, given) == Some(result)
    ensures NormalizeNode(sc, s, Obj(map[key := given])) == Some(Obj(map[key := result]))
  {
    hide NormalizeNode, NormalizeMember, ChoicesAllow, Fill, Properties, Admits, Canonical, Sound, InScope;
    var v, w := Obj(map[key := given]), Obj(map[key := result]);
    assert v.fields.Keys == {key} == w.fields.Keys && v.fields[key] == given && w.fields[key] == result;
    NothingToFill(s, v.fields);
    KeepsKey(sc, s, key, v, w);
  }

  lemma KeepsKey(sc: Schema, s: Json, key: Text, v: Json, w: Json)
    requires Sound(sc) && s.Obj? && InScope(sc, s) && Admits(s) && ChoicesAllow(s, v) && Canonical(v)
    requires v.Obj? && w.Obj? && v.fields.Keys == w.fields.Keys == {key} && Fill(s, v.fields) == v.fields
    requires NormalizeMember(sc, s, key, v.fields[key]) == Some(w.fields[key])
    ensures NormalizeNode(sc, s, v) == Some(w)
  {
    hide NormalizeNode, NormalizeMember, ChoicesAllow, Fill, Admits, Canonical, Sound, InScope;
    AdmittedObject(sc, s, v, v.fields, w);
  }

  /** A node that only constrains further members normalizes two members each on its own. */
  lemma PassesTwoOn(sc: Schema, s: Json, j: Text, k: Text, v: Json, w: Json)
    requires Sound(sc) && s.Obj? && InScope(sc, s) && Admits(s) && Properties(s).Keys <= {j, k}
    requires v.Obj? && v.fields.Keys == {j, k} && Canonical(v) && ChoicesAllow(s, v)
    requires w.Obj? && w.fields.Keys == {j, k}
    requires NormalizeMember(sc, s, j, v.fields[j]) == Some(w.fields[j])
    requires NormalizeMember(sc, s, k, v.fields[k]) == Some(w.fields[k])
    ensures NormalizeNode(sc, s, v) == Some(w)
  {
    hide NormalizeNode, NormalizeMember, ChoicesAllow, Fill, Properties, Admits, Canonical, Sound, InScope;
    NothingToFill(s, v.fields);
    AdmittedObject(sc, s, v, v.fields, w);
  }

  lemma SuppliedIsCanonical()
    ensures Canonical(Obj(map[Y := EMPTY])) && TARGET.Obj?
  {
    OneMemberIsCanonical(Y, EMPTY);
  }

  lemma TargetOnSupplied(sc: Schema)
    requires Sound(sc) && InScope(sc, TARGET)
    ensures Normalize(sc, TARGET, Obj(map[Y := EMPTY])) == Some(Obj(map[Y := Obj(map[Z := Num(1)])]))
  {
    hide Properties, ChoicesAllow, Admits, RefOf, MemberSchema, Canonical, NormalizeNode, InScope, Sound, TARGET, INNER;
    hide Y;
    SuppliedIsCanonical();
    TargetFacts();
    MemberSchemaFalls(sc, TARGET, Y);
    assert NormalizeMember(sc, TARGET, Y, EMPTY) == Some(Obj(map[Z := Num(1)])) by {
      InnerOnEmpty(sc);
    }
    PassesOn(sc, TARGET, Y, EMPTY, Obj(map[Z := Num(1)]));
  }

  lemma InnerOnEmpty(sc: Schema)
    requires Sound(sc) && InScope(sc, INNER)
    ensures Normalize(sc, INNER, EMPTY) == Some(Obj(map[Z := Num(1)]))
  {
    InnerFacts();
    hide Properties, ChoicesAllow, Admits, RefOf;
    MemberSchemaFalls(sc, INNER, Z);
    OneByDefaultKeeps(sc);
    SuppliesOne(sc, INNER, Z, Num(1));
  }

  /** A node whose one property only supplies an empty object keeps any object given there. */
  lemma KeepsSupplied(sc: Schema, s: Json, key: Text, inner: Json)
    requires Sound(sc) && s.Obj? && InScope(sc, s) && Admits(s) && Properties(s) == map[key := EMPTY_BY_DEFAULT]
    requires inner.Obj? && Canonical(inner) && Canonical(Obj(map[key := inner]))
    requires ChoicesAllow(s, Obj(map[key := inner]))
    ensures NormalizeNode(sc, s, Obj(map[key := inner])) == Some(Obj(map[key := inner]))
  {
    MemberSchemaFalls(sc, s, key);
    hide Properties, ChoicesAllow, Admits, Canonical, NormalizeNode, InScope, EMPTY_BY_DEFAULT, Normalize;
    DefaultedKeeps(sc, inner);
    PassesOn(sc, s, key, inner, inner);
  }

  lemma SiblingOnSupplied(sc: Schema)
    requires Sound(sc) && InScope(sc, SIBLING)
    ensures var v := Obj(map[Y := Obj(map[Z := Num(1)])]); NormalizeNode(sc, SIBLING, v) == Some(v)
  {
    hide Properties, ChoicesAllow, Admits, Canonical, NormalizeNode, InScope, Sound;
    SiblingFacts();
    var inner := Obj(map[Z := Num(1)]);
    assert Canonical(inner) by { NumIsCanonical(); OneMemberIsCanonical(Z, Num(1)); }
    OneMemberIsCanonical(Y, inner);
    KeepsSupplied(sc, SIBLING, Y, inner);
  }

  lemma NumIsCanonical()
    ensures Canonical(Num(1))
  {
  }
}
