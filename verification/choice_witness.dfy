/**
 An accepted schema that meets both conditions of the fixed point and still refuses a
 combination of accepted axis values: an `enum` of objects beside a reference.
 */
module ChoiceWitness {
  import opened CanonicalJson
  import opened CanonicalBytes
  import opened JsonPointer
  import opened SchemaProfile
  import opened Normalization
  import opened NormalizationLaws
  import opened NormalForms
  import opened SchemaValidation
  import opened NormalizationWitnesses
  import opened NormalizationWitnessSchemas
  import opened Sampling
  import opened CartesianExpansion
  import opened ExpansionLaws

  function Choice(y: int, z: int): Json {
    Obj(map[Y := Num(y), Z := Num(z)])
  }

  /** A node that admits any member. */
  const FREE: Json := Obj(map[K_ADDITIONAL := EMPTY])
  const CHOSEN: seq<Json> := [Choice(0, 0), Choice(1, 0), Choice(0, 1)]
  const PAIRS: Json := Obj(map[K_REF := Str(REFERENCE), K_ENUM := Arr(CHOSEN)])
  const ROOT: Json := Obj(map[
    K_SCHEMA := Str(DIALECT),
    K_DEFS := Obj(map[T := FREE]),
    K_PROPERTIES := Obj(map[X := PAIRS]),
    K_ADDITIONAL := Bool(false)])

  function Holding(v: Json): Json {
    Obj(map[X := v])
  }

  /** `/x/y` and `/x/z`, each over the one value 1. */
  const AXES: seq<Axis> := [Axis(Format([X, Y]), [Num(1)]), Axis(Format([X, Z]), [Num(1)])]

  // The nodes.

  lemma FreeFields()
    ensures FREE.Obj?
    ensures var f := FREE.fields;
            && f.Keys == {K_ADDITIONAL} && f.Keys <= USED && f[K_ADDITIONAL] == EMPTY
            && K_DEFS !in f && K_REF !in f && K_DEFAULT !in f && K_ENUM !in f && K_SCHEMA !in f && K_PROPERTIES !in f
  {
    KeywordsDiffer();
    hide EMPTY;
  }

  lemma PairsFields()
    ensures PAIRS.Obj?
    ensures var f := PAIRS.fields;
            && f.Keys == {K_REF, K_ENUM} && f.Keys <= USED && f[K_REF] == Str(REFERENCE) && f[K_ENUM] == Arr(CHOSEN)
            && K_DEFS !in f && K_DEFAULT !in f && K_SCHEMA !in f && K_PROPERTIES !in f && K_ADDITIONAL !in f
            && K_CONST !in f
  {
    KeywordsDiffer();
    hide REFERENCE, CHOSEN;
  }

  lemma RootFields()
    ensures ROOT.Obj?
    ensures var f := ROOT.fields;
            && f.Keys == {K_SCHEMA, K_DEFS, K_PROPERTIES, K_ADDITIONAL} && f.Keys <= USED
            && f[K_SCHEMA] == Str(DIALECT) && f[K_DEFS] == Obj(map[T := FREE])
            && f[K_PROPERTIES] == Obj(map[X := PAIRS])
            && f[K_ADDITIONAL] == Bool(false)
            && K_DEFAULT !in f && K_ENUM !in f && K_REF !in f && K_CONST !in f
  {
    KeywordsDiffer();
    hide DIALECT, FREE, PAIRS, T, X;
  }

  lemma DefinitionResolves(root: Json, target: Json)
    requires root.Obj? && K_DEFS in root.fields && root.fields[K_DEFS] == Obj(map[T := target]) && IsSchemaValue(target)
    ensures Resolve(root, REFERENCE) == Some(target)
  {
    ReferenceParses();
    hide ParsePointer, REFERENCE;
    var tokens := [K_DEFS, T];
    assert tokens[1..] == [T] && [T][1..] == [];
    assert Descend(target, []) == Some(target);
    assert Descend(Obj(map[T := target]), [T]) == Some(target);
    assert Descend(root, tokens) == Some(target);
  }

  lemma PairFields(y: int, z: int)
    ensures var v := Choice(y, z); v.Obj? && v.fields.Keys == {Y, Z} && v.fields[Y] == Num(y) && v.fields[Z] == Num(z)
  {
    NamesDiffer();
    hide Y, Z;
  }

  lemma PairsDiffer(a: int, b: int, c: int, d: int)
    requires a != c || b != d
    ensures Choice(a, b) != Choice(c, d)
  {
    PairFields(a, b);
    PairFields(c, d);
    hide Choice;
  }

  lemma Chosen()
    ensures Choice(0, 0) in CHOSEN && Choice(1, 0) in CHOSEN && Choice(0, 1) in CHOSEN && Choice(1, 1) !in CHOSEN
    ensures Distinct(CHOSEN)
  {
    hide Choice;
    PairsDiffer(0, 0, 1, 0);
    PairsDiffer(0, 0, 0, 1);
    PairsDiffer(1, 0, 0, 1);
    PairsDiffer(1, 1, 0, 0);
    PairsDiffer(1, 1, 1, 0);
    PairsDiffer(1, 1, 0, 1);
  }

  lemma ChoiceValueIsCanonical(y: int, z: int)
    requires 0 <= y <= 1 && 0 <= z <= 1
    ensures Canonical(Choice(y, z)) && Canonical(Holding(Choice(y, z)))
  {
    NamesAreHarmless();
    NamesDiffer();
    hide WellFormed, DangerousKey, X, Y, Z;
    assert Canonical(Num(y)) && Canonical(Num(z));
    assert Canonical(Choice(y, z));
    hide Choice;
  }

  // The profile accepts the schema.

  lemma FreeFits()
    requires {EMPTY, FREE} <= Subterms(ROOT)
    ensures NodeFits(ROOT, EMPTY, []) && NodeFits(ROOT, FREE, [EMPTY])
  {
    FreeFields();
    NoItems(FREE);
    NoSuccessors(ROOT, EMPTY);
    hide FREE, ROOT, Subterms, Normalize, Successors;
    forall c | c in Successors(ROOT, FREE)
      ensures c == EMPTY
    {
      SuccessorKinds(ROOT, FREE, c);
    }
  }

  lemma PairsFit()
    requires PAIRS in Subterms(ROOT)
    ensures NodeFits(ROOT, PAIRS, [EMPTY, FREE])
  {
    RootFields();
    PairsFields();
    FreeFields();
    NoItems(PAIRS);
    DefinitionResolves(ROOT, FREE);
    hide PAIRS, FREE, ROOT, EMPTY, REFERENCE, CHOSEN, Subterms, Normalize, Resolve, Successors, USED;
    forall c | c in Successors(ROOT, PAIRS)
      ensures c == FREE
    {
      SuccessorKinds(ROOT, PAIRS, c);
    }
  }

  lemma RootFits()
    requires ROOT in Subterms(ROOT)
    ensures NodeFits(ROOT, ROOT, [EMPTY, FREE, PAIRS])
  {
    RootFields();
    RootLeads();
    hide PAIRS, FREE, ROOT, EMPTY, DIALECT, Subterms, Normalize, Resolve, Successors, USED;
    hide K_SCHEMA, K_DEFS, K_REF, K_PROPERTIES, K_ADDITIONAL, K_DEFAULT, K_ENUM;
  }

  lemma RootLeads()
    ensures forall c | c in Successors(ROOT, ROOT) :: c == Bool(false) || c == FREE || c == PAIRS
  {
    RootFields();
    NoItems(ROOT);
    hide PAIRS, FREE, ROOT, EMPTY, DIALECT, Resolve, Successors, USED;
    hide K_SCHEMA, K_DEFS, K_REF, K_PROPERTIES, K_ADDITIONAL, K_DEFAULT, K_ENUM;
    forall c | c in Successors(ROOT, ROOT)
      ensures c == Bool(false) || c == FREE || c == PAIRS
    {
      SuccessorKinds(ROOT, ROOT, c);
    }
  }

  lemma RootSubterms()
    ensures {EMPTY, FREE, PAIRS} <= Subterms(ROOT)
  {
    RootFields();
    FreeFields();
    hide ROOT, FREE, PAIRS, EMPTY, DIALECT, Subterms, USED;
    PropertyIsSubterm(ROOT, X);
    MemberIsSubterm(ROOT.fields[K_DEFS], T);
    MemberIsSubterm(ROOT, K_DEFS);
    SubtermsOfSubterm(ROOT, ROOT.fields[K_DEFS]);
    MemberIsSubterm(FREE, K_ADDITIONAL);
    SubtermsOfSubterm(ROOT, FREE);
  }

  const NODES: seq<Json> := [EMPTY, FREE, PAIRS, ROOT]

  lemma NodesOfRootFit()
    ensures NodesFit(ROOT, NODES)
  {
    RootSubterms();
    hide NodeFits, EMPTY, FREE, PAIRS, ROOT, Subterms;
    FreeFits();
    PairsFit();
    RootFits();
    var nodes := NODES;
    assert nodes[..0] == [] && nodes[..1] == [EMPTY] && nodes[..2] == [EMPTY, FREE]
        && nodes[..3] == [EMPTY, FREE, PAIRS];
  }

  lemma FreeIsWalked()
    ensures Walk(FREE, false, false) && Canonical(FREE)
  {
    FreeFields();
    EmptyIsWalked();
    NoItems(FREE);
    UsedAreHarmless();
    PlainKeywords(FREE, false, false);
    hide KeywordsAllowed, WellFormed, DangerousKey, FREE, EMPTY, USED;
  }

  lemma PairsAreWalked()
    ensures Walk(PAIRS, false, true) && Canonical(PAIRS)
  {
    PairsFields();
    Chosen();
    NoItems(PAIRS);
    PlainKeywords(PAIRS, false, true);
    hide KeywordsAllowed, PAIRS, USED, Choice, REFERENCE, Distinct;
    assert Canonical(Str(REFERENCE)) by { ReferenceIsWellFormed(); }
    assert Canonical(Arr(CHOSEN)) by {
      ChoiceValueIsCanonical(0, 0);
      ChoiceValueIsCanonical(1, 0);
      ChoiceValueIsCanonical(0, 1);
    }
    hide CHOSEN, Canonical, K_REF, K_ENUM;
    NodeIsCanonical(PAIRS);
  }

  lemma RootIsWalked()
    ensures Walk(ROOT, true, false)
  {
    RootFields();
    FreeIsWalked();
    PairsAreWalked();
    NoItems(ROOT);
    PlainKeywords(ROOT, true, false);
    hide KeywordsAllowed, DIALECT, ROOT, FREE, PAIRS, USED, Canonical;
  }

  lemma RootPartsAreCanonical()
    ensures Canonical(Str(DIALECT)) && Canonical(Bool(false)) && Canonical(Obj(map[T := FREE]))
    ensures Canonical(Obj(map[X := PAIRS]))
  {
    hide Canonical, WellFormed, DangerousKey, DIALECT, FREE, PAIRS, EMPTY, Walk;
    NamesAreHarmless();
    DialectIsWellFormed();
    LeavesAreCanonical();
    FreeIsWalked();
    PairsAreWalked();
    OneNameIsCanonical(T, FREE);
    OneNameIsCanonical(X, PAIRS);
  }

  lemma RootIsCanonical()
    ensures Canonical(ROOT)
  {
    hide Canonical, DIALECT, ROOT, FREE, PAIRS, USED, T, X;
    hide K_SCHEMA, K_DEFS, K_REF, K_PROPERTIES, K_ADDITIONAL, K_DEFAULT, K_ENUM;
    RootFields();
    RootPartsAreCanonical();
    NodeIsCanonical(ROOT);
  }

  lemma RootIsAccepted()
    ensures ValidateSchemaProfile(ROOT).Valid?
  {
    RootFields();
    hide NodesFit, Walk, Canonical, ROOT, NODES, DIALECT, FREE, PAIRS, USED;
    RootIsWalked();
    RootIsCanonical();
    NodesOfRootFit();
    NodesAreAccepted(ROOT, NODES);
  }

  /** It meets both conditions of the fixed point. */
  lemma RootIsStable()
    ensures ValidateSchemaProfile(ROOT).Valid?
    ensures var sc := ValidateSchemaProfile(ROOT).schema; ReferencesOnlyChecked(sc) && ChoicesStable(sc)
  {
    RootIsAccepted();
    NodesOfRootFit();
    RootFields();
    var sc := ValidateSchemaProfile(ROOT).schema;
    assert sc.order == FinishingOrder(ROOT).value;
    VisitStaysListed(ROOT, NODES, ROOT, {}, []);
    NodeKinds();
    hide ROOT, FREE, PAIRS, EMPTY, NodesFit, ValidateSchemaProfile;
  }

  lemma NodeKinds()
    ensures forall s | s in NODES ::
            !Has(s, K_CONST) && (Has(s, K_ENUM) ==> s == PAIRS) && (RefOf(s).Some? ==> s == PAIRS) && !Rewrites(PAIRS)
  {
    RootFields();
    PairsFields();
    FreeFields();
    NoItems(PAIRS);
    UsedAreNotUnused();
    assert K_CONST in UNUSED && EMPTY.fields == map[];
    hide ROOT, FREE, PAIRS, EMPTY, USED, UNUSED;
  }

  // What the schema makes of the values.

  lemma FreeNodeKeepsNumber(sc: Schema, n: int)
    requires Sound(sc) && InScope(sc, EMPTY) && Canonical(Num(n))
    ensures Normalize(sc, EMPTY, Num(n)) == Some(Num(n))
  {
    assert RefOf(EMPTY).None? && SchemaTypes(EMPTY) == Some({}) && ChoicesAllow(EMPTY, Num(n))
        && NumberAllowed(EMPTY, n);
    hide RefOf, SchemaTypes, ChoicesAllow, NumberAllowed, EMPTY;
    NodeIsRelation(sc, EMPTY, Num(n), Num(n));
  }

  lemma FreeFacts()
    ensures RefOf(FREE).None? && Admits(FREE) && Properties(FREE) == map[] && (forall v :: ChoicesAllow(FREE, v))
    ensures forall k :: MemberSchema(FREE, k) == EMPTY
  {
    FreeFields();
    UsedAreNotUnused();
    assert {K_TYPE, K_REQUIRED, K_CONST} <= UNUSED;
    assert EMPTY.Obj?;
    hide FREE, EMPTY, USED, UNUSED;
  }

  lemma FreeKeeps(sc: Schema, y: int, z: int)
    requires Sound(sc) && InScope(sc, FREE) && 0 <= y <= 1 && 0 <= z <= 1
    ensures Normalize(sc, FREE, Choice(y, z)) == Some(Choice(y, z))
  {
    FreeFacts();
    PairFields(y, z);
    ChoiceValueIsCanonical(y, z);
    MemberSchemaFalls(sc, FREE, Y);
    MemberSchemaFalls(sc, FREE, Z);
    assert Canonical(Num(y)) && Canonical(Num(z));
    hide Properties, ChoicesAllow, Admits, RefOf, Canonical, MemberSchema, NormalizeNode, InScope, Sound, FREE, EMPTY;
    hide Choice, Y, Z, Normalize;
    assert NormalizeMember(sc, FREE, Y, Num(y)) == Some(Num(y)) by { FreeNodeKeepsNumber(sc, y); }
    assert NormalizeMember(sc, FREE, Z, Num(z)) == Some(Num(z)) by { FreeNodeKeepsNumber(sc, z); }
    PassesTwoOn(sc, FREE, Y, Z, Choice(y, z), Choice(y, z));
    FreeIsNode(sc, Choice(y, z));
  }

  lemma FreeIsNode(sc: Schema, v: Json)
    requires Sound(sc) && InScope(sc, FREE)
    ensures Normalize(sc, FREE, v) == NormalizeNode(sc, FREE, v)
  {
    FreeFacts();
  }

  lemma PairsFacts()
    ensures RefOf(PAIRS) == Some(REFERENCE) && Admits(PAIRS) && Properties(PAIRS) == map[] && PAIRS.Obj?
    ensures PAIRS.fields.Keys != {K_REF}
    ensures forall v :: ChoicesAllow(PAIRS, v) <==> v in CHOSEN
    ensures forall k :: MemberSchema(PAIRS, k) == Bool(true)
  {
    PairsFields();
    UsedAreNotUnused();
    KeywordsDiffer();
    assert {K_TYPE, K_REQUIRED, K_CONST} <= UNUSED;
    hide PAIRS, USED, UNUSED, CHOSEN, REFERENCE;
    assert K_ENUM in PAIRS.fields;
  }

  lemma PairsNodeKeeps(sc: Schema, y: int, z: int)
    requires Sound(sc) && InScope(sc, PAIRS) && 0 <= y <= 1 && 0 <= z <= 1 && Choice(y, z) in CHOSEN
    ensures NormalizeNode(sc, PAIRS, Choice(y, z)) == Some(Choice(y, z))
  {
    PairsFacts();
    PairFields(y, z);
    ChoiceValueIsCanonical(y, z);
    assert Canonical(Num(y)) && Canonical(Num(z));
    hide Properties, ChoicesAllow, Admits, RefOf, Canonical, MemberSchema, NormalizeNode, InScope, Sound, PAIRS, Choice;
    hide Y, Z, CHOSEN;
    assert NormalizeMember(sc, PAIRS, Y, Num(y)) == Some(Num(y));
    assert NormalizeMember(sc, PAIRS, Z, Num(z)) == Some(Num(z));
    PassesTwoOn(sc, PAIRS, Y, Z, Choice(y, z), Choice(y, z));
  }

  /** The node keeps exactly the listed pairs. */
  lemma PairsKeepChosen(sc: Schema, y: int, z: int)
    requires Sound(sc) && sc.root == ROOT && InScope(sc, PAIRS) && 0 <= y <= 1 && 0 <= z <= 1
    ensures Normalize(sc, PAIRS, Choice(y, z)) == if Choice(y, z) in CHOSEN then Some(Choice(y, z)) else None
  {
    RootFields();
    PairsFacts();
    FreeFields();
    DefinitionResolves(ROOT, FREE);
    hide Resolve, ROOT, PAIRS, FREE, CHOSEN, Choice, RefOf, ChoicesAllow, REFERENCE, InScope, Sound;
    ReferenceFalls(sc, PAIRS);
    FreeKeeps(sc, y, z);
    if Choice(y, z) in CHOSEN {
      hide NormalizeNode;
      PairsNodeKeeps(sc, y, z);
    }
  }

  lemma RootFacts()
    ensures RefOf(ROOT).None? && Admits(ROOT) && Properties(ROOT) == map[X := PAIRS]
    ensures (forall v :: ChoicesAllow(ROOT, v))
    ensures MemberSchema(ROOT, X) == PAIRS && ROOT.Obj?
  {
    RootFields();
    UsedAreNotUnused();
    assert {K_TYPE, K_REQUIRED, K_CONST} <= UNUSED;
    hide ROOT, PAIRS, USED, UNUSED, FREE, X;
  }

  lemma HoldingShape(v: Json)
    ensures Holding(v).Obj? && Holding(v).fields == map[X := v]
  {
    hide X;
  }

  lemma RootKeeps(sc: Schema, y: int, z: int)
    requires Sound(sc) && sc.root == ROOT && InScope(sc, ROOT) && 0 <= y <= 1 && 0 <= z <= 1 && Choice(y, z) in CHOSEN
    ensures Normalize(sc, ROOT, Holding(Choice(y, z))) == Some(Holding(Choice(y, z)))
  {
    RootFacts();
    ChoiceValueIsCanonical(y, z);
    MemberSchemaFalls(sc, ROOT, X);
    var v := Choice(y, z);
    hide Properties, ChoicesAllow, Admits, RefOf, Canonical, MemberSchema, NormalizeNode, InScope, Sound, ROOT, PAIRS;
    hide Choice, X, CHOSEN;
    PairsKeepChosen(sc, y, z);
    MemberIsNormalize(sc, ROOT, X, v);
    PassesOn(sc, ROOT, X, v, v);
  }

  lemma RootRefuses(sc: Schema, y: int, z: int)
    requires Sound(sc) && sc.root == ROOT && InScope(sc, ROOT) && 0 <= y <= 1 && 0 <= z <= 1 && Choice(y, z) !in CHOSEN
    ensures Normalize(sc, ROOT, Holding(Choice(y, z))).None?
  {
    RootFacts();
    MemberSchemaFalls(sc, ROOT, X);
    var v := Holding(Choice(y, z));
    HoldingShape(Choice(y, z));
    hide Properties, ChoicesAllow, Admits, RefOf, Canonical, MemberSchema, NormalizeNode, InScope, Sound, ROOT, PAIRS;
    hide Choice, X, CHOSEN, Holding;
    PairsKeepChosen(sc, y, z);
    MemberIsNormalize(sc, ROOT, X, Choice(y, z));
    assert HasChild(v, X) && Child(v, X) == Choice(y, z) && StepSchema(ROOT, v, X) == PAIRS;
    if NormalizeNode(sc, ROOT, v).Some? {
      ChildNormalizes(sc, ROOT, v, X);
    }
  }

  // The writes.

  lemma WritesInPair(y: int, z: int)
    ensures Set(Choice(y, z), [Y], Num(1)) == Some(Choice(1, z)) && Set(Choice(y, z), [Z], Num(1)) == Some(Choice(y, 1))
  {
    NamesDiffer();
    PairFields(y, z);
    PairFields(1, z);
    PairFields(y, 1);
    assert |Y| == |Z| == 1 && |Ascii("__proto__")| == 9;
    hide Y, Z, Choice;
    assert Choice(y, z).fields[Y := Num(1)] == Choice(1, z).fields;
    assert Choice(y, z).fields[Z := Num(1)] == Choice(y, 1).fields;
  }

  lemma LastStep(sc: Schema, s: Json, d: Json, v: Json, k: Text, x: Json)
    requires Sound(sc) && InScope(sc, s) && Dereference(sc, s) == Some(d) && v.Obj? && ObjectChildSchema(d, k).Some?
    ensures SchemaSet(sc, s, v, [k], x) == Set(v, [k], x)
  {
    hide Dereference, ObjectChildSchema, Set, Sound, InScope;
  }

  lemma FirstStep(sc: Schema, s: Json, child: Json, v: Json, k: Text, x: Json, w: Json)
    requires Sound(sc) && InScope(sc, s) && InScope(sc, child) && Dereference(sc, s) == Some(s)
    requires ObjectChildSchema(s, X) == Some(child) && SchemaSet(sc, child, v, [k], x) == Some(w)
    ensures SchemaSet(sc, s, Holding(v), [X, k], x) == Some(Holding(w))
  {
    HoldingShape(v);
    HoldingShape(w);
    hide Dereference, ObjectChildSchema, Sound, InScope, X, Holding;
    assert [X, k][1..] == [k];
    assert Holding(v).fields[X := w] == Holding(w).fields;
  }

  lemma PairsDereference(sc: Schema)
    requires Sound(sc) && sc.root == ROOT && InScope(sc, PAIRS)
    ensures Dereference(sc, PAIRS) == Some(FREE)
  {
    RootFields();
    PairsFacts();
    FreeFields();
    FreeFacts();
    DefinitionResolves(ROOT, FREE);
    hide Resolve, ROOT, PAIRS, FREE, CHOSEN, RefOf, REFERENCE, InScope, Sound, EMPTY, ChoicesAllow;
    ReferenceFalls(sc, PAIRS);
    assert Dereference(sc, FREE) == Some(FREE);
  }

  lemma FreeAdmitsMembers(k: Text)
    ensures ObjectChildSchema(FREE, k).Some?
  {
    FreeFields();
    FreeFacts();
    assert EMPTY.Obj?;
    hide FREE, EMPTY;
  }

  lemma RootAdmitsX()
    ensures ObjectChildSchema(ROOT, X) == Some(PAIRS) && ROOT.Obj?
  {
    RootFacts();
    hide ROOT, PAIRS, X;
  }

  lemma RootAdmits(sc: Schema, k: Text, v: Json, w: Json)
    requires Sound(sc) && sc.root == ROOT && InScope(sc, ROOT) && v.Obj?
    requires Set(v, [k], Num(1)) == Some(w)
    ensures Set(Holding(v), [X, k], Num(1)) == Some(Holding(w)) == SchemaSet(sc, ROOT, Holding(v), [X, k], Num(1))
  {
    RootFacts();
    RootAdmitsX();
    MemberSchemaFalls(sc, ROOT, X);
    hide ROOT, PAIRS, FREE, RefOf, InScope, Sound, Set, ChoicesAllow, Dereference, SchemaSet, ObjectChildSchema;
    hide MemberSchema, Holding, X, Properties;
    PairsDereference(sc);
    FreeAdmitsMembers(k);
    LastStep(sc, PAIRS, FREE, v, k, Num(1));
    RootIsItself(sc);
    FirstStep(sc, ROOT, PAIRS, v, k, Num(1), w);
    SchemaSetIsSet(sc, ROOT, Holding(v), [X, k], Num(1));
  }

  lemma RootIsItself(sc: Schema)
    requires Sound(sc) && InScope(sc, ROOT)
    ensures Dereference(sc, ROOT) == Some(ROOT)
  {
    RootFacts();
    hide ROOT;
  }

  lemma AxesAreDisjoint()
    ensures Proper(AXES) && Disjoint(AXES) && Tokens(AXES[0]) == [X, Y] && Tokens(AXES[1]) == [X, Z]
  {
    ParseUndoesFormat([X, Y], false);
    ParseUndoesFormat([X, Z], false);
    NamesDiffer();
    hide Format, ParsePointer, X, Y, Z;
    assert [X, Y][1] != [X, Z][1];
  }

  /** The writes of the sweep, alone and one after the other. */
  lemma SweepWrites(sc: CheckedSchema)
    requires sc.root == ROOT && InScope(sc, ROOT)
    ensures var base := Holding(Choice(0, 0));
            && Set(base, [X, Y], Num(1)) == SchemaSet(sc, ROOT, base, [X, Y], Num(1)) == Some(Holding(Choice(1, 0)))
            && Set(base, [X, Z], Num(1)) == SchemaSet(sc, ROOT, base, [X, Z], Num(1)) == Some(Holding(Choice(0, 1)))
            && SchemaSet(sc, ROOT, Holding(Choice(1, 0)), [X, Z], Num(1)) == Some(Holding(Choice(1, 1)))
  {
    PairFields(0, 0);
    PairFields(1, 0);
    hide ROOT, Choice, Holding, X, Y, Z, SchemaSet, Set;
    WritesInPair(0, 0);
    WritesInPair(1, 0);
    RootAdmits(sc, Y, Choice(0, 0), Choice(1, 0));
    RootAdmits(sc, Z, Choice(0, 0), Choice(0, 1));
    RootAdmits(sc, Z, Choice(1, 0), Choice(1, 1));
  }

  lemma SweepNormalForms(sc: CheckedSchema)
    requires sc.root == ROOT && InScope(sc, ROOT)
    ensures IsNormal(sc, ROOT, Holding(Choice(0, 0)))
    ensures IsNormal(sc, ROOT, Holding(Choice(1, 0)))
    ensures IsNormal(sc, ROOT, Holding(Choice(0, 1)))
    ensures Normalize(sc, ROOT, Holding(Choice(1, 1))).None?
  {
    Chosen();
    hide ROOT, Choice, Holding, Normalize, CHOSEN;
    RootKeeps(sc, 0, 0);
    RootKeeps(sc, 1, 0);
    RootKeeps(sc, 0, 1);
    RootRefuses(sc, 1, 1);
  }

  lemma SweepIsNormalAlone(sc: CheckedSchema)
    requires sc.root == ROOT && InScope(sc, ROOT)
    ensures SingleWritesAreNormal(sc, Holding(Choice(0, 0)), AXES) && Admitted(sc, Holding(Choice(0, 0)), AXES)
    ensures Proper(AXES) && Combinations(Planned(sc), AXES, Holding(Choice(0, 0))).None?
  {
    AxesAreDisjoint();
    assert |AXES| == 2 && AXES[0].values == AXES[1].values == [Num(1)];
    hide AXES, ROOT, Choice, Holding, Disjoint, Proper, Tokens, Format, X, Y, Z, IsNormal, InScope, Sound;
    hide Normalize, SchemaSet, Set, Combinations, SingleWritesAreNormal, Admitted;
    SweepWrites(sc);
    SweepNormalForms(sc);
    SingleWrites(sc, Holding(Choice(0, 0)), AXES);
    OnlyCombination(sc, Holding(Choice(0, 0)), AXES);
  }

  /** The base and either write alone are normal; both together are refused. */
  lemma AcceptedSchemaRefusesCombination()
    ensures ValidateSchemaProfile(ROOT).Valid?
    ensures var sc := ValidateSchemaProfile(ROOT).schema;
            && ReferencesOnlyChecked(sc) && ChoicesStable(sc)
            && Proper(AXES) && Disjoint(AXES)
            && SingleWritesAreNormal(sc, Holding(Choice(0, 0)), AXES) && Admitted(sc, Holding(Choice(0, 0)), AXES)
            && Combinations(Planned(sc), AXES, Holding(Choice(0, 0))).None?
  {
    RootIsStable();
    AxesAreDisjoint();
    hide ReferencesOnlyChecked, ChoicesStable, ValidateSchemaProfile, ROOT, AXES, Choice, Holding, Disjoint, Proper;
    hide Combinations, SingleWritesAreNormal, Admitted;
    SweepIsNormalAlone(ValidateSchemaProfile(ROOT).schema);
  }

  lemma SingleWrites(sc: CheckedSchema, base: Json, axes: seq<Axis>)
    requires |axes| == 2 && axes[0].values == axes[1].values == [Num(1)] && IsNormal(sc, sc.root, base)
    requires forall j | 0 <= j < 2 :: SchemaSet(sc, sc.root, base, Tokens(axes[j]), Num(1)).Some?
    requires forall j | 0 <= j < 2 :: var w := Set(base, Tokens(axes[j]), Num(1));
             w.Some? && IsNormal(sc, sc.root, w.value)
    ensures SingleWritesAreNormal(sc, base, axes) && Admitted(sc, base, axes)
  {
    hide SchemaSet, Set, Tokens, IsNormal;
  }

  lemma OnlyCombination(sc: CheckedSchema, base: Json, axes: seq<Axis>)
    requires |axes| == 2 && axes[0].values == axes[1].values == [Num(1)] && Proper(axes)
    requires SchemaSet(sc, sc.root, base, Tokens(axes[0]), Num(1)).Some?
    requires var first := SchemaSet(sc, sc.root, base, Tokens(axes[0]), Num(1)).value;
             && SchemaSet(sc, sc.root, first, Tokens(axes[1]), Num(1)).Some?
             && Normalize(sc, sc.root, SchemaSet(sc, sc.root, first, Tokens(axes[1]), Num(1)).value).None?
    ensures Combinations(Planned(sc), axes, base).None?
  {
    hide SchemaSet, Normalize, Tokens;
    var first := SchemaSet(sc, sc.root, base, Tokens(axes[0]), Num(1));
    var last := SchemaSet(sc, sc.root, first.value, Tokens(axes[1]), Num(1));
    var rest := axes[1..];
    assert rest[1..] == [] && Product(rest[1..]) == 1;
    assert |rest[0].values| == 1 && Product(rest) == 1;
    assert Product(axes) == 1;
    assert Combine(Planned(sc), rest[1..], last, 0) == last;
    assert Combine(Planned(sc), rest, first, 0) == last;
    assert Combine(Planned(sc), axes, Some(base), 0) == last;
    assert At(Planned(sc), axes, Some(base), 0).None?;
  }
}
