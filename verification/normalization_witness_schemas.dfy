/** The two schemas on which the fixed-point laws fail are accepted by the profile. */
module NormalizationWitnessSchemas {
  import opened CanonicalJson
  import opened CanonicalBytes
  import opened SchemaProfile
  import opened Normalization
  import opened SchemaValidation
  import opened NormalizationWitnesses

  const USED: set<Text> := {K_SCHEMA, K_ENUM, K_PROPERTIES, K_ADDITIONAL, K_DEFAULT, K_REF, K_DEFS}
  const UNUSED: set<Text> := {
    K_ID, K_TYPE, K_REQUIRED, K_ITEMS, K_MIN_ITEMS, K_MAX_ITEMS, K_CONST, K_MINIMUM, K_MAXIMUM,
    K_EXCLUSIVE_MINIMUM, K_EXCLUSIVE_MAXIMUM, K_MIN_LENGTH, K_MAX_LENGTH }

  /** The length and the first unit of a keyword, which tell any used keyword from any unused one. */
  function Shape(k: Text): (nat, int) {
    (|k|, if k == [] then -1 else k[0])
  }

  lemma UsedShapes()
    ensures forall k | k in USED ::
              Shape(k) in {(7, 0x24), (4, 0x65), (10, 0x70), (20, 0x61), (7, 0x64), (4, 0x24), (5, 0x24)}
  {
    assert Shape(K_SCHEMA) == (7, 0x24) && Shape(K_ENUM) == (4, 0x65) && Shape(K_PROPERTIES) == (10, 0x70);
    assert Shape(K_ADDITIONAL) == (20, 0x61) && Shape(K_DEFAULT) == (7, 0x64) && Shape(K_REF) == (4, 0x24)
        && Shape(K_DEFS) == (5, 0x24);
  }

  lemma UnusedShapes()
    ensures forall k | k in UNUSED ::
              Shape(k) in {(3, 0x24), (4, 0x74), (8, 0x72), (5, 0x69), (8, 0x6D), (5, 0x63), (7, 0x6D), (16, 0x65),
                  (9, 0x6D)}
  {
    assert Shape(K_ID) == (3, 0x24) && Shape(K_TYPE) == (4, 0x74) && Shape(K_REQUIRED) == (8, 0x72)
        && Shape(K_ITEMS) == (5, 0x69);
    assert Shape(K_MIN_ITEMS) == Shape(K_MAX_ITEMS) == (8, 0x6D) && Shape(K_CONST) == (5, 0x63);
    assert Shape(K_MINIMUM) == Shape(K_MAXIMUM) == (7, 0x6D) && Shape(K_MIN_LENGTH) == Shape(K_MAX_LENGTH) == (9, 0x6D);
    assert Shape(K_EXCLUSIVE_MINIMUM) == Shape(K_EXCLUSIVE_MAXIMUM) == (16, 0x65);
  }

  lemma UsedAreNotUnused()
    ensures USED !! UNUSED
  {
    UsedShapes();
    UnusedShapes();
    hide Shape, USED, UNUSED;
    assert forall k | k in USED :: k !in UNUSED;
  }

  /** A node with none of the unused keywords passes all of their rules. */
  lemma PlainKeywords(s: Json, isRoot: bool, isProperty: bool)
    requires s.Obj? && s.fields.Keys <= USED
    requires K_SCHEMA in s.fields ==> s.fields[K_SCHEMA] == Str(DIALECT)
    requires K_REF in s.fields ==> s.fields[K_REF].Str?
    requires K_PROPERTIES in s.fields ==> s.fields[K_PROPERTIES].Obj? && K_ADDITIONAL in s.fields
    requires K_ADDITIONAL in s.fields ==> s.fields[K_ADDITIONAL] == Bool(false) || s.fields[K_ADDITIONAL].Obj?
    requires K_DEFS in s.fields ==> s.fields[K_DEFS].Obj?
    requires K_ENUM in s.fields ==>
             s.fields[K_ENUM].Arr? && s.fields[K_ENUM].items != [] && Distinct(s.fields[K_ENUM].items)
    requires K_DEFAULT in s.fields ==> isProperty
    ensures KeywordsAllowed(s, isRoot, isProperty)
  {
    UsedAreNotUnused();
    UsedAreAllowed();
    assert forall k | k in UNUSED :: k !in s.fields;
    assert {K_ID, K_TYPE, K_REQUIRED, K_ITEMS, K_CONST} <= UNUSED;
    assert {K_MIN_ITEMS, K_MAX_ITEMS, K_MIN_LENGTH, K_MAX_LENGTH, K_MINIMUM, K_MAXIMUM, K_EXCLUSIVE_MINIMUM,
        K_EXCLUSIVE_MAXIMUM} <= UNUSED;
    hide USED, UNUSED, ALLOWED_KEYS, DIALECT;
    hide K_SCHEMA, K_ID, K_DEFS, K_REF, K_TYPE, K_PROPERTIES, K_REQUIRED, K_ADDITIONAL, K_ITEMS, K_ENUM, K_CONST;
    hide K_DEFAULT;
    hide K_MIN_ITEMS, K_MAX_ITEMS, K_MIN_LENGTH, K_MAX_LENGTH, K_MINIMUM, K_MAXIMUM, K_EXCLUSIVE_MINIMUM;
    hide K_EXCLUSIVE_MAXIMUM;
  }

  lemma UsedAreAllowed()
    ensures USED <= ALLOWED_KEYS
  {
    hide K_SCHEMA, K_ID, K_DEFS, K_REF, K_TYPE, K_PROPERTIES, K_REQUIRED, K_ADDITIONAL, K_ITEMS, K_ENUM, K_CONST;
    hide K_DEFAULT;
  }

  /** Where a successor of a node comes from. */
  lemma SuccessorKinds(root: Json, s: Json, c: Json)
    requires c in Successors(root, s)
    ensures (RefOf(s).Some? && Resolve(root, RefOf(s).value) == Some(c))
         || c in MembersOf(s, K_DEFS).Values || c in Properties(s).Values
         || (Has(s, K_ADDITIONAL) && c == s.fields[K_ADDITIONAL]) || (Has(s, K_ITEMS) && c == s.fields[K_ITEMS])
  {
    hide Resolve, RefOf, SortedKeys, Values, MembersOf;
    var defs, properties := MembersOf(s, K_DEFS), Properties(s);
    if c in Values(defs, SortedKeys(defs.Keys)) {
      ValueOf(defs, SortedKeys(defs.Keys), c);
    } else if c in Values(properties, SortedKeys(properties.Keys)) {
      ValueOf(properties, SortedKeys(properties.Keys), c);
    }
  }

  lemma ValueOf(m: map<Text, Json>, keys: seq<Text>, c: Json)
    requires (forall k | k in keys :: k in m) && c in Values(m, keys)
    ensures c in m.Values
  {
    var i :| 0 <= i < |keys| && Values(m, keys)[i] == c;
    assert keys[i] in m;
  }

  lemma KeyIsHarmless(k: Text)
    requires NoSurrogates(k) && |k| != 9 && |k| != 11
    ensures WellFormed(k) && !DangerousKey(k)
  {
    PlainTextIsWellFormed(k);
    assert |Ascii("__proto__")| == |Ascii("prototype")| == 9 && |Ascii("constructor")| == 11;
  }

  lemma ShortKeywordsAreHarmless()
    ensures forall k | k in {K_SCHEMA, K_ENUM, K_REF, K_DEFS} :: WellFormed(k) && !DangerousKey(k)
  {
    hide WellFormed, DangerousKey;
    KeyIsHarmless(K_SCHEMA);
    KeyIsHarmless(K_ENUM);
    KeyIsHarmless(K_REF);
    KeyIsHarmless(K_DEFS);
  }

  lemma LongKeywordsAreHarmless()
    ensures forall k | k in {K_PROPERTIES, K_ADDITIONAL, K_DEFAULT} :: WellFormed(k) && !DangerousKey(k)
  {
    hide WellFormed, DangerousKey;
    KeyIsHarmless(K_PROPERTIES);
    KeyIsHarmless(K_ADDITIONAL);
    KeyIsHarmless(K_DEFAULT);
  }

  lemma UsedAreHarmless()
    ensures forall k | k in USED :: WellFormed(k) && !DangerousKey(k)
  {
    hide WellFormed, DangerousKey, K_SCHEMA, K_DEFS, K_REF, K_PROPERTIES, K_ADDITIONAL, K_DEFAULT, K_ENUM;
    ShortKeywordsAreHarmless();
    LongKeywordsAreHarmless();
  }

  lemma NamesAreHarmless()
    ensures forall k | k in {X, Y, Z, T} :: WellFormed(k) && !DangerousKey(k)
  {
    hide WellFormed, DangerousKey;
    KeyIsHarmless(X);
    KeyIsHarmless(Y);
    KeyIsHarmless(Z);
    KeyIsHarmless(T);
  }

  lemma ReferenceIsWellFormed()
    ensures WellFormed(REFERENCE)
  {
    assert |REFERENCE| == 9 && REFERENCE[0] == 0x23 && REFERENCE[1] == 0x2F && REFERENCE[2] == 0x24
        && REFERENCE[3] == 0x64;
    assert REFERENCE[4] == 0x65 && REFERENCE[5] == 0x66 && REFERENCE[6] == 0x73 && REFERENCE[7] == 0x2F
        && REFERENCE[8] == 0x54;
    assert NoSurrogates(REFERENCE) by {
      hide REFERENCE;
    }
    PlainTextIsWellFormed(REFERENCE);
  }

  lemma DialectIsWellFormed()
    ensures WellFormed(DIALECT)
  {
    assert NoSurrogates(DIALECT_HOST);
    assert NoSurrogates(DIALECT_PATH);
    hide DIALECT_HOST, DIALECT_PATH;
    PlainTextIsWellFormed(DIALECT_HOST);
    PlainTextIsWellFormed(DIALECT_PATH);
    WellFormedConcat(DIALECT_HOST, DIALECT_PATH);
  }

  // Acceptance from a list of nodes, each leading only to earlier ones.

  ghost predicate DefaultIsGood(s: Json) {
    HasDefault(s) ==> forall sc | Sound(sc) && InScope(sc, s) :: Normalize(sc, s, s.fields[K_DEFAULT]).Some?
  }

  ghost predicate NodeFits(root: Json, s: Json, before: seq<Json>) {
    && s.Obj? && s in Subterms(root) && Resolves(root, s) && DefaultIsGood(s)
    && forall c | c in Successors(root, s) :: c == Bool(false) || c in before
  }

  ghost predicate NodesFit(root: Json, nodes: seq<Json>) {
    && root in nodes
    && (forall i | 0 <= i < |nodes| :: NodeFits(root, nodes[i], nodes[..i]))
  }

  lemma NodesAreRanked(root: Json, nodes: seq<Json>)
    requires root.Obj? && NodesFit(root, nodes)
    ensures FinishingOrder(root).Some?
  {
    var rank := PositionRank(nodes);
    hide Successors, Subterms, DefaultIsGood, Resolves;
    forall s | s in rank
      ensures s.Obj? && s in Subterms(root) && Resolves(root, s)
      ensures forall c | c in Successors(root, s) :: !c.Null? && (c.Obj? ==> c in rank && rank[c] < rank[s])
    {
      var i := Position(nodes, s);
      assert NodeFits(root, nodes[i], nodes[..i]);
      forall c | c in Successors(root, s) && c.Obj?
        ensures c in rank && rank[c] < rank[s]
      {
        EarlierPosition(nodes, c, i);
      }
    }
    assert Ranks(root, rank);
    AcceptsExactlyRanked(root);
  }

  lemma {:induction false} DefaultsAreGood(sc: Schema, nodes: seq<Json>, s: Json)
    requires Sound(sc) && NodesFit(sc.root, nodes) && InScope(sc, s) && (s in nodes || s == Bool(false))
    ensures DefaultsAccepted(sc, s)
    decreases Rank(sc, s)
  {
    hide Successors, Subterms, Resolves, Normalize;
    if s.Obj? {
      var i := Position(nodes, s);
      assert NodeFits(sc.root, nodes[i], nodes[..i]);
      forall c | c in Children(s)
        ensures c in Successors(sc.root, s) && InScope(sc, c) && Rank(sc, c) < Rank(sc, s) && DefaultsAccepted(sc, c)
      {
        ChildIsSuccessor(sc.root, s, c);
        EdgesFall(sc, s, c);
        DefaultsAreGood(sc, nodes, c);
      }
    }
  }

  lemma ChildIsSuccessor(root: Json, s: Json, c: Json)
    requires c in Children(s)
    ensures c in Successors(root, s)
  {
    hide Children, Resolve;
  }

  lemma NodesAreAccepted(root: Json, nodes: seq<Json>)
    requires root.Obj? && NodesFit(root, nodes) && Canonical(root) && Walk(root, true, false)
    requires Has(root, K_SCHEMA) && root.fields[K_SCHEMA] == Str(DIALECT)
    ensures ValidateSchemaProfile(root).Valid?
  {
    hide NodesFit, Canonical, Walk, DIALECT, K_SCHEMA;
    NodesAreRanked(root, nodes);
    AcceptedIsSound(root);
    var sc := Schema(root, FinishingOrder(root).value);
    assert root in nodes by { RootIsNode(root, nodes); }
    DefaultsAreGood(sc, nodes, root);
  }

  /** The reference check finishes only listed nodes. */
  lemma {:induction false} VisitStaysListed(root: Json, nodes: seq<Json>, s: Json, visiting: set<Json>,
      visited: seq<Json>)
    requires s in Subterms(root) && visiting <= Subterms(root) && NodesFit(root, nodes)
    requires (s.Obj? ==> s in nodes) && forall x | x in visited :: x in nodes
    ensures var r := Visit(root, s, visiting, visited); r.Some? ==> forall x | x in r.value :: x in nodes
    decreases Subterms(root) - visiting, 1, 0
  {
    hide Subterms, Successors, DefaultIsGood;
    if s.Obj? && s !in visited && s !in visiting && Resolves(root, s) {
      forall c | c in Successors(root, s) ensures c in Subterms(root) { SuccessorsAreSubterms(root, s, c); }
      var i := Position(nodes, s);
      assert NodeFits(root, nodes[i], nodes[..i]);
      VisitAllStaysListed(root, nodes, Successors(root, s), visiting + {s}, visited);
    }
  }

  lemma {:induction false} VisitAllStaysListed(root: Json, nodes: seq<Json>, next: seq<Json>, visiting: set<Json>,
      visited: seq<Json>)
    requires visiting <= Subterms(root) && (forall c | c in next :: c in Subterms(root)) && NodesFit(root, nodes)
    requires (forall c | c in next && c.Obj? :: c in nodes) && forall x | x in visited :: x in nodes
    ensures var r := VisitAll(root, next, visiting, visited); r.Some? ==> forall x | x in r.value :: x in nodes
    decreases Subterms(root) - visiting, 2, |next|
  {
    hide Subterms, Successors, NodesFit;
    if next != [] {
      VisitStaysListed(root, nodes, next[0], visiting, visited);
      var r := Visit(root, next[0], visiting, visited);
      if r.Some? {
        VisitAllStaysListed(root, nodes, next[1..], visiting, r.value);
      }
    }
  }

  lemma RootIsNode(root: Json, nodes: seq<Json>)
    requires NodesFit(root, nodes)
    ensures root in nodes
  {
  }

  // `enum: [{}]` beside a property with a default.

  lemma NoItems(s: Json)
    requires s.Obj? && s.fields.Keys <= USED
    ensures !Has(s, K_ITEMS)
  {
    UsedAreNotUnused();
    assert K_ITEMS in UNUSED;
  }

  lemma OneFits(root: Json)
    requires ONE_BY_DEFAULT in Subterms(root)
    ensures NodeFits(root, ONE_BY_DEFAULT, [])
  {
    KeywordsDiffer();
    var s := ONE_BY_DEFAULT;
    NoItems(s);
    forall sc | Sound(sc) && InScope(sc, s)
      ensures Normalize(sc, s, Num(1)).Some?
    {
      OneByDefaultKeeps(sc);
    }
    NoSuccessors(root, s);
    hide Subterms, Normalize, Successors;
  }

  lemma NoSuccessors(root: Json, s: Json)
    requires RefOf(s).None? && !Has(s, K_DEFS) && !Has(s, K_PROPERTIES) && !Has(s, K_ADDITIONAL) && !Has(s, K_ITEMS)
    ensures Successors(root, s) == []
  {
    hide K_DEFS, K_PROPERTIES, K_ADDITIONAL, K_ITEMS, K_REF;
    assert SortedKeys({}) == [];
  }

  lemma OneIsWalked()
    ensures Walk(ONE_BY_DEFAULT, false, true) && Canonical(ONE_BY_DEFAULT)
  {
    KeywordsDiffer();
    UsedAreHarmless();
    NoItems(ONE_BY_DEFAULT);
    PlainKeywords(ONE_BY_DEFAULT, false, true);
    hide KeywordsAllowed, WellFormed, DangerousKey;
  }

  lemma ChoiceFields()
    ensures CHOICE.Obj?
    ensures var f := CHOICE.fields;
            && f.Keys == {K_SCHEMA, K_ENUM, K_PROPERTIES, K_ADDITIONAL} && f.Keys <= USED
            && f[K_SCHEMA] == Str(DIALECT) && f[K_ENUM] == Arr([EMPTY])
            && f[K_PROPERTIES] == Obj(map[X := ONE_BY_DEFAULT])
            && f[K_ADDITIONAL] == Bool(false)
            && K_DEFS !in f && K_REF !in f && K_DEFAULT !in f
  {
    KeywordsDiffer();
    hide DIALECT, ONE_BY_DEFAULT, EMPTY, X;
  }

  lemma PropertyIsSubterm(s: Json, k: Text)
    requires k in Properties(s)
    ensures Properties(s)[k] in Subterms(s)
  {
    MemberIsSubterm(s.fields[K_PROPERTIES], k);
    MemberIsSubterm(s, K_PROPERTIES);
    SubtermsOfSubterm(s, s.fields[K_PROPERTIES]);
  }

  lemma ChoiceFits()
    ensures NodeFits(CHOICE, CHOICE, [ONE_BY_DEFAULT])
  {
    ChoiceFields();
    NoItems(CHOICE);
    hide CHOICE, ONE_BY_DEFAULT, Subterms, Normalize;
    assert !HasDefault(CHOICE);
    forall c | c in Successors(CHOICE, CHOICE)
      ensures c == Bool(false) || c == ONE_BY_DEFAULT
    {
      SuccessorKinds(CHOICE, CHOICE, c);
    }
  }

  lemma ChoiceIsWalked()
    ensures Walk(CHOICE, true, false)
  {
    ChoiceFields();
    OneIsWalked();
    NoItems(CHOICE);
    PlainKeywords(CHOICE, true, false);
    hide KeywordsAllowed, DIALECT, CHOICE, ONE_BY_DEFAULT;
  }

  lemma ChoiceIsCanonical()
    ensures Canonical(CHOICE)
  {
    ChoiceFields();
    NamesAreHarmless();
    DialectIsWellFormed();
    OneIsWalked();
    LeavesAreCanonical();
    OneNameIsCanonical(X, ONE_BY_DEFAULT);
    hide Canonical, WellFormed, DangerousKey, DIALECT, ONE_BY_DEFAULT, CHOICE, EMPTY, Walk, USED;
    hide K_SCHEMA, K_DEFS, K_REF, K_PROPERTIES, K_ADDITIONAL, K_DEFAULT, K_ENUM;
    NodeIsCanonical(CHOICE);
  }

  lemma NodeIsCanonical(s: Json)
    requires s.Obj? && s.fields.Keys <= USED && forall k | k in s.fields :: Canonical(s.fields[k])
    ensures Canonical(s)
  {
    UsedAreHarmless();
    hide WellFormed, DangerousKey, USED;
  }

  lemma LeavesAreCanonical()
    ensures Canonical(Bool(false)) && (forall t | WellFormed(t) :: Canonical(Str(t))) && Canonical(EMPTY)
    ensures Canonical(Arr([EMPTY]))
  {
    hide WellFormed;
    assert Canonical(EMPTY);
  }

  lemma OneNameIsCanonical(k: Text, v: Json)
    requires WellFormed(k) && !DangerousKey(k) && Canonical(v)
    ensures Canonical(Obj(map[k := v]))
  {
    hide WellFormed, DangerousKey;
  }

  /** The profile accepts the first schema. */
  lemma ChoiceIsAccepted()
    ensures ValidateSchemaProfile(CHOICE).Valid?
  {
    ChoiceFields();
    ChoiceIsWalked();
    ChoiceIsCanonical();
    ChoiceFits();
    PropertyIsSubterm(CHOICE, X);
    OneFits(CHOICE);
    hide NodeFits, Walk, Canonical, CHOICE, ONE_BY_DEFAULT, DIALECT, Subterms;
    var nodes := [ONE_BY_DEFAULT, CHOICE];
    assert nodes[..0] == [] && nodes[..1] == [ONE_BY_DEFAULT];
    NodesAreAccepted(CHOICE, nodes);
  }

  // A reference beside a property that supplies a value.

  lemma InnerFields()
    ensures INNER.Obj?
    ensures var f := INNER.fields;
            && f.Keys == {K_PROPERTIES, K_ADDITIONAL} && f.Keys <= USED
            && f[K_PROPERTIES] == Obj(map[Z := ONE_BY_DEFAULT]) && f[K_ADDITIONAL] == Bool(false)
            && K_DEFS !in f && K_REF !in f && K_DEFAULT !in f && K_ENUM !in f && K_SCHEMA !in f
  {
    KeywordsDiffer();
    hide ONE_BY_DEFAULT, Z;
  }

  lemma TargetFields()
    ensures TARGET.Obj?
    ensures var f := TARGET.fields;
            && f.Keys == {K_ADDITIONAL} && f.Keys <= USED && f[K_ADDITIONAL] == INNER
            && K_DEFS !in f && K_REF !in f && K_DEFAULT !in f && K_ENUM !in f && K_SCHEMA !in f && K_PROPERTIES !in f
  {
    KeywordsDiffer();
    hide INNER;
  }

  lemma EmptyDefaultFields()
    ensures EMPTY_BY_DEFAULT.Obj?
    ensures var f := EMPTY_BY_DEFAULT.fields;
            && f.Keys == {K_DEFAULT} && f.Keys <= USED && f[K_DEFAULT] == EMPTY
            && K_DEFS !in f && K_REF !in f && K_ENUM !in f && K_SCHEMA !in f && K_PROPERTIES !in f && K_ADDITIONAL !in f
  {
    KeywordsDiffer();
    hide EMPTY;
  }

  lemma SiblingFields()
    ensures SIBLING.Obj?
    ensures var f := SIBLING.fields;
            && f.Keys == {K_SCHEMA, K_DEFS, K_REF, K_PROPERTIES, K_ADDITIONAL} && f.Keys <= USED
            && f[K_SCHEMA] == Str(DIALECT) && f[K_DEFS] == Obj(map[T := TARGET]) && f[K_REF] == Str(REFERENCE)
            && f[K_PROPERTIES] == Obj(map[Y := EMPTY_BY_DEFAULT]) && f[K_ADDITIONAL] == EMPTY
            && K_DEFAULT !in f && K_ENUM !in f
  {
    KeywordsDiffer();
    hide DIALECT, REFERENCE, TARGET, EMPTY_BY_DEFAULT, EMPTY, T, Y;
  }

  lemma InnerFits(root: Json)
    requires INNER in Subterms(root)
    ensures NodeFits(root, INNER, [ONE_BY_DEFAULT])
  {
    InnerFields();
    NoItems(INNER);
    hide INNER, ONE_BY_DEFAULT, Subterms, Normalize;
    forall c | c in Successors(root, INNER)
      ensures c == Bool(false) || c == ONE_BY_DEFAULT
    {
      SuccessorKinds(root, INNER, c);
    }
  }

  lemma TargetFits(root: Json)
    requires TARGET in Subterms(root)
    ensures NodeFits(root, TARGET, [ONE_BY_DEFAULT, INNER])
  {
    TargetFields();
    NoItems(TARGET);
    hide TARGET, INNER, ONE_BY_DEFAULT, Subterms, Normalize;
    forall c | c in Successors(root, TARGET)
      ensures c == INNER
    {
      SuccessorKinds(root, TARGET, c);
    }
  }

  lemma EmptyDefaultFits(root: Json)
    requires EMPTY_BY_DEFAULT in Subterms(root)
    ensures NodeFits(root, EMPTY_BY_DEFAULT, [ONE_BY_DEFAULT, INNER, TARGET])
  {
    EmptyDefaultFields();
    var s := EMPTY_BY_DEFAULT;
    NoItems(s);
    forall sc | Sound(sc) && InScope(sc, s)
      ensures Normalize(sc, s, EMPTY).Some?
    {
      DefaultedKeeps(sc, EMPTY);
    }
    hide EMPTY_BY_DEFAULT, EMPTY, INNER, TARGET, ONE_BY_DEFAULT;
    NoSuccessors(root, s);
    hide Subterms, Normalize, Successors;
  }

  lemma EmptyFits(root: Json)
    requires EMPTY in Subterms(root)
    ensures NodeFits(root, EMPTY, [ONE_BY_DEFAULT, INNER, TARGET, EMPTY_BY_DEFAULT])
  {
    NoSuccessors(root, EMPTY);
    hide Subterms, Normalize, Successors, INNER, TARGET, ONE_BY_DEFAULT, EMPTY_BY_DEFAULT;
  }

  lemma SiblingFits()
    ensures NodeFits(SIBLING, SIBLING, [ONE_BY_DEFAULT, INNER, TARGET, EMPTY_BY_DEFAULT, EMPTY])
  {
    SiblingFields();
    NoItems(SIBLING);
    ReferenceResolves();
    SiblingLeads();
    hide SIBLING, TARGET, INNER, ONE_BY_DEFAULT, EMPTY_BY_DEFAULT, EMPTY, REFERENCE, Subterms, Normalize, Resolve;
    hide Successors;
    hide K_SCHEMA, K_DEFS, K_REF, K_PROPERTIES, K_ADDITIONAL, K_DEFAULT, K_ENUM, USED;
  }

  lemma SiblingLeads()
    ensures forall c | c in Successors(SIBLING, SIBLING) :: c == EMPTY || c == TARGET || c == EMPTY_BY_DEFAULT
  {
    SiblingFields();
    NoItems(SIBLING);
    ReferenceResolves();
    hide SIBLING, TARGET, INNER, ONE_BY_DEFAULT, EMPTY_BY_DEFAULT, EMPTY, REFERENCE, Resolve, Successors, USED;
    hide K_SCHEMA, K_DEFS, K_REF, K_PROPERTIES, K_ADDITIONAL, K_DEFAULT, K_ENUM;
    forall c | c in Successors(SIBLING, SIBLING)
      ensures c == EMPTY || c == TARGET || c == EMPTY_BY_DEFAULT
    {
      SuccessorKinds(SIBLING, SIBLING, c);
    }
  }

  lemma SiblingSubterms()
    ensures {ONE_BY_DEFAULT, INNER, TARGET, EMPTY_BY_DEFAULT, EMPTY} <= Subterms(SIBLING)
  {
    SiblingFields();
    TargetFields();
    InnerFields();
    hide SIBLING, TARGET, INNER, ONE_BY_DEFAULT, EMPTY_BY_DEFAULT, EMPTY, REFERENCE, DIALECT;
    PropertyIsSubterm(SIBLING, Y);
    MemberIsSubterm(SIBLING, K_ADDITIONAL);
    MemberIsSubterm(SIBLING.fields[K_DEFS], T);
    MemberIsSubterm(SIBLING, K_DEFS);
    SubtermsOfSubterm(SIBLING, SIBLING.fields[K_DEFS]);
    MemberIsSubterm(TARGET, K_ADDITIONAL);
    SubtermsOfSubterm(SIBLING, TARGET);
    PropertyIsSubterm(INNER, Z);
    SubtermsOfSubterm(SIBLING, INNER);
  }

  lemma InnerIsWalked()
    ensures Walk(INNER, false, false) && Canonical(INNER)
  {
    InnerFields();
    OneIsWalked();
    NoItems(INNER);
    PlainKeywords(INNER, false, false);
    InnerIsCanonical();
    hide KeywordsAllowed, Canonical, INNER, ONE_BY_DEFAULT, USED;
  }

  lemma InnerIsCanonical()
    ensures Canonical(INNER)
  {
    InnerFields();
    NamesAreHarmless();
    OneIsWalked();
    LeavesAreCanonical();
    OneNameIsCanonical(Z, ONE_BY_DEFAULT);
    hide Canonical, WellFormed, DangerousKey, INNER, ONE_BY_DEFAULT, USED, Walk;
    hide K_SCHEMA, K_DEFS, K_REF, K_PROPERTIES, K_ADDITIONAL, K_DEFAULT, K_ENUM;
    NodeIsCanonical(INNER);
  }

  lemma TargetIsWalked()
    ensures Walk(TARGET, false, false) && Canonical(TARGET)
  {
    TargetFields();
    InnerIsWalked();
    NoItems(TARGET);
    UsedAreHarmless();
    PlainKeywords(TARGET, false, false);
    hide KeywordsAllowed, WellFormed, DangerousKey, TARGET, INNER, USED;
  }

  lemma EmptyDefaultIsWalked()
    ensures Walk(EMPTY_BY_DEFAULT, false, true) && Canonical(EMPTY_BY_DEFAULT)
  {
    EmptyDefaultFields();
    NoItems(EMPTY_BY_DEFAULT);
    UsedAreHarmless();
    PlainKeywords(EMPTY_BY_DEFAULT, false, true);
    assert Canonical(EMPTY);
    hide KeywordsAllowed, WellFormed, DangerousKey, EMPTY_BY_DEFAULT, EMPTY, USED;
  }

  lemma EmptyIsWalked()
    ensures Walk(EMPTY, false, false) && Canonical(EMPTY)
  {
    NoItems(EMPTY);
    PlainKeywords(EMPTY, false, false);
    hide KeywordsAllowed, USED;
  }

  lemma SiblingIsWalked()
    ensures Walk(SIBLING, true, false)
  {
    SiblingFields();
    TargetIsWalked();
    EmptyDefaultIsWalked();
    EmptyIsWalked();
    NoItems(SIBLING);
    PlainKeywords(SIBLING, true, false);
    hide KeywordsAllowed, DIALECT, SIBLING, TARGET, EMPTY_BY_DEFAULT, EMPTY, REFERENCE;
  }

  lemma SiblingPartsAreCanonical()
    ensures Canonical(Str(DIALECT)) && Canonical(Str(REFERENCE)) && Canonical(EMPTY)
    ensures Canonical(Obj(map[T := TARGET])) && Canonical(Obj(map[Y := EMPTY_BY_DEFAULT]))
  {
    hide Canonical, WellFormed, DangerousKey, DIALECT, REFERENCE, TARGET, EMPTY_BY_DEFAULT, Walk;
    NamesAreHarmless();
    DialectIsWellFormed();
    ReferenceIsWellFormed();
    TargetIsWalked();
    EmptyDefaultIsWalked();
    LeavesAreCanonical();
    OneNameIsCanonical(T, TARGET);
    OneNameIsCanonical(Y, EMPTY_BY_DEFAULT);
  }

  lemma SiblingIsCanonical()
    ensures Canonical(SIBLING)
  {
    hide Canonical, DIALECT, REFERENCE, SIBLING, TARGET, EMPTY_BY_DEFAULT, EMPTY, USED, T, Y;
    hide K_SCHEMA, K_DEFS, K_REF, K_PROPERTIES, K_ADDITIONAL, K_DEFAULT, K_ENUM;
    SiblingFields();
    SiblingPartsAreCanonical();
    NodeIsCanonical(SIBLING);
  }

  lemma SixNodesFit(root: Json, a: Json, b: Json, c: Json, d: Json, e: Json)
    requires NodeFits(root, a, []) && NodeFits(root, b, [a]) && NodeFits(root, c, [a, b])
    requires NodeFits(root, d, [a, b, c])
    requires NodeFits(root, e, [a, b, c, d]) && NodeFits(root, root, [a, b, c, d, e])
    ensures NodesFit(root, [a, b, c, d, e, root])
  {
    hide NodeFits;
    var nodes := [a, b, c, d, e, root];
    assert nodes[..0] == [] && nodes[..1] == [a] && nodes[..2] == [a, b] && nodes[..3] == [a, b, c];
    assert nodes[..4] == [a, b, c, d] && nodes[..5] == [a, b, c, d, e];
  }

  /** The profile accepts the second schema. */
  lemma SiblingIsAccepted()
    ensures ValidateSchemaProfile(SIBLING).Valid?
  {
    SiblingFields();
    SiblingIsWalked();
    SiblingIsCanonical();
    SiblingSubterms();
    OneFits(SIBLING);
    InnerFits(SIBLING);
    TargetFits(SIBLING);
    EmptyDefaultFits(SIBLING);
    EmptyFits(SIBLING);
    SiblingFits();
    hide NodeFits, NodesFit, Walk, Canonical, SIBLING, TARGET, INNER, EMPTY_BY_DEFAULT, EMPTY, ONE_BY_DEFAULT, DIALECT;
    hide REFERENCE, Subterms, ValidateSchemaProfile;
    SixNodesFit(SIBLING, ONE_BY_DEFAULT, INNER, TARGET, EMPTY_BY_DEFAULT, EMPTY);
    NodesAreAccepted(SIBLING, [ONE_BY_DEFAULT, INNER, TARGET, EMPTY_BY_DEFAULT, EMPTY, SIBLING]);
  }

  // The two laws fail on accepted schemas.

  /** With an enum of an object, normalization under an accepted schema can refuse its own output. */
  lemma AcceptedChoicesMustBeScalars()
    ensures ValidateSchemaProfile(CHOICE).Valid?
    ensures var sc := ValidateSchemaProfile(CHOICE).schema;
            && Normalize(sc, CHOICE, EMPTY) == Some(Obj(map[X := Num(1)]))
            && Normalize(sc, CHOICE, Obj(map[X := Num(1)])).None?
  {
    ChoiceIsAccepted();
    hide ValidateSchemaProfile, CHOICE, Normalize;
    ChoicesMustBeScalars(ValidateSchemaProfile(CHOICE).schema);
  }

  /** With a property beside a reference, a second normalization under an accepted schema can change the value. */
  lemma AcceptedReferenceSiblingsMustOnlyCheck()
    ensures ValidateSchemaProfile(SIBLING).Valid?
    ensures var sc := ValidateSchemaProfile(SIBLING).schema;
            && Normalize(sc, SIBLING, EMPTY) == Some(Obj(map[Y := EMPTY]))
            && Normalize(sc, SIBLING, Obj(map[Y := EMPTY])) == Some(Obj(map[Y := Obj(map[Z := Num(1)])]))
            && Obj(map[Y := EMPTY]) != Obj(map[Y := Obj(map[Z := Num(1)])])
  {
    SiblingIsAccepted();
    hide ValidateSchemaProfile, SIBLING, Normalize;
    ReferenceSiblingsMustOnlyCheck(ValidateSchemaProfile(SIBLING).schema);
  }
}
