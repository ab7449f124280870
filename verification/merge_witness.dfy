/** A sweep over two different values that normalization makes one: the planner refuses it. */
module MergeWitness {
  import opened CanonicalJson
  import opened CanonicalBytes
  import opened JsonPointer
  import opened SchemaProfile
  import opened Normalization
  import opened NormalizationLaws
  import opened NormalForms
  import opened SchemaValidation
  import opened NormalizationWitnesses
  import opened NormalizationWitnessSchemas
  import opened AgreementWitness
  import opened ChoiceWitness
  import opened Sampling
  import opened CartesianExpansion
  import opened ExpansionLaws
  import opened Planner
  import opened PlannerLaws
  import opened PlannedSweeps
  import opened PlannerOutcome

  /** Property `x` is an object whose one property `z` is 1 by default. */
  const MERGING: Json := Obj(map[
    K_SCHEMA := Str(DIALECT),
    K_PROPERTIES := Obj(map[X := INNER]),
    K_ADDITIONAL := Bool(false)])

  /** `/x` over `{}` and `{"z": 1}`, as declared and as normalized. */
  const DECLARED: Declaration := Cartesian([Axis(Format([X]), [EMPTY, SETTLED])], None)
  const MERGED: Declaration := Cartesian([Axis(Format([X]), [SETTLED, SETTLED])], None)

  const MERGE_CONFIGURATION: Json := ConfigurationJson(Configuration(false, EMPTY, DECLARED))

  // The profile accepts the schema, which has no reference and no choices.

  lemma MergingFields()
    ensures MERGING.Obj?
    ensures var f := MERGING.fields;
            && f.Keys == {K_SCHEMA, K_PROPERTIES, K_ADDITIONAL} && f.Keys <= USED
            && f[K_SCHEMA] == Str(DIALECT) && f[K_PROPERTIES] == Obj(map[X := INNER]) && f[K_ADDITIONAL] == Bool(false)
            && K_DEFS !in f && K_DEFAULT !in f && K_ENUM !in f && K_REF !in f
  {
    KeywordsDiffer();
    hide DIALECT, INNER, X;
  }

  lemma MergingLeads()
    ensures forall c | c in Successors(MERGING, MERGING) :: c == Bool(false) || c == INNER
  {
    MergingFields();
    NoItems(MERGING);
    hide MERGING, INNER, DIALECT, Resolve, Successors, USED;
    hide K_SCHEMA, K_DEFS, K_REF, K_PROPERTIES, K_ADDITIONAL, K_DEFAULT, K_ENUM;
    forall c | c in Successors(MERGING, MERGING)
      ensures c == Bool(false) || c == INNER
    {
      SuccessorKinds(MERGING, MERGING, c);
    }
  }

  lemma MergingFits()
    ensures NodeFits(MERGING, MERGING, [ONE_BY_DEFAULT, INNER])
  {
    MergingFields();
    MergingLeads();
    hide MERGING, INNER, ONE_BY_DEFAULT, DIALECT, Subterms, Normalize, Resolve, Successors, USED;
    hide K_SCHEMA, K_DEFS, K_REF, K_PROPERTIES, K_ADDITIONAL, K_DEFAULT, K_ENUM;
  }

  const LISTED: seq<Json> := [ONE_BY_DEFAULT, INNER, MERGING]

  lemma ListedFit()
    ensures NodesFit(MERGING, LISTED)
  {
    MergingFields();
    InnerFields();
    PropertyIsSubterm(MERGING, X);
    PropertyIsSubterm(INNER, Z);
    SubtermsOfSubterm(MERGING, INNER);
    hide NodeFits, ONE_BY_DEFAULT, INNER, MERGING, Subterms;
    OneFits(MERGING);
    InnerFits(MERGING);
    MergingFits();
    var nodes := LISTED;
    assert nodes[..0] == [] && nodes[..1] == [ONE_BY_DEFAULT] && nodes[..2] == [ONE_BY_DEFAULT, INNER];
  }

  lemma InnerIsWalkedAsProperty()
    ensures Walk(INNER, false, true) && Canonical(INNER)
  {
    InnerFields();
    OneIsWalked();
    NoItems(INNER);
    PlainKeywords(INNER, false, true);
    InnerIsCanonical();
    hide KeywordsAllowed, Canonical, INNER, ONE_BY_DEFAULT, USED;
  }

  lemma MergingIsWalked()
    ensures Walk(MERGING, true, false)
  {
    MergingFields();
    InnerIsWalkedAsProperty();
    NoItems(MERGING);
    PlainKeywords(MERGING, true, false);
    hide KeywordsAllowed, DIALECT, MERGING, INNER, USED, Canonical;
  }

  lemma MergingIsCanonical()
    ensures Canonical(MERGING)
  {
    hide Canonical, WellFormed, DangerousKey, DIALECT, MERGING, INNER, USED, Walk, X, EMPTY;
    hide K_SCHEMA, K_DEFS, K_REF, K_PROPERTIES, K_ADDITIONAL, K_DEFAULT, K_ENUM;
    MergingFields();
    NamesAreHarmless();
    DialectIsWellFormed();
    LeavesAreCanonical();
    InnerIsWalkedAsProperty();
    OneNameIsCanonical(X, INNER);
    NodeIsCanonical(MERGING);
  }

  lemma PlainNodes()
    ensures forall s | s in LISTED :: RefOf(s).None? && !Has(s, K_ENUM) && !Has(s, K_CONST)
  {
    MergingFields();
    InnerFields();
    KeywordsDiffer();
    UsedAreNotUnused();
    assert K_CONST in UNUSED;
    assert ONE_BY_DEFAULT.fields.Keys == {K_DEFAULT};
    hide MERGING, INNER, ONE_BY_DEFAULT, USED, UNUSED;
  }

  lemma MergingIsAccepted()
    ensures ValidateSchemaProfile(MERGING).Valid? && ChecksOnly(ValidateSchemaProfile(MERGING).schema)
  {
    MergingFields();
    hide NodesFit, Walk, Canonical, MERGING, LISTED, DIALECT, INNER, ONE_BY_DEFAULT, USED;
    MergingIsWalked();
    MergingIsCanonical();
    ListedFit();
    NodesAreAccepted(MERGING, LISTED);
    var sc := ValidateSchemaProfile(MERGING).schema;
    assert sc.order == FinishingOrder(MERGING).value;
    assert MERGING in LISTED by { RootIsNode(MERGING, LISTED); }
    VisitStaysListed(MERGING, LISTED, MERGING, {}, []);
    PlainNodes();
    hide ValidateSchemaProfile;
  }

  // What the schema makes of the values.

  lemma MergingFacts()
    ensures RefOf(MERGING).None? && Admits(MERGING) && Properties(MERGING) == map[X := INNER]
    ensures (forall v :: ChoicesAllow(MERGING, v))
    ensures MemberSchema(MERGING, X) == INNER && ObjectChildSchema(MERGING, X) == Some(INNER) && MERGING.Obj?
    ensures !HasDefault(INNER)
  {
    MergingFields();
    InnerFields();
    UsedAreNotUnused();
    assert {K_TYPE, K_REQUIRED, K_CONST} <= UNUSED;
    hide MERGING, INNER, USED, UNUSED, X;
  }

  lemma NothingSupplied(s: Json)
    requires forall k | k in Properties(s) :: !HasDefault(Properties(s)[k])
    ensures Fill(s, map[]) == map[]
  {
    hide Properties;
  }

  lemma BaseIsKept(sc: Schema)
    requires Sound(sc) && InScope(sc, MERGING)
    ensures Normalize(sc, MERGING, EMPTY) == Some(EMPTY)
  {
    MergingFacts();
    NothingSupplied(MERGING);
    assert EMPTY == Obj(map[]) && Canonical(EMPTY);
    hide Properties, ChoicesAllow, Admits, RefOf, Fill, MemberSchema, MERGING, EMPTY, INNER, Canonical, Sound, InScope;
    AdmittedObject(sc, MERGING, EMPTY, map[], EMPTY);
  }

  lemma SettlesBelow(sc: Schema, v: Json)
    requires Sound(sc) && InScope(sc, MERGING) && InScope(sc, INNER) && Canonical(Obj(map[X := v]))
    requires Normalize(sc, INNER, v) == Some(SETTLED)
    ensures Normalize(sc, MERGING, Holding(v)) == Some(Holding(SETTLED))
  {
    hide Properties, ChoicesAllow, Admits, RefOf, Fill, MemberSchema, MERGING, SETTLED, INNER, Canonical, Sound;
    hide InScope, X, NormalizeNode;
    MergingFacts();
    MemberIsNormalize(sc, MERGING, X, v);
    PassesOn(sc, MERGING, X, v, SETTLED);
  }

  lemma HeldIsCanonical(v: Json)
    requires Canonical(v)
    ensures Canonical(Obj(map[X := v]))
  {
    NamesAreHarmless();
    hide Canonical, WellFormed, DangerousKey;
    OneNameIsCanonical(X, v);
  }

  lemma InnerInScope(sc: Schema)
    requires Sound(sc) && InScope(sc, MERGING)
    ensures InScope(sc, INNER)
  {
    MergingFacts();
    hide MERGING, INNER;
    MemberSchemaFalls(sc, MERGING, X);
  }

  /** Either value, written at `/x` and normalized. */
  lemma ValueSettles(sc: Schema, v: Json)
    requires Sound(sc) && InScope(sc, MERGING) && (v == EMPTY || v == SETTLED)
    ensures Normalize(sc, MERGING, Holding(v)) == Some(Holding(SETTLED))
  {
    ValuesAreCanonical();
    hide MERGING, EMPTY, SETTLED, INNER, Canonical, Sound, InScope, X, Normalize;
    InnerInScope(sc);
    InnerSupplies(sc);
    OneSettles(sc);
    HeldIsCanonical(v);
    SettlesBelow(sc, v);
  }

  lemma ValueIsWritten(sc: Schema, v: Json)
    requires Sound(sc) && InScope(sc, MERGING)
    ensures SchemaSet(sc, MERGING, EMPTY, [X], v) == Some(Holding(v)) && Get(Holding(SETTLED), [X]) == Some(SETTLED)
  {
    MergingFacts();
    XIsNoPrototype();
    assert Dereference(sc, MERGING) == Some(MERGING);
    assert EMPTY.Obj? && EMPTY.fields[X := v] == Holding(v).fields;
    assert [X][1..] == [];
    hide MERGING, ObjectChildSchema, Dereference, IsProto, INNER, Sound, InScope, EMPTY, SETTLED, X;
    LastStep(sc, MERGING, MERGING, EMPTY, X, v);
    assert HasChild(Holding(SETTLED), X) && Child(Holding(SETTLED), X) == SETTLED;
  }

  lemma ValueMerges(sc: CheckedSchema, v: Json)
    requires sc.root == MERGING && InScope(sc, MERGING) && (v == EMPTY || v == SETTLED)
    ensures NormalValue(sc, EMPTY, [X], v) == Some(SETTLED)
  {
    hide MERGING, SchemaSet, Normalize, Get, EMPTY, SETTLED, X, InScope;
    ValueIsWritten(sc, v);
    ValueSettles(sc, v);
    HoldingShape(SETTLED);
  }

  lemma AxisMerges(sc: CheckedSchema, a: Axis)
    requires sc.root == MERGING && InScope(sc, MERGING) && Tokens(a) == [X] && a.values == [EMPTY, SETTLED]
    ensures AxisNormalizes(sc, EMPTY, a) && NormalAxis(sc, EMPTY, a) == Axis(a.pointer, [SETTLED, SETTLED])
  {
    hide MERGING, NormalValue, EMPTY, SETTLED, X, Tokens, InScope;
    ValueMerges(sc, EMPTY);
    ValueMerges(sc, SETTLED);
    assert AxisNormalizes(sc, EMPTY, a);
    assert NormalAxis(sc, EMPTY, a).values == [SETTLED, SETTLED];
  }

  lemma SweepMerges(sc: CheckedSchema)
    requires sc.root == MERGING && InScope(sc, MERGING)
    ensures NormalSampling(sc, EMPTY, DECLARED) == Ok(MERGED)
  {
    ParseUndoesFormat([X], false);
    var a := Axis(Format([X]), [EMPTY, SETTLED]);
    assert Tokens(a) == [X] && DECLARED == Cartesian([a], None);
    assert MERGED == Cartesian([Axis(a.pointer, [SETTLED, SETTLED])], None);
    hide MERGING, EMPTY, SETTLED, X, Format, ParsePointer, Tokens, InScope, AxisNormalizes, NormalAxis, DECLARED;
    hide MERGED;
    AxisMerges(sc, a);
    OneAxisNormalizes(sc, EMPTY, a);
  }

  lemma OneAxisNormalizes(sc: CheckedSchema, base: Json, a: Axis)
    requires AxisNormalizes(sc, base, a)
    ensures NormalSampling(sc, base, Cartesian([a], None)) == Ok(Cartesian([NormalAxis(sc, base, a)], None))
  {
    hide AxisNormalizes, NormalAxis;
    assert NormalSampling(sc, base, Cartesian([a], None)).value.axes == [NormalAxis(sc, base, a)];
  }

  lemma DeclaredIsWellDeclared()
    ensures WellDeclared(DECLARED)
  {
    ParseUndoesFormat([X], false);
    ValuesAreCanonical();
    assert EMPTY != SETTLED by { assert Z in SETTLED.fields && Z !in EMPTY.fields; }
    hide ParsePointer, Canonical, Format, SETTLED, EMPTY, X;
    assert DistinctValues(DECLARED.axes[0].values);
  }

  /** The sweep is declared well and expands without a refusal, and yet the planner refuses it. */
  lemma AcceptedSchemaMergesValues(hash: Hash, maxSamples: int)
    requires ProducesDigests(hash) && 2 <= maxSamples <= MAX_SAFE
    ensures ValidateSchemaProfile(MERGING).Valid? && WellDeclared(DECLARED)
    ensures var sc := ValidateSchemaProfile(MERGING).schema;
            && ChecksOnly(sc)
            && NormalizedConfiguration(sc, MERGE_CONFIGURATION) == Ok(Configuration(false, EMPTY, MERGED))
            && Countable(MERGED) && PlannedPayloads(sc, EMPTY, MERGED, maxSamples).Ok?
    ensures PlanExperiment(hash, MERGE_CONFIGURATION, MERGING, maxSamples) == Fail(InvalidSamplePlan)
  {
    MergingIsAccepted();
    var sc := ValidateSchemaProfile(MERGING).schema;
    DeclaredIsWellDeclared();
    ValuesAreCanonical();
    MergedSize();
    assert EMPTY.Obj?;
    hide ValidateSchemaProfile, MERGING, EMPTY, SETTLED, DECLARED, MERGED, Normalize, NormalSampling, WellDeclared;
    hide PlanUnder, PlannedPayloads;
    hide NormalizedConfiguration, ConfigurationJson, ProducesDigests, ReferencesOnlyChecked, ScalarChoices;
    hide ChoicesAllowSweep, Payloads, Canonical, AxesAreDistinct;
    BaseIsKept(sc);
    SweepMerges(sc);
    WrittenConfigurationIsRead(sc, Configuration(false, EMPTY, DECLARED), EMPTY, MERGED);
    ExpansionIsNeverRefused(sc, EMPTY, DECLARED, MERGED, maxSamples);
    SweepAnswers(hash, sc, MERGE_CONFIGURATION, maxSamples);
  }

  lemma MergedSize()
    ensures MERGED.Cartesian? && Countable(MERGED) && SampleCount(MERGED) == 2 && !AxesAreDistinct(MERGED.axes)
  {
    hide Format, SETTLED, X;
    assert MERGED.axes[1..] == [] && Product(MERGED.axes[1..]) == 1;
    assert MERGED.axes[0].values[0] == MERGED.axes[0].values[1];
    assert !PairwiseDistinct(MERGED.axes[0].values);
  }
}
