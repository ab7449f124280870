/** An accepted schema under which the planner returns a plan that the revalidator refuses. */
module AgreementWitness {
  import opened CanonicalJson
  import opened CanonicalBytes
  import opened JsonPointer
  import opened SchemaProfile
  import opened Normalization
  import opened NormalizationLaws
  import opened NormalForms
  import opened SchemaValidation
  import opened NormalizationWitnesses
  import opened NormalizationWitnessSchemas
  import opened Sampling
  import opened CartesianExpansion
  import opened ExpansionLaws
  import opened Planner
  import opened PlannerLaws
  import opened PlanRevalidation
  import opened PlannedSweeps
  import opened PlannerOutcome

  /** `{"z": 1}`, swept at `/x`. */
  const SETTLED: Json := Obj(map[Z := Num(1)])
  const AXIS: Axis := Axis(Format([X]), [SETTLED])
  const SWEEP: Declaration := Cartesian([AXIS], None)

  /** The base, the combination as plainly written, and as the planner returns it. */
  const BASE: Json := Obj(map[Y := EMPTY])
  const WRITTEN: Json := Obj(map[X := SETTLED, Y := EMPTY])
  const RETURNED: Json := Obj(map[X := SETTLED, Y := SETTLED])

  /** No parameters given, and one combination. */
  const CONFIGURATION: Json := ConfigurationJson(Configuration(false, EMPTY, SWEEP))

  lemma ValuesAreCanonical()
    ensures Canonical(SETTLED) && Canonical(EMPTY) && Canonical(BASE) && Canonical(WRITTEN) && Canonical(RETURNED)
  {
    NamesAreHarmless();
    NamesDiffer();
    hide WellFormed, DangerousKey, X, Y, Z;
    assert Canonical(Num(1));
    assert Canonical(EMPTY);
  }

  // What the schema makes of the values.

  lemma OneSettles(sc: Schema)
    requires Sound(sc) && InScope(sc, INNER)
    ensures Normalize(sc, INNER, SETTLED) == Some(SETTLED)
  {
    InnerFacts();
    ValuesAreCanonical();
    MemberSchemaFalls(sc, INNER, Z);
    InnerAllows();
    assert MemberSchema(INNER, Z) == ONE_BY_DEFAULT;
    hide Properties, ChoicesAllow, Admits, RefOf, Canonical, InScope, Sound, MemberSchema, INNER, ONE_BY_DEFAULT, Z;
    hide NormalizeNode;
    assert NormalizeMember(sc, INNER, Z, Num(1)) == Some(Num(1)) by { OneByDefaultKeeps(sc); }
    PassesOn(sc, INNER, Z, Num(1), Num(1));
  }

  lemma Shapes()
    ensures BASE.Obj? && BASE.fields == map[Y := EMPTY] && SETTLED.Obj? && EMPTY.Obj?
    ensures WRITTEN.Obj? && WRITTEN.fields.Keys == {X, Y} && WRITTEN.fields[X] == SETTLED && WRITTEN.fields[Y] == EMPTY
    ensures RETURNED.Obj? && RETURNED.fields.Keys == {X, Y} && RETURNED.fields[X] == RETURNED.fields[Y] == SETTLED
  {
    NamesDiffer();
    assert SETTLED.Obj? && EMPTY.Obj?;
    hide X, Y, EMPTY, SETTLED;
  }

  lemma InnerAllows()
    ensures forall v :: ChoicesAllow(INNER, v)
  {
    KeywordsDiffer();
  }

  lemma TargetReturns(sc: Schema)
    requires Sound(sc) && InScope(sc, TARGET)
    ensures Normalize(sc, TARGET, WRITTEN) == Some(RETURNED)
  {
    TargetFacts();
    ValuesAreCanonical();
    NamesDiffer();
    MemberSchemaFalls(sc, TARGET, Y);
    Shapes();
    hide Properties, ChoicesAllow, Admits, RefOf, Canonical, MemberSchema, NormalizeNode, InScope, Sound, TARGET, INNER;
    hide EMPTY, SETTLED, X, Y;
    hide WRITTEN, RETURNED;
    assert NormalizeMember(sc, TARGET, Y, EMPTY) == Some(SETTLED) by { InnerSupplies(sc); }
    assert NormalizeMember(sc, TARGET, X, SETTLED) == Some(SETTLED) by { OneSettles(sc); }
    PassesTwoOn(sc, TARGET, X, Y, WRITTEN, RETURNED);
  }

  lemma InnerSupplies(sc: Schema)
    requires Sound(sc) && InScope(sc, INNER)
    ensures Normalize(sc, INNER, EMPTY) == Some(SETTLED)
  {
    hide Normalize;
    InnerOnEmpty(sc);
  }

  lemma FreeNodeKeeps(sc: Schema, v: Json)
    requires Sound(sc) && InScope(sc, EMPTY) && v.Obj? && Canonical(v)
    ensures Normalize(sc, EMPTY, v) == Some(v)
  {
    FreeNodeFacts(v);
    NothingToFill(EMPTY, v.fields);
    hide Properties, ChoicesAllow, Admits, RefOf, Fill, MemberSchema, EMPTY, Canonical, Sound, InScope;
    forall k | k in v.fields
      ensures NormalizeMember(sc, EMPTY, k, v.fields[k]) == Some(v.fields[k])
    {
      assert MemberSchema(EMPTY, k) == Bool(true);
      assert Canonical(v.fields[k]) by { MembersAreCanonical(v, k); }
    }
    AdmittedObject(sc, EMPTY, v, v.fields, v);
  }

  lemma FreeNodeFacts(v: Json)
    ensures EMPTY.Obj? && Properties(EMPTY) == map[] && RefOf(EMPTY).None? && Admits(EMPTY) && ChoicesAllow(EMPTY, v)
    ensures forall k :: MemberSchema(EMPTY, k) == Bool(true)
  {
  }

  lemma MembersAreCanonical(v: Json, k: Text)
    requires v.Obj? && Canonical(v) && k in v.fields
    ensures Canonical(v.fields[k])
  {
  }

  lemma SiblingMembers()
    ensures MemberSchema(SIBLING, Y) == EMPTY_BY_DEFAULT && MemberSchema(SIBLING, X) == EMPTY
  {
    SiblingFields();
    NamesDiffer();
    hide SIBLING, X, Y;
  }

  lemma SiblingKeeps(sc: Schema)
    requires Sound(sc) && InScope(sc, SIBLING)
    ensures NormalizeNode(sc, SIBLING, RETURNED) == Some(RETURNED)
  {
    SiblingFacts();
    SiblingMembers();
    ValuesAreCanonical();
    NamesDiffer();
    MemberSchemaFalls(sc, SIBLING, X);
    MemberSchemaFalls(sc, SIBLING, Y);
    Shapes();
    hide Properties, ChoicesAllow, Admits, RefOf, Canonical, MemberSchema, NormalizeNode, InScope, Sound, SIBLING;
    hide EMPTY, EMPTY_BY_DEFAULT, SETTLED, X, Y;
    hide WRITTEN, RETURNED, Normalize;
    assert NormalizeMember(sc, SIBLING, X, SETTLED) == Some(SETTLED) by { FreeNodeKeeps(sc, SETTLED); }
    assert NormalizeMember(sc, SIBLING, Y, SETTLED) == Some(SETTLED) by { DefaultedKeeps(sc, SETTLED); }
    PassesTwoOn(sc, SIBLING, X, Y, RETURNED, RETURNED);
  }

  lemma SiblingReturns(sc: Schema)
    requires Sound(sc) && sc.root == SIBLING && InScope(sc, SIBLING)
    ensures Normalize(sc, SIBLING, WRITTEN) == Some(RETURNED) && WRITTEN != RETURNED
  {
    ReferenceResolves();
    SiblingIsMore();
    hide Resolve, NormalizeNode, TARGET, SIBLING, RETURNED, WRITTEN, InScope;
    ReferenceFalls(sc, SIBLING);
    TargetReturns(sc);
    SiblingKeeps(sc);
    ReturnedDiffers();
  }

  lemma SiblingIsMore()
    ensures SIBLING.Obj? && SIBLING.fields.Keys != {K_REF}
  {
    SiblingFields();
    KeywordsDiffer();
    hide SIBLING;
    assert K_DEFS in SIBLING.fields;
  }

  lemma ReturnedDiffers()
    ensures WRITTEN != RETURNED
  {
    NamesDiffer();
    assert WRITTEN.fields[Y] == EMPTY && RETURNED.fields[Y] == SETTLED;
    assert Z in SETTLED.fields && Z !in EMPTY.fields;
  }

  // The write at `/x`.

  lemma XIsNoPrototype()
    ensures !IsProto(X)
  {
    assert |X| == 1 && |Ascii("__proto__")| == 9;
  }

  lemma PlainWrite()
    ensures Set(BASE, [X], SETTLED) == Some(WRITTEN) && Get(RETURNED, [X]) == Some(SETTLED)
  {
    NamesDiffer();
    XIsNoPrototype();
    hide IsProto, EMPTY, SETTLED, X, Y;
    assert BASE.fields[X := SETTLED] == WRITTEN.fields;
    assert [X][1..] == [];
    assert HasChild(RETURNED, X) && Child(RETURNED, X) == SETTLED;
  }

  lemma SchemaAdmits(sc: Schema)
    requires Sound(sc) && sc.root == SIBLING && InScope(sc, SIBLING)
    ensures SchemaSet(sc, SIBLING, BASE, [X], SETTLED) == Some(WRITTEN)
  {
    SiblingDereferences(sc);
    TargetChild();
    PlainWrite();
    Shapes();
    hide SIBLING, TARGET, ObjectChildSchema, Set, WRITTEN, INNER, X, Y, EMPTY, SETTLED, BASE, Dereference, Sound;
    hide InScope;
  }

  lemma SiblingDereferences(sc: Schema)
    requires Sound(sc) && sc.root == SIBLING && InScope(sc, SIBLING)
    ensures Dereference(sc, SIBLING) == Some(TARGET)
  {
    ReferenceResolves();
    TargetChild();
    ReferenceFalls(sc, SIBLING);
    hide Resolve, SIBLING, TARGET, RefOf, Sound, InScope;
    assert Dereference(sc, TARGET) == Some(TARGET);
  }

  lemma TargetChild()
    ensures TARGET.Obj? && RefOf(TARGET).None? && ObjectChildSchema(TARGET, X).Some? && SIBLING.Obj?
  {
    TargetFields();
    TargetFacts();
    SiblingFields();
    assert INNER.Obj?;
    hide TARGET, INNER, SIBLING, X, RefOf;
  }

  lemma AxisTokens()
    ensures ProperPointer(AXIS.pointer) && Tokens(AXIS) == [X]
  {
    ParseUndoesFormat([X], false);
    hide Format, ParsePointer, X;
  }

  // The sweep has one combination.

  lemma OneCombination(mode: Mode, a: Axis, x: Json, base: Json)
    requires a.values == [x]
    ensures Proper([a]) && Product([a]) == 1
    ensures Combine(mode, [a], Some(base), 0) == Write(mode, base, Tokens(a), x)
    ensures var w := Write(mode, base, Tokens(a), x);
            w.Some? && Finish(mode, w.value).Some? ==>
                Combinations(mode, [a], base) == Some([Finish(mode, w.value).value])
  {
    hide Write, Finish, Tokens;
    var axes := [a];
    assert axes[1..] == [];
    assert Product(axes) == 1;
    assert Combine(mode, axes, Some(base), 0) == Write(mode, base, Tokens(a), x);
    var w := Write(mode, base, Tokens(a), x);
    if w.Some? && Finish(mode, w.value).Some? {
      assert At(mode, axes, Some(base), 0) == Finish(mode, w.value);
      assert AllDefined(mode, axes, base);
      assert Combinations(mode, axes, base).value == [Finish(mode, w.value).value];
    }
  }

  lemma SweepIsWellDeclared()
    ensures WellDeclared(SWEEP)
  {
    AxisTokens();
    ValuesAreCanonical();
    assert DistinctValues(AXIS.values);
    hide ProperPointer, Canonical, Format, SETTLED;
  }

  lemma SweepIsNormalized(sc: CheckedSchema)
    requires sc.root == SIBLING && InScope(sc, SIBLING)
    ensures NormalSampling(sc, BASE, SWEEP) == Ok(SWEEP)
  {
    AxisTokens();
    PlainWrite();
    hide SIBLING, Normalize, SchemaSet, Get, Tokens, WRITTEN, SETTLED, BASE, Format;
    SchemaAdmits(sc);
    SiblingReturns(sc);
    assert NormalValue(sc, BASE, [X], SETTLED) == Some(SETTLED);
    hide NormalValue;
    assert NormalAxis(sc, BASE, AXIS).values == AXIS.values;
    assert SWEEP.axes == [AXIS];
    assert NormalSampling(sc, BASE, SWEEP).value.axes == SWEEP.axes;
  }

  lemma SweepIsPlanned(sc: CheckedSchema, maxSamples: nat)
    requires sc.root == SIBLING && InScope(sc, SIBLING) && IsLimit(maxSamples)
    ensures Countable(SWEEP) && PlannedPayloads(sc, BASE, SWEEP, maxSamples) == Ok([Payload(RETURNED, None)])
    ensures !SweepIsStable(sc, BASE, SWEEP.axes)
  {
    AxisTokens();
    PlainWrite();
    hide SIBLING, Normalize, SchemaSet, Set, Tokens, WRITTEN, RETURNED, SETTLED, BASE, Format, Combinations, Combine;
    SchemaAdmits(sc);
    SiblingReturns(sc);
    OneCombination(Planned(sc), AXIS, SETTLED, BASE);
    OneCombination(Declared, AXIS, SETTLED, BASE);
    assert AxisAccepted(sc, BASE, AXIS);
    hide AxisAccepted;
    assert Combinations(Planned(sc), SWEEP.axes, BASE) == Some([RETURNED]);
    assert Pair([RETURNED], [None]) == [Payload(RETURNED, None)];
    assert Combine(Declared, SWEEP.axes, Some(BASE), 0) == Some(WRITTEN);
  }

  // The plan.

  lemma BaseIsReturned(sc: CheckedSchema)
    requires sc.root == SIBLING && InScope(sc, SIBLING)
    ensures Normalize(sc, SIBLING, EMPTY) == Some(BASE)
  {
    hide Normalize, SIBLING;
    ReferenceSiblingsMustOnlyCheck(sc);
  }

  lemma SweepIsReturned(hash: Hash, sc: CheckedSchema, maxSamples: nat)
    requires ProducesDigests(hash) && sc.root == SIBLING && InScope(sc, SIBLING) && IsLimit(maxSamples)
    ensures PlanUnder(hash, sc, CONFIGURATION, maxSamples).Ok?
    ensures var plan := PlanUnder(hash, sc, CONFIGURATION, maxSamples).value;
            plan.configuration == Configuration(false, BASE, SWEEP) && plan.sampleCount == 1
  {
    ValuesAreCanonical();
    SweepIsWellDeclared();
    Shapes();
    hide Canonical, SWEEP, BASE, RETURNED, SIBLING, Normalize, NormalSampling, PlannedPayloads, EMPTY, InScope;
    hide WellDeclared, ConfigurationJson;
    hide PlanUnder, SweepIsStable, Countable, NormalizedConfiguration, ProducesDigests, Digest, PayloadJson;
    hide BuildSamples;
    BaseIsReturned(sc);
    SweepIsNormalized(sc);
    SweepIsPlanned(sc, maxSamples);
    WrittenConfigurationIsRead(sc, Configuration(false, EMPTY, SWEEP), BASE, SWEEP);
    PlannerAnswers(hash, sc, CONFIGURATION, maxSamples);
  }

  /**
   The planner's own plan is refused: the schema supplies within the member that a sibling of its
   reference supplied.
   */
  lemma AcceptedSchemaBreaksAgreement(hash: Hash, maxSamples: int, limit: Option<int>)
    requires ProducesDigests(hash) && IsLimit(maxSamples) && (limit.Some? ==> IsLimit(limit.value))
    ensures ValidateSchemaProfile(SIBLING).Valid?
    ensures var plan := PlanExperiment(hash, CONFIGURATION, SIBLING, maxSamples);
            plan.Ok? && !AssertExperimentPlan(hash, PlanJson(plan.value), limit).Ok?
  {
    SiblingIsAccepted();
    var sc := ValidateSchemaProfile(SIBLING).schema;
    hide ValidateSchemaProfile, PlanUnder, AssertExperimentPlan, SIBLING, CONFIGURATION, SweepIsStable, ProducesDigests;
    hide BASE, PlanJson, AXIS;
    SweepIsReturned(hash, sc, maxSamples);
    SweepIsPlanned(sc, maxSamples);
    AgreementIsExact(hash, sc, CONFIGURATION, maxSamples, limit);
  }
}
