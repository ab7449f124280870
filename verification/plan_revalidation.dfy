/** The main theorems about plans. */
module PlanRevalidation {
  import opened CanonicalJson
  import opened CanonicalBytes
  import opened JsonPointer
  import opened Normalization
  import opened NormalizationLaws
  import opened NormalForms
  import opened SchemaValidation
  import opened Sampling
  import opened CartesianExpansion
  import opened ExpansionLaws
  import opened Planner
  import opened PlannerLaws
  import opened PlannedSweeps

  /** What a successful plan is made of. */
  lemma PlanParts(hash: Hash, sc: CheckedSchema, configuration: Json, maxSamples: nat)
      returns (declared: Declaration, payloads: seq<Payload>)
    requires PlanUnder(hash, sc, configuration, maxSamples).Ok?
    ensures var plan := PlanUnder(hash, sc, configuration, maxSamples).value;
            var c := plan.configuration;
            && WellDeclared(declared)
            && (exists parameters :: Normalize(sc, sc.root, parameters) == Some(c.parameters))
            && c.parameters.Obj?
            && NormalizedFrom(sc, c.parameters, declared, c.sampling)
            && Countable(c.sampling)
            && Payloads(Planned(sc), c.parameters, c.sampling) == Some(payloads)
            && (!c.sampling.Single? ==> SampleCount(c.sampling) <= maxSamples)
            && (c.visual ==> c.sampling.Single? && |payloads| == 1)
            && |payloads| <= maxSamples
            && BuildSamples(hash, payloads, []) == Ok(plan.samples)
            && Digest(hash, ConfigurationJson(c)) == Ok(plan.configurationDigest)
            && Digest(hash, SamplesJson(plan.samples)) == Ok(plan.samplePlanDigest)
            && plan.sampleCount == |plan.samples|
  {
    hide Normalize, Digest, BuildSamples, Payloads, SampleCount, AxisAccepted, NormalValue, Disjoint;
    var raw := ConfigurationRecord(configuration).value;
    ReadIsWellDeclared(raw[F_SAMPLING]);
    declared := ReadDeclaration(raw[F_SAMPLING]).value;
    var c := PlanUnder(hash, sc, configuration, maxSamples).value.configuration;
    payloads := PlannedPayloads(sc, c.parameters, c.sampling, maxSamples).value;
  }

  /** Exactly the configurations whose sweep, as plainly written, the planner leaves alone. */
  ghost predicate PlanIsStable(sc: CheckedSchema, c: Configuration) {
    c.sampling.Cartesian? ==> Proper(c.sampling.axes) && SweepIsStable(sc, c.parameters, c.sampling.axes)
  }

  /** The planner's payloads are those the revalidator recomputes from the configuration alone. */
  lemma PayloadsAgreeExactly(sc: CheckedSchema, base: Json, d: Declaration)
    requires Countable(d) && Payloads(Planned(sc), base, d).Some?
    ensures Payloads(Declared, base, d) == Payloads(Planned(sc), base, d)
       <==> (d.Cartesian? ==> SweepIsStable(sc, base, d.axes))
  {
    hide Combinations, SweepIsStable, Pair;
    if d.Cartesian? {
      CombinationsAgreeExactly(sc, d.axes, base);
      if Payloads(Declared, base, d) == Payloads(Planned(sc), base, d) {
        PairIsInjective(Combinations(Declared, d.axes, base).value, Combinations(Planned(sc), d.axes, base).value,
            Branches(d.branches));
      }
    }
  }

  /** Normalizing axis values cannot merge two of them without repeating a sample. */
  lemma NormalSamplingIsWellDeclared(sc: CheckedSchema, base: Json, declared: Declaration, d: Declaration)
    requires WellDeclared(declared) && NormalizedFrom(sc, base, declared, d) && Countable(d)
    requires Payloads(Declared, base, d).Some? && PairwiseDistinct(Payloads(Declared, base, d).value)
    ensures WellDeclared(d)
  {
    hide Combinations, Canonical, NormalValue, Disjoint, ProperPointer, Pair;
    if d.Cartesian? {
      NormalAxesAreCanonical(sc, base, declared, d);
      NormalAxesAreDisjoint(sc, base, declared, d);
      var cs := Combinations(Declared, d.axes, base).value;
      DistinctPairsDistinctCombinations(cs, Branches(d.branches));
      forall j | 0 <= j < |d.axes|
        ensures ProperAxis(d.axes[j])
      {
        DistinctCombinationsDistinctValues(d.axes, base, j);
      }
    }
  }

  lemma StablePlansAreAccepted(hash: Hash, sc: CheckedSchema, configuration: Json, maxSamples: nat, limit: Option<int>)
    requires ProducesDigests(hash) && IsLimit(maxSamples)
    requires PlanUnder(hash, sc, configuration, maxSamples).Ok?
    requires PlanIsStable(sc, PlanUnder(hash, sc, configuration, maxSamples).value.configuration)
    requires var plan := PlanUnder(hash, sc, configuration, maxSamples).value;
             limit.Some? ==> IsLimit(limit.value) && plan.sampleCount <= limit.value
    ensures var plan := PlanUnder(hash, sc, configuration, maxSamples).value;
            AssertExperimentPlan(hash, PlanJson(plan), limit) == Ok(plan)
  {
    hide PlanUnder, Normalize, Payloads, BuildSamples, WellDeclared, SampleCount, NormalSampling, Countable;
    hide SweepIsStable;
    hide Digest, ConfigurationJson, SamplesJson, CheckSamples, AssertExperimentPlan, PlanJson, HexDigest, Canonical;
    var plan := PlanUnder(hash, sc, configuration, maxSamples).value;
    var declared, payloads := PlanParts(hash, sc, configuration, maxSamples);
    var c := plan.configuration;
    PayloadsAgreeExactly(sc, c.parameters, c.sampling);
    BuiltPayloadsAreDistinct(hash, payloads);
    NormalSamplingIsWellDeclared(sc, c.parameters, declared, c.sampling);
    BuiltSamples(hash, payloads, []);
    PayloadsAreReadable(c.parameters, c.sampling);
    SamplesAreReadBack(hash, payloads, [], plan.samples);
    CountIsPositive(c.sampling);
    DigestedIsCanonical(hash, ConfigurationJson(c));
    DigestedIsCanonical(hash, SamplesJson(plan.samples));
    SamplesCount(plan.samples);
    AcceptedByParts(hash, plan, payloads, limit);
  }

  /**
   The planner and the revalidator, which sees neither the schema nor the defaults, agree on
   a plan exactly when every combination of its sweep, as plainly written, is its own normal
   form. Otherwise the revalidator refuses the plan.
   */
  lemma AgreementIsExact(hash: Hash, sc: CheckedSchema, configuration: Json, maxSamples: nat, limit: Option<int>)
    requires ProducesDigests(hash) && IsLimit(maxSamples)
    requires PlanUnder(hash, sc, configuration, maxSamples).Ok?
    requires var plan := PlanUnder(hash, sc, configuration, maxSamples).value;
             limit.Some? ==> IsLimit(limit.value) && plan.sampleCount <= limit.value
    ensures var plan := PlanUnder(hash, sc, configuration, maxSamples).value;
            var r := AssertExperimentPlan(hash, PlanJson(plan), limit);
            && (r.Ok? <==> PlanIsStable(sc, plan.configuration))
            && (r.Ok? ==> r == Ok(plan))
  {
    hide PlanUnder, Normalize, Payloads, BuildSamples, WellDeclared, NormalSampling, Countable, SweepIsStable;
    hide Digest, ConfigurationJson, SamplesJson, AssertExperimentPlan, PlanJson, HexDigest, Canonical, SampleCount;
    var plan := PlanUnder(hash, sc, configuration, maxSamples).value;
    var r := AssertExperimentPlan(hash, PlanJson(plan), limit);
    if PlanIsStable(sc, plan.configuration) {
      StablePlansAreAccepted(hash, sc, configuration, maxSamples, limit);
    }
    if r.Ok? {
      AcceptedIsCanonicalCopy(hash, PlanJson(plan), limit);
      PlanJsonIsInjective(plan, r.value);
      var declared, payloads := PlanParts(hash, sc, configuration, maxSamples);
      var c := plan.configuration;
      SamplesDecidePayloads(hash, payloads, Payloads(Declared, c.parameters, c.sampling).value, plan.samples);
      PayloadsAgreeExactly(sc, c.parameters, c.sampling);
      CountableIsProper(c.sampling);
    }
  }

  /** Exactly the configurations in whose sweep, as plainly written, no default is lacking. */
  ghost predicate PlanIsFilled(sc: CheckedSchema, c: Configuration) {
    c.sampling.Cartesian? ==> Proper(c.sampling.axes) && SweepIsFilled(sc, c.parameters, c.sampling.axes)
  }

  /** The same condition at the branch that decides it: the one that fills in defaults. */
  lemma AgreementExactlyWhenFilled(hash: Hash, sc: CheckedSchema, configuration: Json, maxSamples: nat,
      limit: Option<int>)
    requires ProducesDigests(hash) && IsLimit(maxSamples)
    requires PlanUnder(hash, sc, configuration, maxSamples).Ok?
    requires var plan := PlanUnder(hash, sc, configuration, maxSamples).value;
             limit.Some? ==> IsLimit(limit.value) && plan.sampleCount <= limit.value
    ensures var plan := PlanUnder(hash, sc, configuration, maxSamples).value;
            AssertExperimentPlan(hash, PlanJson(plan), limit).Ok? <==> PlanIsFilled(sc, plan.configuration)
  {
    hide PlanUnder, Normalize, Combinations, BuildSamples, WellDeclared, NormalSampling, SweepIsStable, SweepIsFilled;
    hide Digest, ConfigurationJson, SamplesJson, AssertExperimentPlan, PlanJson, Canonical, SampleCount, Pair;
    AgreementIsExact(hash, sc, configuration, maxSamples, limit);
    var declared, payloads := PlanParts(hash, sc, configuration, maxSamples);
    var c := PlanUnder(hash, sc, configuration, maxSamples).value.configuration;
    if c.sampling.Cartesian? {
      StableExactlyWhenFilled(sc, c.sampling.axes, c.parameters);
    }
  }

  lemma CountableIsProper(d: Declaration)
    requires Countable(d)
    ensures d.Cartesian? ==> Proper(d.axes)
  {
  }

  lemma SamplesDecidePayloads(hash: Hash, a: seq<Payload>, b: seq<Payload>, samples: seq<Sample>)
    requires BuildSamples(hash, a, []) == Ok(samples) && BuildSamples(hash, b, []) == Ok(samples)
    ensures a == b
  {
    hide BuildSamples, Digest;
    BuiltSamples(hash, a, []);
    BuiltSamples(hash, b, []);
  }

  /** A guard on the schema: plans agree where beside references stand only checks, and sweeps aside always. */
  lemma RevalidationAcceptsPlans(hash: Hash, sc: CheckedSchema, configuration: Json, maxSamples: nat,
      limit: Option<int>)
    requires ProducesDigests(hash) && IsLimit(maxSamples)
    requires PlanUnder(hash, sc, configuration, maxSamples).Ok?
    requires PlanUnder(hash, sc, configuration, maxSamples).value.configuration.sampling.Cartesian? ==>
             ReferencesOnlyChecked(sc)
    requires var plan := PlanUnder(hash, sc, configuration, maxSamples).value;
             limit.Some? ==> IsLimit(limit.value) && plan.sampleCount <= limit.value
    ensures var plan := PlanUnder(hash, sc, configuration, maxSamples).value;
            AssertExperimentPlan(hash, PlanJson(plan), limit) == Ok(plan)
  {
    hide PlanUnder, Normalize, Filled, Payloads, BuildSamples, WellDeclared, SampleCount, NormalSampling, SweepIsStable;
    hide Digest, ConfigurationJson, SamplesJson, AssertExperimentPlan, PlanJson, ReferencesOnlyChecked, Canonical;
    var plan := PlanUnder(hash, sc, configuration, maxSamples).value;
    var declared, payloads := PlanParts(hash, sc, configuration, maxSamples);
    var c := plan.configuration;
    if c.sampling.Cartesian? {
      var parameters :| Normalize(sc, sc.root, parameters) == Some(c.parameters);
      NormalizedIsFilled(sc, sc.root, parameters);
      NormalizedIsCanonical(sc, sc.root, parameters);
      PlannedSweepIsStable(sc, c.parameters, declared, c.sampling, payloads);
    }
    StablePlansAreAccepted(hash, sc, configuration, maxSamples, limit);
  }

  lemma PlannedSweepIsStable(sc: CheckedSchema, base: Json, declared: Declaration, d: Declaration,
      payloads: seq<Payload>)
    requires ReferencesOnlyChecked(sc) && Canonical(base) && Filled(sc, sc.root, base)
    requires WellDeclared(declared) && NormalizedFrom(sc, base, declared, d) && d.Cartesian? && Countable(d)
    requires Payloads(Planned(sc), base, d) == Some(payloads)
    ensures SweepIsStable(sc, base, d.axes)
  {
    hide Combinations, Filled, SweepIsStable;
    NormalAxesFit(sc, base, declared, d);
    NormalAxesAreDisjoint(sc, base, declared, d);
    PlannedIsDeclared(sc, d.axes, base);
  }

  /**
   A guard on values, under any schema: the normalized base and each axis value written alone
   into it are their own normal forms.
   */
  lemma NormalWritesAreAccepted(hash: Hash, sc: CheckedSchema, configuration: Json, maxSamples: nat, limit: Option<int>)
    requires ProducesDigests(hash) && IsLimit(maxSamples)
    requires PlanUnder(hash, sc, configuration, maxSamples).Ok?
    requires var c := PlanUnder(hash, sc, configuration, maxSamples).value.configuration;
             c.sampling.Cartesian? ==> SingleWritesAreNormal(sc, c.parameters, c.sampling.axes)
    requires var plan := PlanUnder(hash, sc, configuration, maxSamples).value;
             limit.Some? ==> IsLimit(limit.value) && plan.sampleCount <= limit.value
    ensures var plan := PlanUnder(hash, sc, configuration, maxSamples).value;
            AssertExperimentPlan(hash, PlanJson(plan), limit) == Ok(plan)
  {
    hide PlanUnder, Normalize, Combinations, BuildSamples, WellDeclared, SampleCount, NormalSampling, SweepIsStable;
    hide SingleWritesAreNormal;
    hide Digest, ConfigurationJson, SamplesJson, AssertExperimentPlan, PlanJson, Canonical, Pair;
    var plan := PlanUnder(hash, sc, configuration, maxSamples).value;
    var declared, payloads := PlanParts(hash, sc, configuration, maxSamples);
    var c := plan.configuration;
    if c.sampling.Cartesian? {
      NormalAxesAreDisjoint(sc, c.parameters, declared, c.sampling);
      NormalWritesSweepStably(sc, c.sampling.axes, c.parameters);
    }
    StablePlansAreAccepted(hash, sc, configuration, maxSamples, limit);
  }

  lemma SamplesCount(samples: seq<Sample>)
    ensures SamplesJson(samples).Arr? && |SamplesJson(samples).items| == |samples|
  {
  }

  lemma CountIsPositive(d: Declaration)
    requires WellDeclared(d) && Countable(d)
    ensures SampleCount(d) > 0
  {
    if d.Cartesian? {
      Positive(Product(d.axes), |Branches(d.branches)|);
    }
  }

  lemma DigestedIsCanonical(hash: Hash, v: Json)
    requires ProducesDigests(hash) && Digest(hash, v).Ok?
    ensures Canonical(v) && HexDigest(Digest(hash, v).value)
  {
  }

  /** The parts of a plan fit together. */
  predicate PlanFits(hash: Hash, plan: Plan, payloads: seq<Payload>)
    requires Countable(plan.configuration.sampling)
  {
    var c := plan.configuration;
    && Payloads(Declared, c.parameters, c.sampling) == Some(payloads)
    && |payloads| == SampleCount(c.sampling) == plan.sampleCount == |plan.samples|
    && IsLimit(plan.sampleCount)
    && (c.visual ==> c.sampling.Single?)
    && Digest(hash, ConfigurationJson(c)) == Ok(plan.configurationDigest) && HexDigest(plan.configurationDigest)
    && Digest(hash, SamplesJson(plan.samples)) == Ok(plan.samplePlanDigest) && HexDigest(plan.samplePlanDigest)
    && |SamplesJson(plan.samples).items| == |payloads|
    && CheckSamples(hash, SamplesJson(plan.samples).items, payloads, []) == Ok(plan.samples)
  }

  lemma ReadPlanIsAccepted(hash: Hash, input: Json, plan: Plan, payloads: seq<Payload>, limit: Option<int>)
    requires Canonical(input) && PlanRead(input, plan) && Countable(plan.configuration.sampling)
    requires PlanFits(hash, plan, payloads)
    requires CheckedConfiguration(ConfigurationJson(plan.configuration)) == Ok(plan.configuration)
    requires limit.Some? ==> IsLimit(limit.value) && plan.sampleCount <= limit.value
    ensures AssertExperimentPlan(hash, input, limit) == Ok(plan)
  {
    hide Payloads, WellDeclared, HexDigest, CheckSamples, ConfigurationJson, CheckedConfiguration, Canonical;
    hide SamplesJson, Digest;
    hide PLAN_KEYS, F_CONFIGURATION, F_CONFIGURATION_DIGEST, F_SAMPLE_COUNT, F_SAMPLES, F_PLAN_DIGEST, IsRecord;
  }

  /** A plan whose parts fit together is accepted. */
  lemma AcceptedByParts(hash: Hash, plan: Plan, payloads: seq<Payload>, limit: Option<int>)
    requires ProducesDigests(hash) && plan.configuration.parameters.Obj?
    requires WellDeclared(plan.configuration.sampling) && Countable(plan.configuration.sampling)
    requires PlanFits(hash, plan, payloads)
    requires limit.Some? ==> IsLimit(limit.value) && plan.sampleCount <= limit.value
    ensures AssertExperimentPlan(hash, PlanJson(plan), limit) == Ok(plan)
  {
    DigestedIsCanonical(hash, ConfigurationJson(plan.configuration));
    DigestedIsCanonical(hash, SamplesJson(plan.samples));
    hide AssertExperimentPlan, PlanJson, ConfigurationJson, SamplesJson, CheckedConfiguration, Canonical, Payloads;
    hide CheckSamples, WellDeclared, HexDigest, PlanRead;
    ConfigurationIsReadBack(plan.configuration);
    PlanIsCanonical(plan);
    PlanFields(plan);
    ReadPlanIsAccepted(hash, PlanJson(plan), plan, payloads, limit);
  }

  /** The agreement for the planner's entry point. */
  lemma PlansAreAccepted(hash: Hash, configuration: Json, inputSchema: Json, maxSamples: int, limit: Option<int>)
    requires ProducesDigests(hash) && PlanExperiment(hash, configuration, inputSchema, maxSamples).Ok?
    requires var plan := PlanExperiment(hash, configuration, inputSchema, maxSamples).value;
             limit.Some? ==> IsLimit(limit.value) && plan.sampleCount <= limit.value
    ensures ValidateSchemaProfile(inputSchema).Valid?
    ensures var sc := ValidateSchemaProfile(inputSchema).schema;
            var plan := PlanExperiment(hash, configuration, inputSchema, maxSamples).value;
            var r := AssertExperimentPlan(hash, PlanJson(plan), limit);
            && (r == Ok(plan) <==> PlanIsStable(sc, plan.configuration))
            && (ReferencesOnlyChecked(sc) || !plan.configuration.sampling.Cartesian? ==> r == Ok(plan))
  {
    hide PlanUnder, AssertExperimentPlan, ReferencesOnlyChecked, PlanIsStable, PlanJson;
    var sc := ValidateSchemaProfile(inputSchema).schema;
    var plan := PlanExperiment(hash, configuration, inputSchema, maxSamples).value;
    assert plan == PlanUnder(hash, sc, configuration, maxSamples).value;
    AgreementIsExact(hash, sc, configuration, maxSamples, limit);
    if ReferencesOnlyChecked(sc) || !plan.configuration.sampling.Cartesian? {
      RevalidationAcceptsPlans(hash, sc, configuration, maxSamples, limit);
    }
  }

  // Exactness.

  /** The samples are determined by the expected payloads, and so is the JSON they were read from. */
  lemma {:induction false} CheckedSamplesAreExact(hash: Hash, items: seq<Json>, expected: seq<Payload>,
      done: seq<Sample>)
    requires |items| == |expected| && |done| <= |items|
    requires CheckSamples(hash, items, expected, done).Ok?
    requires forall i | 0 <= i < |done| :: items[i] == SampleJson(done[i])
    ensures var samples := CheckSamples(hash, items, expected, done).value;
            && Arr(items) == SamplesJson(samples)
            && BuildSamples(hash, expected, done) == Ok(samples)
    decreases |items| - |done|
  {
    hide CheckSample, Digest, SampleJson, PayloadJson;
    if |done| < |items| {
      CheckedSampleIsExact(hash, items[|done|], expected[|done|], done);
      var sample := CheckSample(hash, items[|done|], expected[|done|], done).value;
      CheckedSamplesAreExact(hash, items, expected, done + [sample]);
    }
  }

  lemma CheckedSampleIsExact(hash: Hash, item: Json, expected: Payload, done: seq<Sample>)
    requires CheckSample(hash, item, expected, done).Ok?
    ensures var sample := CheckSample(hash, item, expected, done).value;
            && item == SampleJson(sample)
            && Digest(hash, PayloadJson(expected)) == Ok(sample.id)
            && sample == Sample(|done|, sample.id, expected)
            && !exists s | s in done :: s.id == sample.id
  {
    hide HexDigest, Canonical;
    SampleKeysDiffer();
    var sample := CheckSample(hash, item, expected, done).value;
    assert item.fields == SampleJson(sample).fields;
  }

  /** An accepted input is exactly the JSON of the plan that is returned. */
  lemma AcceptedIsCanonicalCopy(hash: Hash, input: Json, limit: Option<int>)
    requires AssertExperimentPlan(hash, input, limit).Ok?
    ensures var p := AssertExperimentPlan(hash, input, limit).value;
            && input == PlanJson(p)
            && WellDeclared(p.configuration.sampling) && Countable(p.configuration.sampling)
            && Payloads(Declared, p.configuration.parameters, p.configuration.sampling).Some?
            && BuildSamples(hash, Payloads(Declared, p.configuration.parameters, p.configuration.sampling).value, [])
               == Ok(p.samples)
            && Digest(hash, ConfigurationJson(p.configuration)) == Ok(p.configurationDigest)
            && Digest(hash, SamplesJson(p.samples)) == Ok(p.samplePlanDigest)
            && p.sampleCount == SampleCount(p.configuration.sampling)
  {
    hide HexDigest, Canonical, Payloads, Digest, SamplesJson, SampleCount, CheckedConfiguration, BuildSamples;
    hide ConfigurationJson;
    PlanKeysDiffer();
    var p := AssertExperimentPlan(hash, input, limit).value;
    var expected := Payloads(Declared, p.configuration.parameters, p.configuration.sampling).value;
    CheckedSamplesAreExact(hash, input.fields[F_SAMPLES].items, expected, []);
    DeclaredIsCountable(p.configuration.sampling);
    assert input.fields == PlanJson(p).fields;
  }

  /** Two accepted plans with the same configuration are equal, byte for byte. */
  lemma RevalidationIsExact(hash: Hash, a: Json, b: Json, limitA: Option<int>, limitB: Option<int>)
    requires AssertExperimentPlan(hash, a, limitA).Ok? && AssertExperimentPlan(hash, b, limitB).Ok?
    requires AssertExperimentPlan(hash, a, limitA).value.configuration
             == AssertExperimentPlan(hash, b, limitB).value.configuration
    ensures a == b && AssertExperimentPlan(hash, a, limitA) == AssertExperimentPlan(hash, b, limitB)
  {
    hide AssertExperimentPlan, Payloads, Digest, SamplesJson, SampleCount, ConfigurationJson, BuildSamples, PlanJson;
    AcceptedIsCanonicalCopy(hash, a, limitA);
    AcceptedIsCanonicalCopy(hash, b, limitB);
  }

  // Distinctness and counting.

  /** Combination `i`, read at the pointers of the axes and everywhere apart from them. */
  ghost predicate HoldsDigits(axes: seq<Axis>, parameters: Json, c: Json, i: nat)
    requires Proper(axes) && i < Product(axes)
  {
    && (forall j | 0 <= j < |axes| && !EndsAtPrototype(Tokens(axes[j])) ::
          Get(c, Tokens(axes[j])) == Some(axes[j].values[Digit(axes, i, j)]))
    && (forall q | Apart(axes, q) :: Get(c, q) == Get(parameters, q))
  }

  lemma CombinationDigits(parameters: Json, axes: seq<Axis>, i: nat)
    requires Proper(axes) && Disjoint(axes) && Combinations(Declared, axes, parameters).Some? && i < Product(axes)
    ensures var cs := Combinations(Declared, axes, parameters).value;
            |cs| == Product(axes) && HoldsDigits(axes, parameters, cs[i], i)
  {
    hide Combine, Tokens, EndsAtPrototype, Disjoint, Get, Digit, Apart, Combinations;
    var cs := Combinations(Declared, axes, parameters).value;
    DefinedCombinations(axes, parameters);
    assert Combine(Declared, axes, Some(parameters), i) == Some(cs[i]);
    forall j | 0 <= j < |axes| && !EndsAtPrototype(Tokens(axes[j]))
      ensures Get(cs[i], Tokens(axes[j])) == Some(axes[j].values[Digit(axes, i, j)])
    {
      SweepReadsDigits(axes, parameters, i, j);
    }
    forall q | Apart(axes, q)
      ensures Get(cs[i], q) == Get(parameters, q)
    {
      SweepKeepsTheRest(axes, parameters, i, q);
    }
  }

  /** Every payload of a sweep: combination `i` with seed `r`, seeds fastest. */
  lemma PayloadDigits(parameters: Json, axes: seq<Axis>, branches: Option<seq<int>>, i: nat, r: nat)
    requires Proper(axes) && Disjoint(axes) && Countable(Cartesian(axes, branches))
    requires Payloads(Declared, parameters, Cartesian(axes, branches)).Some?
    requires i < Product(axes) && r < |Branches(branches)|
    ensures var payloads := Payloads(Declared, parameters, Cartesian(axes, branches)).value;
            var k := i * |Branches(branches)| + r;
            && |payloads| == Product(axes) * |Branches(branches)| && k < |payloads|
            && payloads[k].seed == Branches(branches)[r]
            && HoldsDigits(axes, parameters, payloads[k].parameters, i)
  {
    hide Proper, Disjoint, Combinations, HoldsDigits, Product, Pair;
    CombinationDigits(parameters, axes, i);
    PairAt(Combinations(Declared, axes, parameters).value, Branches(branches), i, r);
  }

  /** Every axis that assigns to a prototype has one value; other kinds of sampling have no axes. */
  predicate NoPrototypeSweep(d: Declaration) {
    d.Cartesian? ==> PrototypeAxesAreSingle(d.axes)
  }

  /** The expected payloads are pairwise different exactly when no axis sweeps a prototype. */
  lemma PayloadsAreDistinct(parameters: Json, d: Declaration)
    requires WellDeclared(d) && Countable(d) && Payloads(Declared, parameters, d).Some?
    ensures PairwiseDistinct(Payloads(Declared, parameters, d).value) <==> NoPrototypeSweep(d)
  {
    hide Combinations, PrototypeAxesAreSingle, Pair, Disjoint;
    if d.Cartesian? {
      var cs, seeds := Combinations(Declared, d.axes, parameters).value, Branches(d.branches);
      forall j | 0 <= j < |d.axes|
        ensures DistinctValues(d.axes[j].values)
      {
        assert ProperAxis(d.axes[j]);
      }
      CombinationsAreDistinct(d.axes, parameters);
      assert PairwiseDistinct(seeds);
      if PairwiseDistinct(cs) {
        DistinctCombinationsDistinctPairs(cs, seeds);
      }
      if PairwiseDistinct(Pair(cs, seeds)) {
        DistinctPairsDistinctCombinations(cs, seeds);
      }
    }
  }

  const PROTOTYPE: Text := Ascii("__proto__")

  /** `/__proto__` over two scalars. */
  const PROTOTYPE_AXIS: Axis := Axis(Format([PROTOTYPE]), [Bool(false), Bool(true)])

  lemma TwoCombinations(a: Axis, base: Json)
    requires |a.values| == 2 && Canonical(base)
    requires forall k | 0 <= k < 2 :: Set(base, Tokens(a), a.values[k]) == Some(base)
    ensures Proper([a]) && Combinations(Declared, [a], base) == Some([base, base])
  {
    hide Set, Tokens, Canonical;
    var axes := [a];
    assert axes[1..] == [];
    assert Product([]) == 1 && Product(axes) == 2;
    forall i | 0 <= i < 2
      ensures At(Declared, axes, Some(base), i) == Some(base)
    {
      DigitBounds(i, 2, 1);
      assert i / 1 == i && i % 1 == 0;
      assert Write(Declared, base, Tokens(a), a.values[i]) == Some(base);
      assert Combine(Declared, axes, Some(base), i) == Combine(Declared, [], Some(base), 0) == Some(base);
    }
    assert Combinations(Declared, axes, base).value == [base, base];
  }

  lemma PrototypeAxisIsProper()
    ensures ProperAxis(PROTOTYPE_AXIS) && Tokens(PROTOTYPE_AXIS) == [PROTOTYPE]
    ensures WellDeclared(Cartesian([PROTOTYPE_AXIS], None))
  {
    assert Canonical(Bool(false)) && Canonical(Bool(true));
    hide Format, ParsePointer, Canonical, PROTOTYPE;
    ParseUndoesFormat([PROTOTYPE], false);
    assert DistinctValues(PROTOTYPE_AXIS.values);
  }

  /**
   Such a sweep is well declared, and both assignments do nothing: its expected payloads
   repeat, and the revalidator accepts no plan for it.
   */
  lemma PrototypeSweepRepeats(hash: Hash, parameters: Json)
    requires parameters.Obj? && Canonical(parameters)
    ensures var d := Cartesian([PROTOTYPE_AXIS], None);
            && WellDeclared(d) && Countable(d)
            && Payloads(Declared, parameters, d) == Some([Payload(parameters, None), Payload(parameters, None)])
            && !BuildSamples(hash, Payloads(Declared, parameters, d).value, []).Ok?
            && forall input, limit | AssertExperimentPlan(hash, input, limit).Ok? ::
                 AssertExperimentPlan(hash, input, limit).value.configuration.sampling != d
  {
    PrototypeAxisIsProper();
    PrototypeWrites(parameters);
    assert |PROTOTYPE_AXIS.values| == 2 && EndsAtPrototype([PROTOTYPE]);
    hide Canonical, BuildSamples, PROTOTYPE_AXIS, ProperAxis, WellDeclared, Combinations, Tokens, Set;
    hide AssertExperimentPlan, EndsAtPrototype;
    TwoCombinations(PROTOTYPE_AXIS, parameters);
    PairOfTwo(parameters);
    hide Pair;
    var payloads := [Payload(parameters, None), Payload(parameters, None)];
    assert Payloads(Declared, parameters, Cartesian([PROTOTYPE_AXIS], None)) == Some(payloads);
    RepetitionIsRefused(hash, payloads);
    forall input, limit | AssertExperimentPlan(hash, input, limit).Ok?
      ensures AssertExperimentPlan(hash, input, limit).value.configuration.sampling != Cartesian([PROTOTYPE_AXIS], None)
    {
      AcceptedSweepsAvoidPrototype(hash, input, limit);
    }
  }

  /** The revalidator accepts no sweep of a prototype over several values. */
  lemma AcceptedSweepsAvoidPrototype(hash: Hash, input: Json, limit: Option<int>)
    requires AssertExperimentPlan(hash, input, limit).Ok?
    ensures NoPrototypeSweep(AssertExperimentPlan(hash, input, limit).value.configuration.sampling)
  {
    hide AssertExperimentPlan, Payloads, Digest, SamplesJson, SampleCount, ConfigurationJson, BuildSamples, PlanJson;
    hide NoPrototypeSweep;
    hide WellDeclared, Countable;
    AcceptedIsCanonicalCopy(hash, input, limit);
    var c := AssertExperimentPlan(hash, input, limit).value.configuration;
    BuiltPayloadsAreDistinct(hash, Payloads(Declared, c.parameters, c.sampling).value);
    PayloadsAreDistinct(c.parameters, c.sampling);
  }

  lemma PairOfTwo(v: Json)
    ensures Pair([v, v], [None]) == [Payload(v, None), Payload(v, None)]
  {
  }

  lemma RepetitionIsRefused(hash: Hash, payloads: seq<Payload>)
    requires |payloads| == 2 && payloads[0] == payloads[1]
    ensures !BuildSamples(hash, payloads, []).Ok?
  {
    hide BuildSamples;
    if BuildSamples(hash, payloads, []).Ok? {
      BuiltPayloadsAreDistinct(hash, payloads);
    }
  }

  lemma PrototypeWrites(parameters: Json)
    requires parameters.Obj?
    ensures forall k | 0 <= k < |PROTOTYPE_AXIS.values| ::
            Set(parameters, [PROTOTYPE], PROTOTYPE_AXIS.values[k]) == Some(parameters)
  {
    assert IsProto(PROTOTYPE);
    hide IsProto, PROTOTYPE, Format;
  }

  /** No two different payloads of the list share a digest. */
  ghost predicate NoCollision(hash: Hash, payloads: seq<Payload>) {
    forall i, k | 0 <= i < |payloads| && 0 <= k < |payloads| ::
      Digest(hash, PayloadJson(payloads[i])) == Digest(hash, PayloadJson(payloads[k])) ==> payloads[i] == payloads[k]
  }

  ghost predicate AllEncodable(hash: Hash, payloads: seq<Payload>) {
    forall i | 0 <= i < |payloads| :: Digest(hash, PayloadJson(payloads[i])).Ok?
  }

  /** Barring a collision, the revalidator's duplicate-identity check refuses nothing but sweeps of a prototype. */
  lemma DuplicatesOnlyByCollision(hash: Hash, parameters: Json, d: Declaration)
    requires WellDeclared(d) && Countable(d) && Payloads(Declared, parameters, d).Some?
    requires var payloads := Payloads(Declared, parameters, d).value;
             AllEncodable(hash, payloads) && NoCollision(hash, payloads)
    ensures BuildSamples(hash, Payloads(Declared, parameters, d).value, []).Ok? <==> NoPrototypeSweep(d)
  {
    hide Payloads, Digest, PayloadJson, WellDeclared, NoPrototypeSweep, BuildSamples;
    var payloads := Payloads(Declared, parameters, d).value;
    PayloadsAreDistinct(parameters, d);
    if PairwiseDistinct(payloads) {
      DistinctPayloadsBuild(hash, payloads, []);
    }
    if BuildSamples(hash, payloads, []).Ok? {
      BuiltPayloadsAreDistinct(hash, payloads);
    }
  }

  lemma {:induction false} DistinctPayloadsBuild(hash: Hash, payloads: seq<Payload>, done: seq<Sample>)
    requires |done| <= |payloads| && PairwiseDistinct(payloads) && AllEncodable(hash, payloads)
    requires NoCollision(hash, payloads)
    requires forall i | 0 <= i < |done| :: Digest(hash, PayloadJson(payloads[i])) == Ok(done[i].id)
    ensures BuildSamples(hash, payloads, done).Ok?
    decreases |payloads| - |done|
  {
    hide Digest, PayloadJson;
    if |done| < |payloads| {
      var id := Digest(hash, PayloadJson(payloads[|done|]));
      assert id.Ok?;
      DistinctPayloadsBuild(hash, payloads, done + [Sample(|done|, id.value, payloads[|done|])]);
    }
  }
}
