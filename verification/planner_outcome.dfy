/** What the planner answers, refusals included. */
module PlannerOutcome {
  import opened CanonicalJson
  import opened CanonicalBytes
  import opened JsonPointer
  import opened Normalization
  import opened NormalizationLaws
  import opened NormalForms
  import opened SchemaValidation
  import opened Sampling
  import opened CartesianExpansion
  import opened ExpansionLaws
  import opened Planner
  import opened PlannerLaws
  import opened PlanEncoding
  import opened PlannedSweeps
  import opened PlanRevalidation

  /** The planner up to the normalized configuration, before it expands anything. */
  function NormalizedConfiguration(sc: CheckedSchema, configuration: Json): Result<Configuration> {
    var raw :- ConfigurationRecord(configuration);
    match Normalize(sc, sc.root, raw[F_PARAMETERS])
    case None => Fail(InvalidSamplePlan)
    case Some(base) =>
      if !base.Obj? then Fail(InvalidSamplePlan)
      else
        var declared :- ReadDeclaration(raw[F_SAMPLING]);
        var sampling :- NormalSampling(sc, base, declared);
        Ok(Configuration(raw[F_RUN_KIND] == Str(V_VISUAL), base, sampling))
  }

  /** Where a normalized configuration comes from. */
  lemma NormalizedParts(sc: CheckedSchema, configuration: Json) returns (parameters: Json, declared: Declaration)
    requires NormalizedConfiguration(sc, configuration).Ok?
    ensures var c := NormalizedConfiguration(sc, configuration).value;
            && Normalize(sc, sc.root, parameters) == Some(c.parameters)
            && Canonical(c.parameters)
            && WellDeclared(declared)
            && NormalizedFrom(sc, c.parameters, declared, c.sampling)
            && Countable(c.sampling)
  {
    hide Normalize, NormalSampling, ReadDeclaration, Canonical, WellDeclared, Countable;
    var raw := ConfigurationRecord(configuration).value;
    parameters := raw[F_PARAMETERS];
    declared := ReadDeclaration(raw[F_SAMPLING]).value;
    ReadIsWellDeclared(raw[F_SAMPLING]);
    NormalizedIsCanonical(sc, sc.root, parameters);
    var c := NormalizedConfiguration(sc, configuration).value;
    NormalizedIsCountable(sc, c.parameters, declared, c.sampling);
  }

  lemma NormalizedIsCountable(sc: CheckedSchema, base: Json, declared: Declaration, d: Declaration)
    requires WellDeclared(declared) && NormalizedFrom(sc, base, declared, d)
    ensures Countable(d) && (d.Cartesian? <==> declared.Cartesian?) && (!d.Cartesian? ==> d == declared)
  {
    hide NormalValue, Disjoint, ProperPointer;
    if declared.Cartesian? {
      NormalAxesAreDisjoint(sc, base, declared, d);
    }
  }

  /** The planner reads the JSON of a well-declared configuration as that configuration. */
  lemma WrittenConfigurationIsRead(sc: CheckedSchema, c: Configuration, base: Json, d: Declaration)
    requires WellDeclared(c.sampling) && c.parameters.Obj? && Canonical(c.parameters)
    requires Normalize(sc, sc.root, c.parameters) == Some(base) && base.Obj?
    requires NormalSampling(sc, base, c.sampling) == Ok(d)
    ensures NormalizedConfiguration(sc, ConfigurationJson(c)) == Ok(Configuration(c.visual, base, d))
  {
    ConfigurationFields(c);
    ConfigurationKeysDiffer();
    ReadUndoesWrite(c.sampling);
    hide Canonical, DeclarationJson, ReadDeclaration, WellDeclared, ConfigurationJson, CONFIGURATION_KEYS, Normalize;
    hide NormalSampling;
    hide F_VERSION, F_RUN_KIND, F_PARAMETERS, F_SAMPLING, V_BATCH, V_VISUAL;
  }

  // Normalized sweeps avoid the prototype, and can be encoded.

  /** An axis is read back at its pointer, where canonical JSON has no prototype and no lone surrogate. */
  lemma NormalAxisIsHarmless(sc: CheckedSchema, base: Json, declared: Declaration, d: Declaration, j: nat)
    requires NormalizedFrom(sc, base, declared, d) && d.Cartesian? && j < |d.axes| && d.axes[j].values != []
    ensures !EndsAtPrototype(Tokens(d.axes[j]))
    ensures ProperPointer(d.axes[j].pointer) ==> WellFormed(d.axes[j].pointer)
  {
    hide NormalizedFrom, Normalize, SchemaSet, Get, Tokens, WellFormed, IsProto;
    var tokens := Tokens(d.axes[j]);
    NormalAxisValue(sc, base, declared, d, j, 0);
    var candidate := SchemaSet(sc, sc.root, base, tokens, declared.axes[j].values[0]).value;
    NormalizedIsCanonical(sc, sc.root, candidate);
    ReadTokensAreHarmless(Normalize(sc, sc.root, candidate).value, tokens);
    FormatIsWellFormed(tokens);
    if ProperPointer(d.axes[j].pointer) {
      ProperPointerText(d.axes[j]);
    }
  }

  lemma ProperPointerText(a: Axis)
    requires ProperPointer(a.pointer)
    ensures a.pointer == Format(Tokens(a))
  {
  }

  /** No plan sweeps the prototype: the planner reads nothing back there, and refuses. */
  lemma PlannedAxesAvoidPrototype(hash: Hash, sc: CheckedSchema, configuration: Json, maxSamples: nat)
    requires PlanUnder(hash, sc, configuration, maxSamples).Ok?
    ensures var d := PlanUnder(hash, sc, configuration, maxSamples).value.configuration.sampling;
            d.Cartesian? ==> forall j | 0 <= j < |d.axes| :: !EndsAtPrototype(Tokens(d.axes[j]))
  {
    hide PlanUnder, Normalize, Digest, BuildSamples, Payloads, SampleCount, NormalSampling, EndsAtPrototype, Tokens;
    hide ConfigurationJson, SamplesJson, WellDeclared;
    var declared, payloads := PlanParts(hash, sc, configuration, maxSamples);
    var c := PlanUnder(hash, sc, configuration, maxSamples).value.configuration;
    if c.sampling.Cartesian? {
      forall j | 0 <= j < |c.sampling.axes|
        ensures !EndsAtPrototype(Tokens(c.sampling.axes[j]))
      {
        CountableIsProper(c.sampling);
        NormalAxisIsHarmless(sc, c.parameters, declared, c.sampling, j);
      }
    }
  }

  lemma NormalizedIsEncodable(sc: CheckedSchema, base: Json, declared: Declaration, d: Declaration)
    requires WellDeclared(declared) && NormalizedFrom(sc, base, declared, d)
    ensures Encodable(d)
  {
    hide NormalValue, Disjoint, Canonical, WellFormed, ProperPointer, Tokens;
    NormalizedIsCountable(sc, base, declared, d);
    if d.Cartesian? {
      NormalAxesAreDisjoint(sc, base, declared, d);
      NormalAxesAreCanonical(sc, base, declared, d);
      forall j | 0 <= j < |d.axes|
        ensures EncodableAxis(d.axes[j])
      {
        NormalAxisIsHarmless(sc, base, declared, d, j);
      }
    }
  }

  lemma PlannedCombinationsAreCanonical(sc: CheckedSchema, axes: seq<Axis>, base: Json)
    requires Proper(axes) && Combinations(Planned(sc), axes, base).Some?
    ensures var cs := Combinations(Planned(sc), axes, base).value; forall i | 0 <= i < |cs| :: Canonical(cs[i])
  {
    hide Combine, Normalize, Product, Canonical;
    var cs := Combinations(Planned(sc), axes, base).value;
    forall i | 0 <= i < |cs|
      ensures Canonical(cs[i])
    {
      assert At(Planned(sc), axes, Some(base), i) == Some(cs[i]);
      NormalizedIsCanonical(sc, sc.root, Combine(Planned(sc), axes, Some(base), i).value);
    }
  }

  lemma PlannedPayloadsAreEncodable(sc: CheckedSchema, base: Json, d: Declaration, payloads: seq<Payload>)
    requires Countable(d) && Encodable(d) && Canonical(base) && Payloads(Planned(sc), base, d) == Some(payloads)
    ensures forall i | 0 <= i < |payloads| :: EncodablePayload(payloads[i])
    ensures |payloads| == SampleCount(d)
  {
    hide Combinations, Canonical, EncodableAxis;
    if d.Cartesian? {
      var cs, seeds := Combinations(Planned(sc), d.axes, base).value, Branches(d.branches);
      PlannedCombinationsAreCanonical(sc, d.axes, base);
      CombinationCount(Planned(sc), d.axes, base);
      forall k | 0 <= k < |cs| * |seeds|
        ensures EncodablePayload(Pair(cs, seeds)[k])
      {
        DigitBounds(k, |cs|, |seeds|);
      }
    }
  }

  lemma CombinationCount(mode: Mode, axes: seq<Axis>, base: Json)
    requires Proper(axes) && Combinations(mode, axes, base).Some?
    ensures |Combinations(mode, axes, base).value| == Product(axes)
  {
  }

  lemma EncodableIsDigested(hash: Hash, payloads: seq<Payload>)
    requires forall i | 0 <= i < |payloads| :: EncodablePayload(payloads[i])
    ensures AllEncodable(hash, payloads)
  {
    hide PayloadJson, EncodablePayload, Canonical;
    forall i | 0 <= i < |payloads|
      ensures Digest(hash, PayloadJson(payloads[i])).Ok?
    {
      PayloadIsCanonical(payloads[i]);
    }
  }

  // Identities.

  lemma {:induction false} RefusedSamplesAreInvalid(hash: Hash, payloads: seq<Payload>, done: seq<Sample>)
    requires |done| <= |payloads| && AllEncodable(hash, payloads)
    ensures BuildSamples(hash, payloads, done).Ok? || BuildSamples(hash, payloads, done) == Fail(InvalidSamplePlan)
    decreases |payloads| - |done|
  {
    hide Digest, PayloadJson;
    if |done| < |payloads| {
      var id := Digest(hash, PayloadJson(payloads[|done|]));
      assert id.Ok?;
      RefusedSamplesAreInvalid(hash, payloads, done + [Sample(|done|, id.value, payloads[|done|])]);
    }
  }

  /** Equal payloads are refused; different ones only for a collision. */
  lemma IdentitiesDecide(hash: Hash, payloads: seq<Payload>)
    requires AllEncodable(hash, payloads)
    ensures BuildSamples(hash, payloads, []).Ok? || BuildSamples(hash, payloads, []) == Fail(InvalidSamplePlan)
    ensures !PairwiseDistinct(payloads) ==> BuildSamples(hash, payloads, []) == Fail(InvalidSamplePlan)
    ensures PairwiseDistinct(payloads) && NoCollision(hash, payloads) ==> BuildSamples(hash, payloads, []).Ok?
  {
    hide Digest, PayloadJson, BuildSamples;
    RefusedSamplesAreInvalid(hash, payloads, []);
    if BuildSamples(hash, payloads, []).Ok? {
      BuiltPayloadsAreDistinct(hash, payloads);
    } else if PairwiseDistinct(payloads) && NoCollision(hash, payloads) {
      DistinctPayloadsBuild(hash, payloads, []);
    }
  }

  lemma {:induction false} BuiltIndices(hash: Hash, payloads: seq<Payload>, done: seq<Sample>)
    requires |done| <= |payloads| && BuildSamples(hash, payloads, done).Ok?
    requires forall i | 0 <= i < |done| :: done[i].index == i
    ensures var samples := BuildSamples(hash, payloads, done).value;
            forall i | 0 <= i < |samples| :: samples[i].index == i
    decreases |payloads| - |done|
  {
    hide Digest, PayloadJson;
    if |done| < |payloads| {
      var id := Digest(hash, PayloadJson(payloads[|done|])).value;
      BuiltIndices(hash, payloads, done + [Sample(|done|, id, payloads[|done|])]);
    }
  }

  lemma BuiltSamplesAreCanonical(hash: Hash, payloads: seq<Payload>)
    requires ProducesDigests(hash) && (forall i | 0 <= i < |payloads| :: EncodablePayload(payloads[i]))
    requires |payloads| <= MAX_SAFE
    requires BuildSamples(hash, payloads, []).Ok?
    ensures Canonical(SamplesJson(BuildSamples(hash, payloads, []).value))
  {
    hide BuildSamples, PayloadJson, EncodablePayload, HexDigest, Canonical, SamplesJson, Digest;
    var samples := BuildSamples(hash, payloads, []).value;
    BuiltSamples(hash, payloads, []);
    BuiltIndices(hash, payloads, []);
    forall i | 0 <= i < |samples|
      ensures HexDigest(samples[i].id)
    {
      DigestedIsCanonical(hash, PayloadJson(payloads[i]));
    }
    SamplesAreCanonical(samples);
  }

  // The outcome, under any schema.

  /** The end of the planner, once the payloads are there. */
  lemma PlannerEnds(hash: Hash, sc: CheckedSchema, configuration: Json, maxSamples: nat, c: Configuration,
      payloads: seq<Payload>)
    requires ProducesDigests(hash) && IsLimit(maxSamples) && |payloads| <= maxSamples
    requires NormalizedConfiguration(sc, configuration) == Ok(c) && Countable(c.sampling) && Encodable(c.sampling)
    requires Canonical(c.parameters)
    requires PlannedPayloads(sc, c.parameters, c.sampling, maxSamples) == Ok(payloads)
    requires forall i | 0 <= i < |payloads| :: EncodablePayload(payloads[i])
    requires c.sampling.Single? ==> |payloads| == 1
    ensures var r := PlanUnder(hash, sc, configuration, maxSamples);
            if c.visual && !c.sampling.Single? then r == Fail(InvalidSamplePlan)
            else if !PairwiseDistinct(payloads) then r == Fail(InvalidSamplePlan)
            else NoCollision(hash, payloads) ==>
              r.Ok? && r.value.configuration == c && r.value.sampleCount == |payloads|
  {
    hide PlanUnder, NormalizedConfiguration, PlannedPayloads, BuildSamples, ConfigurationJson, SamplesJson, Encodable;
    hide Countable, Canonical;
    hide EncodablePayload, PairwiseDistinct, NoCollision, AllEncodable, ProducesDigests;
    EncodableIsDigested(hash, payloads);
    IdentitiesDecide(hash, payloads);
    if BuildSamples(hash, payloads, []).Ok? {
      ConfigurationIsCanonical(c);
      BuiltSamplesAreCanonical(hash, payloads);
      BuiltPlanIsReturned(hash, sc, configuration, maxSamples, c, payloads);
    } else {
      RefusedSamples(hash, sc, configuration, maxSamples, c, payloads);
    }
  }

  lemma BuiltPlanIsReturned(hash: Hash, sc: CheckedSchema, configuration: Json, maxSamples: nat, c: Configuration,
      payloads: seq<Payload>)
    requires NormalizedConfiguration(sc, configuration) == Ok(c) && Countable(c.sampling)
    requires PlannedPayloads(sc, c.parameters, c.sampling, maxSamples) == Ok(payloads)
    requires |payloads| <= maxSamples && (c.sampling.Single? ==> |payloads| == 1)
    requires BuildSamples(hash, payloads, []).Ok?
    requires Canonical(ConfigurationJson(c)) && Canonical(SamplesJson(BuildSamples(hash, payloads, []).value))
    ensures var r := PlanUnder(hash, sc, configuration, maxSamples);
            if c.visual && !c.sampling.Single? then r == Fail(InvalidSamplePlan)
            else r.Ok? && r.value.configuration == c && r.value.sampleCount == |payloads|
  {
    hide Normalize, NormalSampling, ReadDeclaration, ConfigurationRecord, PlannedPayloads, BuildSamples;
    hide ConfigurationJson, SamplesJson;
    hide Canonical, Countable, V_VISUAL, F_PARAMETERS, F_SAMPLING, F_RUN_KIND, CONFIGURATION_KEYS;
    BuiltCount(hash, payloads);
  }

  lemma BuiltCount(hash: Hash, payloads: seq<Payload>)
    requires BuildSamples(hash, payloads, []).Ok?
    ensures |BuildSamples(hash, payloads, []).value| == |payloads|
  {
    hide BuildSamples, Digest, PayloadJson;
    BuiltSamples(hash, payloads, []);
  }

  lemma RefusedSamples(hash: Hash, sc: CheckedSchema, configuration: Json, maxSamples: nat, c: Configuration,
      payloads: seq<Payload>)
    requires NormalizedConfiguration(sc, configuration) == Ok(c) && Countable(c.sampling)
    requires PlannedPayloads(sc, c.parameters, c.sampling, maxSamples) == Ok(payloads)
    requires |payloads| <= maxSamples && BuildSamples(hash, payloads, []) == Fail(InvalidSamplePlan)
    ensures PlanUnder(hash, sc, configuration, maxSamples) == Fail(InvalidSamplePlan)
  {
    hide Normalize, NormalSampling, ReadDeclaration, ConfigurationRecord, PlannedPayloads, BuildSamples;
    hide ConfigurationJson, SamplesJson;
    hide Canonical, Countable, V_VISUAL, F_PARAMETERS, F_SAMPLING, F_RUN_KIND, CONFIGURATION_KEYS;
  }

  /** The planner as its parts: what each refuses, and that nothing else is refused. */
  lemma PlannerAnswers(hash: Hash, sc: CheckedSchema, configuration: Json, maxSamples: nat)
    requires ProducesDigests(hash) && IsLimit(maxSamples)
    ensures var n := NormalizedConfiguration(sc, configuration);
            var r := PlanUnder(hash, sc, configuration, maxSamples);
            if n.Fail? then r == Fail(n.code)
            else
              && Countable(n.value.sampling)
              && var p := PlannedPayloads(sc, n.value.parameters, n.value.sampling, maxSamples);
                 if p.Fail? then r == Fail(p.code)
                 else if (n.value.visual && !n.value.sampling.Single?)
                   || !PairwiseDistinct(p.value) then r == Fail(InvalidSamplePlan)
                 else NoCollision(hash, p.value) ==>
                   r.Ok? && r.value.configuration == n.value && r.value.sampleCount == |p.value|
  {
    var n := NormalizedConfiguration(sc, configuration);
    if n.Ok? {
      var c := n.value;
      var parameters, declared := NormalizedParts(sc, configuration);
      NormalizedIsEncodable(sc, c.parameters, declared, c.sampling);
      var p := PlannedPayloads(sc, c.parameters, c.sampling, maxSamples);
      if p.Ok? {
        PayloadsWithinLimit(sc, c.parameters, c.sampling, maxSamples, p.value);
        PlannerEnds(hash, sc, configuration, maxSamples, c, p.value);
      } else {
        RefusedPayloads(hash, sc, configuration, maxSamples, c);
      }
    } else {
      RefusedConfiguration(hash, sc, configuration, maxSamples);
    }
  }

  lemma PayloadsWithinLimit(sc: CheckedSchema, base: Json, d: Declaration, maxSamples: nat, payloads: seq<Payload>)
    requires Countable(d) && Encodable(d) && Canonical(base) && IsLimit(maxSamples)
    requires PlannedPayloads(sc, base, d, maxSamples) == Ok(payloads)
    ensures |payloads| <= maxSamples && (d.Single? ==> |payloads| == 1)
    ensures forall i | 0 <= i < |payloads| :: EncodablePayload(payloads[i])
  {
    hide AxisAccepted, Payloads, Encodable, Canonical, EncodablePayload;
    PlannedPayloadsAreEncodable(sc, base, d, payloads);
  }

  lemma RefusedPayloads(hash: Hash, sc: CheckedSchema, configuration: Json, maxSamples: nat, c: Configuration)
    requires NormalizedConfiguration(sc, configuration) == Ok(c) && Countable(c.sampling)
    requires PlannedPayloads(sc, c.parameters, c.sampling, maxSamples).Fail?
    ensures PlanUnder(hash, sc, configuration, maxSamples)
            == Fail(PlannedPayloads(sc, c.parameters, c.sampling, maxSamples).code)
  {
    hide Normalize, NormalSampling, ReadDeclaration, ConfigurationRecord, PlannedPayloads, BuildSamples;
    hide ConfigurationJson, SamplesJson, Countable;
    hide F_PARAMETERS, F_SAMPLING, F_RUN_KIND, CONFIGURATION_KEYS, V_VISUAL;
  }

  lemma RefusedConfiguration(hash: Hash, sc: CheckedSchema, configuration: Json, maxSamples: nat)
    requires NormalizedConfiguration(sc, configuration).Fail?
    ensures PlanUnder(hash, sc, configuration, maxSamples) == Fail(NormalizedConfiguration(sc, configuration).code)
  {
    hide Normalize, NormalSampling, ReadDeclaration, ConfigurationRecord, PlannedPayloads, BuildSamples;
    hide ConfigurationJson, SamplesJson, Countable;
    hide F_PARAMETERS, F_SAMPLING, F_RUN_KIND, CONFIGURATION_KEYS, V_VISUAL;
  }

  // The outcome of a sweep.

  /** Normalization merged no two values of an axis. */
  predicate AxesAreDistinct(axes: seq<Axis>) {
    forall j | 0 <= j < |axes| :: PairwiseDistinct(axes[j].values)
  }

  /** The payloads of a normalized sweep differ exactly when normalization merged no values. */
  lemma PayloadsDifferExactly(sc: CheckedSchema, base: Json, declared: Declaration, d: Declaration)
    requires WellDeclared(declared) && NormalizedFrom(sc, base, declared, d) && d.Cartesian? && Countable(d)
    requires Payloads(Declared, base, d).Some?
    ensures PairwiseDistinct(Payloads(Declared, base, d).value) <==> AxesAreDistinct(d.axes)
  {
    NormalAxesAreDisjoint(sc, base, declared, d);
    NormalAxesAreCanonical(sc, base, declared, d);
    hide Payloads, NormalValue, Tokens, ProperPointer, Disjoint, Canonical, NormalizedFrom, EndsAtPrototype;
    if AxesAreDistinct(d.axes) {
      forall j | 0 <= j < |d.axes|
        ensures ProperAxis(d.axes[j]) && !EndsAtPrototype(Tokens(d.axes[j]))
      {
        assert PairwiseDistinct(d.axes[j].values);
        NormalAxisIsHarmless(sc, base, declared, d, j);
      }
      PayloadsAreDistinct(base, d);
    }
    if PairwiseDistinct(Payloads(Declared, base, d).value) {
      NormalSamplingIsWellDeclared(sc, base, declared, d);
      forall j | 0 <= j < |d.axes|
        ensures PairwiseDistinct(d.axes[j].values)
      {
        assert ProperAxis(d.axes[j]);
      }
    }
  }

  /**
   With only checks beside references, what the planner answers to a sweep whose base and axis
   values could be normalized: it is refused for its size, as a visual run, for an `enum` or
   `const` that a value or a combination violates, or for two values that normalization merged,
   and barring a collision for nothing else. With scalar choices none is violated.
   */
  lemma SweepAnswers(hash: Hash, sc: CheckedSchema, configuration: Json, maxSamples: nat)
    requires ProducesDigests(hash) && IsLimit(maxSamples) && ReferencesOnlyChecked(sc)
    requires NormalizedConfiguration(sc, configuration).Ok?
    requires NormalizedConfiguration(sc, configuration).value.sampling.Cartesian?
    ensures var c := NormalizedConfiguration(sc, configuration).value;
            var d, r := c.sampling, PlanUnder(hash, sc, configuration, maxSamples);
            && Countable(d)
            && (ScalarChoices(sc) ==> ChoicesAllowSweep(sc, c.parameters, d.axes))
            && if SampleCount(d) > maxSamples then r == Fail(SampleLimitExceeded)
               else if c.visual || !ChoicesAllowSweep(sc, c.parameters, d.axes)
                 || !AxesAreDistinct(d.axes) then r == Fail(InvalidSamplePlan)
               else
                 && Payloads(Declared, c.parameters, d).Some?
                 && (NoCollision(hash, Payloads(Declared, c.parameters, d).value) ==>
                    r.Ok? && r.value.configuration == c)
  {
    hide PlanUnder, Normalize, NormalizedFrom, PlannedPayloads, ChoicesAllowSweep, SampleCount, Payloads, WellDeclared;
    hide Countable, AxesAreDistinct;
    hide NormalizedConfiguration, NoCollision, PairwiseDistinct, ReferencesOnlyChecked, ScalarChoices;
    var c := NormalizedConfiguration(sc, configuration).value;
    var parameters, declared := NormalizedParts(sc, configuration);
    PlannerAnswers(hash, sc, configuration, maxSamples);
    ExpansionIsExact(sc, parameters, declared, c.sampling, maxSamples);
    if ScalarChoices(sc) {
      ScalarChoicesAllow(sc, parameters, declared, c.sampling);
    }
    if ChoicesAllowSweep(sc, c.parameters, c.sampling.axes) {
      PayloadsDifferExactly(sc, c.parameters, declared, c.sampling);
    }
  }

  lemma ScalarChoicesAllow(sc: CheckedSchema, parameters: Json, declared: Declaration, d: Declaration)
    requires ReferencesOnlyChecked(sc) && ScalarChoices(sc) && Normalize(sc, sc.root, parameters).Some?
    requires WellDeclared(declared)
    requires NormalizedFrom(sc, Normalize(sc, sc.root, parameters).value, declared, d) && d.Cartesian?
    ensures Proper(d.axes) && ChoicesAllowSweep(sc, Normalize(sc, sc.root, parameters).value, d.axes)
  {
    hide Normalize, NormalizedFrom, PlannedPayloads, ChoicesAllowSweep, SampleCount, Payloads, WellDeclared;
    hide ReferencesOnlyChecked, ScalarChoices, Countable;
    NormalizedIsCountable(sc, Normalize(sc, sc.root, parameters).value, declared, d);
    var size := SampleCount(d);
    ExpansionIsExact(sc, parameters, declared, d, size);
    ExpansionIsNeverRefused(sc, parameters, declared, d, size);
    CountableIsProper(d);
  }
}
