/** Plans as JSON: what is written is read back, and nothing is lost. */
module PlannerLaws {
  import opened CanonicalJson
  import opened CanonicalBytes
  import opened JsonPointer
  import opened Normalization
  import opened NormalizationLaws
  import opened SchemaValidation
  import opened Sampling
  import opened CartesianExpansion
  import opened ExpansionLaws
  import opened Planner

  // Canonical JSON records.

  predicate Harmless(k: Text) {
    WellFormed(k) && !DangerousKey(k)
  }

  lemma NameIsHarmless(k: Text)
    requires NoSurrogates(k) && |k| != 9 && (|k| == 11 ==> k[0] == 0x73)
    ensures Harmless(k)
  {
    PlainTextIsWellFormed(k);
    assert Ascii("constructor")[0] == 0x63;
  }

  lemma PlanKeysAreHarmless()
    ensures forall k | k in PLAN_KEYS :: Harmless(k)
  {
    hide Harmless;
    NameIsHarmless(F_CONFIGURATION);
    NameIsHarmless(F_CONFIGURATION_DIGEST);
    NameIsHarmless(F_SAMPLE_COUNT);
    NameIsHarmless(F_SAMPLES);
    NameIsHarmless(F_PLAN_DIGEST);
  }

  lemma ConfigurationKeysDiffer()
    ensures F_VERSION != F_RUN_KIND && F_VERSION != F_PARAMETERS && F_VERSION != F_SAMPLING
    ensures F_RUN_KIND != F_PARAMETERS
    ensures F_RUN_KIND != F_SAMPLING && F_PARAMETERS != F_SAMPLING && V_BATCH != V_VISUAL
  {
    assert F_VERSION[1] != F_SAMPLING[1];
    assert F_VERSION[0] != F_RUN_KIND[0] && F_VERSION[0] != F_PARAMETERS[0] && F_RUN_KIND[0] != F_PARAMETERS[0];
    assert F_RUN_KIND[0] != F_SAMPLING[0] && F_PARAMETERS[0] != F_SAMPLING[0];
    assert V_BATCH[0] != V_VISUAL[0];
  }

  lemma PlanKeysDiffer()
    ensures F_CONFIGURATION != F_CONFIGURATION_DIGEST && F_CONFIGURATION != F_SAMPLE_COUNT
    ensures F_CONFIGURATION != F_SAMPLES
    ensures F_CONFIGURATION != F_PLAN_DIGEST && F_CONFIGURATION_DIGEST != F_SAMPLE_COUNT
    ensures F_CONFIGURATION_DIGEST != F_SAMPLES
    ensures F_CONFIGURATION_DIGEST != F_PLAN_DIGEST && F_SAMPLE_COUNT != F_SAMPLES && F_SAMPLE_COUNT != F_PLAN_DIGEST
    ensures F_SAMPLES != F_PLAN_DIGEST
  {
    assert |F_CONFIGURATION| == 13 && |F_CONFIGURATION_DIGEST| == 19 && |F_SAMPLE_COUNT| == 11 && |F_SAMPLES| == 7
        && |F_PLAN_DIGEST| == 16;
  }

  lemma SampleKeysDiffer()
    ensures F_SAMPLE_INDEX != F_SAMPLE_ID && F_SAMPLE_INDEX != F_PARAMETERS && F_SAMPLE_INDEX != F_SEED
    ensures F_SAMPLE_ID != F_PARAMETERS && F_SAMPLE_ID != F_SEED && F_PARAMETERS != F_SEED
  {
    assert |F_SAMPLE_INDEX| == 11 && |F_SAMPLE_ID| == 8 && |F_PARAMETERS| == 10 && |F_SEED| == 4;
  }

  lemma HexIsPlain(t: Text)
    requires HexDigest(t)
    ensures WellFormed(t)
  {
    PlainTextIsWellFormed(t);
  }

  lemma PlanIsCanonical(p: Plan)
    requires Canonical(ConfigurationJson(p.configuration)) && Canonical(SamplesJson(p.samples))
    requires HexDigest(p.configurationDigest) && HexDigest(p.samplePlanDigest) && p.sampleCount <= MAX_SAFE
    ensures Canonical(PlanJson(p))
  {
    hide ConfigurationJson, SamplesJson, HexDigest;
    PlanKeysAreHarmless();
    HexIsPlain(p.configurationDigest);
    HexIsPlain(p.samplePlanDigest);
    hide WellFormed, DangerousKey;
    var f := PlanJson(p).fields;
    assert f.Keys == PLAN_KEYS;
    forall k | k in f
      ensures WellFormed(k) && !DangerousKey(k) && Canonical(f[k])
    {
      assert Harmless(k);
    }
  }

  // Reading back what was written.

  lemma ConfigurationFields(c: Configuration)
    ensures var v := ConfigurationJson(c);
            && IsRecord(v, CONFIGURATION_KEYS)
            && {F_VERSION, F_RUN_KIND, F_PARAMETERS, F_SAMPLING} <= v.fields.Keys
            && v.fields[F_VERSION] == Num(1) && v.fields[F_RUN_KIND] == Str(if c.visual then V_VISUAL else V_BATCH)
            && v.fields[F_PARAMETERS] == c.parameters && v.fields[F_SAMPLING] == DeclarationJson(c.sampling)
  {
    hide DeclarationJson;
    ConfigurationKeysDiffer();
  }

  lemma ConfigurationIsReadBack(c: Configuration)
    requires Canonical(ConfigurationJson(c)) && c.parameters.Obj? && WellDeclared(c.sampling)
    ensures CheckedConfiguration(ConfigurationJson(c)) == Ok(c)
  {
    ConfigurationFields(c);
    ConfigurationKeysDiffer();
    ReadUndoesWrite(c.sampling);
    assert Canonical(ConfigurationJson(c).fields[F_PARAMETERS]);
    hide ConfigurationJson, DeclarationJson, WellDeclared, ReadDeclaration, Canonical, CONFIGURATION_KEYS, IsRecord;
    hide F_VERSION, F_RUN_KIND, F_PARAMETERS, F_SAMPLING, V_VISUAL, V_BATCH;
  }

  ghost predicate AllReadable(payloads: seq<Payload>) {
    forall i | 0 <= i < |payloads| ::
        payloads[i].parameters.Obj? && (payloads[i].seed.Some? ==> IsSafe(payloads[i].seed.value))
  }

  lemma SampleFields(s: Sample)
    ensures var item := SampleJson(s);
            && item.Obj? && item.fields.Keys == SAMPLE_KEYS
            && {F_SAMPLE_INDEX, F_SAMPLE_ID, F_PARAMETERS, F_SEED} <= item.fields.Keys
            && item.fields[F_SAMPLE_INDEX] == Num(s.index) && item.fields[F_SAMPLE_ID] == Str(s.id)
            && item.fields[F_PARAMETERS] == s.payload.parameters && item.fields[F_SEED] == SeedJson(s.payload.seed)
  {
    SampleKeysDiffer();
  }

  lemma DigestedPayload(hash: Hash, payload: Payload)
    requires ProducesDigests(hash) && Digest(hash, PayloadJson(payload)).Ok?
    ensures Canonical(payload.parameters) && HexDigest(Digest(hash, PayloadJson(payload)).value)
  {
    hide HexDigest;
    assert PayloadJson(payload).fields[F_PARAMETERS] == payload.parameters by {
      assert |F_SEED| == 4 && |F_PARAMETERS| == 10;
    }
  }

  lemma SampleIsReadBack(hash: Hash, payload: Payload, done: seq<Sample>, id: Text)
    requires ProducesDigests(hash)
    requires Digest(hash, PayloadJson(payload)) == Ok(id) && !exists s | s in done :: s.id == id
    requires payload.parameters.Obj? && (payload.seed.Some? ==> IsSafe(payload.seed.value))
    ensures CheckSample(hash, SampleJson(Sample(|done|, id, payload)), payload, done) == Ok(Sample(|done|, id, payload))
  {
    DigestedPayload(hash, payload);
    SampleFields(Sample(|done|, id, payload));
    hide HexDigest, SampleJson, PayloadJson, Digest, ProducesDigests, SAMPLE_KEYS, Canonical, F_SAMPLE_INDEX;
    hide F_SAMPLE_ID, F_PARAMETERS, F_SEED;
  }

  /** The samples the planner built are the samples the revalidator reads. */
  lemma {:induction false} SamplesAreReadBack(hash: Hash, payloads: seq<Payload>, done: seq<Sample>,
      samples: seq<Sample>)
    requires ProducesDigests(hash) && AllReadable(payloads)
    requires |done| <= |payloads| == |samples| && BuildSamples(hash, payloads, done) == Ok(samples)
    ensures done <= samples
    ensures CheckSamples(hash, SamplesJson(samples).items, payloads, done) == Ok(samples)
    decreases |payloads| - |done|
  {
    hide Digest, SampleJson, CheckSample, PayloadJson;
    if |done| < |payloads| {
      var payload := payloads[|done|];
      var id := Digest(hash, PayloadJson(payload)).value;
      var more := done + [Sample(|done|, id, payload)];
      SamplesAreReadBack(hash, payloads, more, samples);
      assert samples[|done|] == more[|done|];
      SampleIsReadBack(hash, payload, done, id);
    }
  }

  lemma {:induction false} BuiltSamples(hash: Hash, payloads: seq<Payload>, done: seq<Sample>)
    requires |done| <= |payloads| && BuildSamples(hash, payloads, done).Ok?
    requires forall i | 0 <= i < |done| ::
             done[i].payload == payloads[i] && Digest(hash, PayloadJson(payloads[i])) == Ok(done[i].id)
    requires forall i, k | 0 <= i < k < |done| :: done[i].id != done[k].id
    ensures var samples := BuildSamples(hash, payloads, done).value;
            && |samples| == |payloads|
            && (forall i | 0 <= i < |payloads| ::
               samples[i].payload == payloads[i] && Digest(hash, PayloadJson(payloads[i])) == Ok(samples[i].id))
            && forall i, k | 0 <= i < k < |samples| :: samples[i].id != samples[k].id
    decreases |payloads| - |done|
  {
    hide Digest, PayloadJson;
    if |done| < |payloads| {
      var payload := payloads[|done|];
      var id := Digest(hash, PayloadJson(payload)).value;
      BuiltSamples(hash, payloads, done + [Sample(|done|, id, payload)]);
    }
  }

  /** Equal payloads would have equal identities, which the planner refuses. */
  lemma BuiltPayloadsAreDistinct(hash: Hash, payloads: seq<Payload>)
    requires BuildSamples(hash, payloads, []).Ok?
    ensures PairwiseDistinct(payloads)
  {
    hide Digest, PayloadJson;
    BuiltSamples(hash, payloads, []);
  }

  // Seeds and combinations.

  lemma PairAt(combinations: seq<Json>, seeds: seq<Option<int>>, i: nat, j: nat)
    requires i < |combinations| && j < |seeds|
    ensures i * |seeds| + j < |combinations| * |seeds|
    ensures Pair(combinations, seeds)[i * |seeds| + j] == Payload(combinations[i], seeds[j])
  {
    DigitOf(i, j, |combinations|, |seeds|);
  }

  lemma DistinctPairsDistinctCombinations(combinations: seq<Json>, seeds: seq<Option<int>>)
    requires seeds != [] && PairwiseDistinct(Pair(combinations, seeds))
    ensures PairwiseDistinct(combinations)
  {
    hide Pair;
    forall i, k | 0 <= i < k < |combinations|
      ensures combinations[i] != combinations[k]
    {
      PairAt(combinations, seeds, i, 0);
      PairAt(combinations, seeds, k, 0);
      ScalingKeepsOrder(i + 1, k, |seeds|);
      assert (i + 1) * |seeds| == i * |seeds| + |seeds|;
    }
  }

  lemma DistinctCombinationsDistinctPairs(combinations: seq<Json>, seeds: seq<Option<int>>)
    requires seeds != [] && PairwiseDistinct(combinations) && PairwiseDistinct(seeds)
    ensures PairwiseDistinct(Pair(combinations, seeds))
  {
    var n := |seeds|;
    forall i, k | 0 <= i < k < |combinations| * n
      ensures Pair(combinations, seeds)[i] != Pair(combinations, seeds)[k]
    {
      DigitBounds(i, |combinations|, n);
      DigitBounds(k, |combinations|, n);
      ScalingKeepsOrder(k / n + 1, i / n, n);
      assert (k / n + 1) * n == k / n * n + n;
    }
  }

  lemma {:induction false} WriteKeepsObject(v: Json, p: seq<Text>, x: Json)
    requires Set(v, p, x).Some?
    ensures Set(v, p, x).value.Obj? == v.Obj?
  {
  }

  lemma {:induction false} CombinationsAreObjects(axes: seq<Axis>, current: Json, i: nat)
    requires Proper(axes) && i < Product(axes) && current.Obj?
    requires Combine(Declared, axes, Some(current), i).Some?
    ensures Combine(Declared, axes, Some(current), i).value.Obj?
    decreases |axes|
  {
    hide Set, Tokens;
    if axes != [] {
      var p := Product(axes[1..]);
      DigitBounds(i, |axes[0].values|, p);
      var next := Set(current, Tokens(axes[0]), axes[0].values[i / p]);
      if next.None? {
        FailureStays(Declared, axes[1..], i % p);
      } else {
        WriteKeepsObject(current, Tokens(axes[0]), axes[0].values[i / p]);
        CombinationsAreObjects(axes[1..], next.value, i % p);
      }
    }
  }

  lemma PayloadsAreReadable(parameters: Json, d: Declaration)
    requires Countable(d) && WellDeclared(d) && parameters.Obj?
    requires Payloads(Declared, parameters, d).Some?
    ensures AllReadable(Payloads(Declared, parameters, d).value)
    ensures |Payloads(Declared, parameters, d).value| == SampleCount(d)
  {
    if d.Cartesian? {
      var cs := Combinations(Declared, d.axes, parameters).value;
      var seeds := Branches(d.branches);
      DefinedCombinations(d.axes, parameters);
      forall k | 0 <= k < |cs| * |seeds|
        ensures Pair(cs, seeds)[k].parameters.Obj?
        ensures (Pair(cs, seeds)[k].seed.Some? ==> IsSafe(Pair(cs, seeds)[k].seed.value))
      {
        DigitBounds(k, |cs|, |seeds|);
        var i := k / |seeds|;
        assert Combine(Declared, d.axes, Some(parameters), i) == Some(cs[i]);
        CombinationsAreObjects(d.axes, parameters, i);
      }
    }
  }

  lemma PairIsInjective(a: seq<Json>, b: seq<Json>, seeds: seq<Option<int>>)
    requires seeds != [] && Pair(a, seeds) == Pair(b, seeds) && |a| == |b|
    ensures a == b
  {
    hide Pair;
    forall i | 0 <= i < |a|
      ensures a[i] == b[i]
    {
      PairAt(a, seeds, i, 0);
      PairAt(b, seeds, i, 0);
    }
  }

  // Writing a plan loses nothing.

  lemma SeedJsonIsInjective(a: Option<int>, b: Option<int>)
    requires SeedJson(a) == SeedJson(b)
    ensures a == b
  {
  }

  lemma SampleJsonIsInjective(a: Sample, b: Sample)
    requires SampleJson(a) == SampleJson(b)
    ensures a == b
  {
    SampleFields(a);
    SampleFields(b);
    hide SampleJson, SeedJson, SAMPLE_KEYS, F_SAMPLE_INDEX, F_SAMPLE_ID, F_PARAMETERS, F_SEED;
    SeedJsonIsInjective(a.payload.seed, b.payload.seed);
  }

  lemma SamplesJsonIsInjective(a: seq<Sample>, b: seq<Sample>)
    requires SamplesJson(a) == SamplesJson(b)
    ensures a == b
  {
    hide SampleJson;
    forall i | 0 <= i < |a|
      ensures |a| == |b| && a[i] == b[i]
    {
      assert SamplesJson(a).items[i] == SamplesJson(b).items[i];
      SampleJsonIsInjective(a[i], b[i]);
    }
  }

  lemma ConfigurationJsonIsInjective(a: Configuration, b: Configuration)
    requires ConfigurationJson(a) == ConfigurationJson(b)
    ensures a == b
  {
    ConfigurationFields(a);
    ConfigurationFields(b);
    ConfigurationKeysDiffer();
    hide ConfigurationJson, DeclarationJson, CONFIGURATION_KEYS, F_VERSION, F_RUN_KIND, F_PARAMETERS, F_SAMPLING;
    hide V_BATCH, V_VISUAL;
    DeclarationJsonIsInjective(a.sampling, b.sampling);
  }

  /** The fields of an input are those of a plan. */
  predicate PlanRead(input: Json, p: Plan) {
    && IsRecord(input, PLAN_KEYS)
    && {F_CONFIGURATION, F_CONFIGURATION_DIGEST, F_SAMPLE_COUNT, F_SAMPLES, F_PLAN_DIGEST} <= input.fields.Keys
    && input.fields[F_CONFIGURATION] == ConfigurationJson(p.configuration)
    && input.fields[F_CONFIGURATION_DIGEST] == Str(p.configurationDigest)
    && input.fields[F_SAMPLE_COUNT] == Num(p.sampleCount)
    && input.fields[F_SAMPLES] == SamplesJson(p.samples) && input.fields[F_SAMPLES].Arr?
    && |input.fields[F_SAMPLES].items| == |p.samples|
    && input.fields[F_PLAN_DIGEST] == Str(p.samplePlanDigest)
  }

  lemma PlanFields(p: Plan)
    ensures PlanRead(PlanJson(p), p)
  {
    hide ConfigurationJson;
    PlanKeysDiffer();
  }

  /** Different plans are written differently. */
  lemma PlanJsonIsInjective(a: Plan, b: Plan)
    requires PlanJson(a) == PlanJson(b)
    ensures a == b
  {
    PlanFields(a);
    PlanFields(b);
    hide PlanJson, ConfigurationJson, SamplesJson, PLAN_KEYS, F_CONFIGURATION, F_CONFIGURATION_DIGEST, F_SAMPLE_COUNT;
    hide F_SAMPLES, F_PLAN_DIGEST;
    ConfigurationJsonIsInjective(a.configuration, b.configuration);
    SamplesJsonIsInjective(a.samples, b.samples);
  }
}
