/** `planExperiment` and `assertExperimentPlan`. */
module Planner {
  import opened CanonicalJson
  import opened CanonicalBytes
  import opened Utf8
  import opened JsonPointer
  import opened Normalization
  import opened SchemaValidation
  import opened Sampling
  import opened CartesianExpansion

  /** SHA-256 in hexadecimal, of which only the shape of its output is used. */
  type Hash = seq<Byte> -> Text

  predicate HexDigest(t: Text) {
    |t| == 64 && forall i | 0 <= i < 64 :: 0x30 <= t[i] <= 0x39 || 0x61 <= t[i] <= 0x66
  }

  ghost predicate ProducesDigests(hash: Hash) {
    forall bytes :: HexDigest(hash(bytes))
  }

  datatype Configuration = Configuration(visual: bool, parameters: Json, sampling: Declaration)
  datatype Payload = Payload(parameters: Json, seed: Option<int>)
  datatype Sample = Sample(index: nat, id: Text, payload: Payload)
  datatype Plan = Plan(
    configuration: Configuration,
    configurationDigest: Text,
    sampleCount: nat,
    samples: seq<Sample>,
    samplePlanDigest: Text)

  const F_VERSION: Text := Ascii("schemaVersion")
  const F_RUN_KIND: Text := Ascii("runKind")
  const F_PARAMETERS: Text := Ascii("parameters")
  const F_SAMPLING: Text := Ascii("sampling")
  const F_CONFIGURATION: Text := Ascii("configuration")
  const F_CONFIGURATION_DIGEST: Text := Ascii("configurationDigest")
  const F_SAMPLE_COUNT: Text := Ascii("sampleCount")
  const F_SAMPLES: Text := Ascii("samples")
  const F_PLAN_DIGEST: Text := Ascii("samplePlanDigest")
  const F_SAMPLE_INDEX: Text := Ascii("sampleIndex")
  const F_SAMPLE_ID: Text := Ascii("sampleId")
  const V_BATCH: Text := Ascii("batch")
  const V_VISUAL: Text := Ascii("visual")

  const CONFIGURATION_KEYS: set<Text> := {F_VERSION, F_RUN_KIND, F_PARAMETERS, F_SAMPLING}
  const PLAN_KEYS: set<Text> := {F_CONFIGURATION, F_CONFIGURATION_DIGEST, F_SAMPLE_COUNT, F_SAMPLES, F_PLAN_DIGEST}
  const SAMPLE_KEYS: set<Text> := {F_SAMPLE_INDEX, F_SAMPLE_ID, F_PARAMETERS, F_SEED}

  function SeedJson(seed: Option<int>): Json {
    if seed.None? then Null else Num(seed.value)
  }

  function ConfigurationJson(c: Configuration): Json {
    Obj(map[
      F_VERSION := Num(1),
      F_RUN_KIND := Str(if c.visual then V_VISUAL else V_BATCH),
      F_PARAMETERS := c.parameters,
      F_SAMPLING := DeclarationJson(c.sampling)])
  }

  function PayloadJson(p: Payload): Json {
    Obj(map[F_VERSION := Num(1), F_PARAMETERS := p.parameters, F_SEED := SeedJson(p.seed)])
  }

  function SampleJson(s: Sample): Json {
    Obj(map[
      F_SAMPLE_INDEX := Num(s.index),
      F_SAMPLE_ID := Str(s.id),
      F_PARAMETERS := s.payload.parameters,
      F_SEED := SeedJson(s.payload.seed)])
  }

  function SamplesJson(samples: seq<Sample>): Json {
    Arr(seq(|samples|, i requires 0 <= i < |samples| => SampleJson(samples[i])))
  }

  function PlanJson(p: Plan): Json {
    Obj(map[
      F_CONFIGURATION := ConfigurationJson(p.configuration),
      F_CONFIGURATION_DIGEST := Str(p.configurationDigest),
      F_SAMPLE_COUNT := Num(p.sampleCount),
      F_SAMPLES := SamplesJson(p.samples),
      F_PLAN_DIGEST := Str(p.samplePlanDigest)])
  }

  /** `canonicalDigest`: the encoder throws on a value that is not canonical. */
  function Digest(hash: Hash, v: Json): Result<Text> {
    if Canonical(v) then Ok(hash(Bytes(v))) else Fail(Thrown)
  }

  function ConfigurationRecord(v: Json): (r: Result<map<Text, Json>>)
    ensures r.Ok? ==> v == Obj(r.value) && r.value.Keys == CONFIGURATION_KEYS && Canonical(r.value[F_PARAMETERS])
  {
    if !IsRecord(v, CONFIGURATION_KEYS) then Fail(InvalidSamplePlan)
    else
      var f := v.fields;
      if f[F_VERSION] != Num(1) || f[F_RUN_KIND] !in {Str(V_BATCH), Str(V_VISUAL)}
          || !f[F_PARAMETERS].Obj? then Fail(InvalidSamplePlan)
      else if !Canonical(f[F_PARAMETERS]) then Fail(InvalidSamplePlan)
      else Ok(f)
  }

  // The planner.

  /** An axis value as the schema normalizes it, written alone into the base and read back. */
  function NormalValue(sc: CheckedSchema, base: Json, tokens: seq<Text>, x: Json): Option<Json> {
    match SchemaSet(sc, sc.root, base, tokens, x)
    case None => None
    case Some(candidate) =>
      match Normalize(sc, sc.root, candidate)
      case None => None
      case Some(normalized) => if normalized.Obj? then Get(normalized, tokens) else None
  }

  predicate AxisNormalizes(sc: CheckedSchema, base: Json, a: Axis) {
    forall k | 0 <= k < |a.values| :: NormalValue(sc, base, Tokens(a), a.values[k]).Some?
  }

  function NormalAxis(sc: CheckedSchema, base: Json, a: Axis): Axis
    requires AxisNormalizes(sc, base, a)
  {
    Axis(a.pointer, seq(|a.values|, k requires 0 <= k < |a.values| =>
        NormalValue(sc, base, Tokens(a), a.values[k]).value))
  }

  function NormalSampling(sc: CheckedSchema, base: Json, d: Declaration): Result<Declaration> {
    match d
    case Cartesian(axes, branches) =>
      if forall j | 0 <= j < |axes| :: AxisNormalizes(sc, base, axes[j]) then
        Ok(Cartesian(seq(|axes|, j requires 0 <= j < |axes| => NormalAxis(sc, base, axes[j])), branches))
      else Fail(InvalidSamplePlan)
    case _ => Ok(d)
  }

  /** The seeds of one combination: those declared, or a single absent one. */
  function Branches(branches: Option<seq<int>>): (s: seq<Option<int>>)
    ensures branches.None? ==> s == [None]
    ensures branches.Some? ==> |s| == |branches.value|
  {
    if branches.None? then [None]
    else seq(|branches.value|, i requires 0 <= i < |branches.value| => Some(branches.value[i]))
  }

  /** Payload `k` is combination `k / |seeds|` with seed `k % |seeds|`: seeds vary fastest. */
  function Pair(combinations: seq<Json>, seeds: seq<Option<int>>): (r: seq<Payload>)
    requires seeds != []
    ensures |r| == |combinations| * |seeds|
  {
    seq(|combinations| * |seeds|, k requires 0 <= k < |combinations| * |seeds| =>
      DigitBounds(k, |combinations|, |seeds|);
      Payload(combinations[k / |seeds|], seeds[k % |seeds|]))
  }

  predicate Countable(d: Declaration) {
    d.Cartesian? ==> Proper(d.axes) && (d.branches.Some? ==> d.branches.value != [])
  }

  function Payloads(mode: Mode, parameters: Json, d: Declaration): Option<seq<Payload>>
    requires Countable(d)
  {
    match d
    case Single(seed) => Some([Payload(parameters, seed)])
    case MultipleSeeds(seeds) => Some(seq(|seeds|, i requires 0 <= i < |seeds| => Payload(parameters, Some(seeds[i]))))
    case Cartesian(axes, branches) =>
      match Combinations(mode, axes, parameters)
      case None => None
      case Some(cs) => Some(Pair(cs, Branches(branches)))
  }

  function SampleCount(d: Declaration): nat
    requires Countable(d)
  {
    match d
    case Single(_) => 1
    case MultipleSeeds(seeds) => |seeds|
    case Cartesian(axes, branches) => Product(axes) * |Branches(branches)|
  }

  /** The second validation of each axis value alone, before the expansion. */
  predicate AxisAccepted(sc: CheckedSchema, base: Json, a: Axis) {
    forall k | 0 <= k < |a.values| ::
      var candidate := SchemaSet(sc, sc.root, base, Tokens(a), a.values[k]);
      candidate.Some? && Normalize(sc, sc.root, candidate.value).Some?
  }

  function PlannedPayloads(sc: CheckedSchema, base: Json, d: Declaration, maxSamples: nat): Result<seq<Payload>>
    requires Countable(d)
  {
    if !d.Single? && SampleCount(d) > maxSamples then Fail(SampleLimitExceeded)
    else if d.Cartesian? && exists j | 0 <= j < |d.axes| ::
      !AxisAccepted(sc, base, d.axes[j]) then Fail(InvalidSamplePlan)
    else
      match Payloads(Planned(sc), base, d)
      case None => Fail(InvalidSamplePlan)
      case Some(payloads) => Ok(payloads)
  }

  /** Sample identities in order; a repeated one is refused. */
  function BuildSamples(hash: Hash, payloads: seq<Payload>, done: seq<Sample>): Result<seq<Sample>>
    requires |done| <= |payloads|
    decreases |payloads| - |done|
  {
    if |done| == |payloads| then Ok(done)
    else
      var payload := payloads[|done|];
      var id :- Digest(hash, PayloadJson(payload));
      if exists s | s in done :: s.id == id then Fail(InvalidSamplePlan)
      else BuildSamples(hash, payloads, done + [Sample(|done|, id, payload)])
  }

  function PlanUnder(hash: Hash, sc: CheckedSchema, configuration: Json, maxSamples: nat): Result<Plan> {
    var raw :- ConfigurationRecord(configuration);
    match Normalize(sc, sc.root, raw[F_PARAMETERS])
    case None => Fail(InvalidSamplePlan)
    case Some(base) =>
      if !base.Obj? then Fail(InvalidSamplePlan)
      else
        var declared :- ReadDeclaration(raw[F_SAMPLING]);
        ReadIsWellDeclared(raw[F_SAMPLING]);
        var sampling :- NormalSampling(sc, base, declared);
        var payloads :- PlannedPayloads(sc, base, sampling, maxSamples);
        var c := Configuration(raw[F_RUN_KIND] == Str(V_VISUAL), base, sampling);
        if c.visual && (!sampling.Single? || |payloads| != 1) then Fail(InvalidSamplePlan)
        else if |payloads| > maxSamples then Fail(SampleLimitExceeded)
        else
          var samples :- BuildSamples(hash, payloads, []);
          var configurationDigest :- Digest(hash, ConfigurationJson(c));
          var samplePlanDigest :- Digest(hash, SamplesJson(samples));
          Ok(Plan(c, configurationDigest, |samples|, samples, samplePlanDigest))
  }

  predicate IsLimit(n: int) {
    1 <= n <= MAX_SAFE
  }

  function PlanExperiment(hash: Hash, configuration: Json, inputSchema: Json, maxSamples: int): Result<Plan> {
    if !IsLimit(maxSamples) then Fail(InvalidSamplePlan)
    else
      match ValidateSchemaProfile(inputSchema)
      case Unsupported => Fail(InputSchemaUnsupported)
      case BadDefault => Fail(InvalidSamplePlan)
      case Valid(sc) => PlanUnder(hash, sc, configuration, maxSamples)
  }

  // The revalidator.

  function CheckSample(hash: Hash, item: Json, expected: Payload, done: seq<Sample>): Result<Sample> {
    if !IsRecord(item, SAMPLE_KEYS) then Fail(InvalidSamplePlan)
    else
      var f := item.fields;
      if f[F_SAMPLE_INDEX] != Num(|done|) || !f[F_PARAMETERS].Obj?
          || !Canonical(f[F_PARAMETERS]) then Fail(InvalidSamplePlan)
      else if !(f[F_SEED].Null? || IsSafeNumber(f[F_SEED]))
        || f[F_SEED] != SeedJson(expected.seed) then Fail(InvalidSamplePlan)
      else if f[F_PARAMETERS] != expected.parameters then Fail(InvalidSamplePlan)
      else
        var id :- Digest(hash, PayloadJson(expected));
        if f[F_SAMPLE_ID] != Str(id) || !HexDigest(id) || exists s | s in done ::
            s.id == id then Fail(InvalidSamplePlan)
        else Ok(Sample(|done|, id, expected))
  }

  function CheckSamples(hash: Hash, items: seq<Json>, expected: seq<Payload>, done: seq<Sample>): Result<seq<Sample>>
    requires |items| == |expected| && |done| <= |items|
    decreases |items| - |done|
  {
    if |done| == |items| then Ok(done)
    else
      var sample :- CheckSample(hash, items[|done|], expected[|done|], done);
      CheckSamples(hash, items, expected, done + [sample])
  }

  function CheckedConfiguration(v: Json): (r: Result<Configuration>)
    ensures r.Ok? ==> v == ConfigurationJson(r.value) && WellDeclared(r.value.sampling) && r.value.parameters.Obj?
  {
    var raw :- ConfigurationRecord(v);
    var sampling :- ReadDeclaration(raw[F_SAMPLING]);
    ReadIsWellDeclared(raw[F_SAMPLING]);
    var c := Configuration(raw[F_RUN_KIND] == Str(V_VISUAL), raw[F_PARAMETERS], sampling);
    if v == ConfigurationJson(c) then Ok(c) else Fail(InvalidSamplePlan)
  }

  lemma DeclaredIsCountable(d: Declaration)
    requires WellDeclared(d)
    ensures Countable(d)
  {
    if d.Cartesian? {
      forall i | 0 <= i < |d.axes|
        ensures d.axes[i].values != []
      {
        assert ProperAxis(d.axes[i]);
      }
    }
  }

  function AssertExperimentPlan(hash: Hash, input: Json, maxSamples: Option<int>): Result<Plan> {
    if maxSamples.Some? && !IsLimit(maxSamples.value) then Fail(InvalidSamplePlan)
    else if !Canonical(input) || !IsRecord(input, PLAN_KEYS) then Fail(InvalidSamplePlan)
    else
      var f := input.fields;
      var c :- CheckedConfiguration(f[F_CONFIGURATION]);
      DeclaredIsCountable(c.sampling);
      var digest :- Digest(hash, f[F_CONFIGURATION]);
      if f[F_CONFIGURATION_DIGEST] != Str(digest) || !HexDigest(digest) then Fail(InvalidSamplePlan)
      else if !f[F_SAMPLE_COUNT].Num? || !IsLimit(f[F_SAMPLE_COUNT].n) || !f[F_SAMPLES].Arr?
        || |f[F_SAMPLES].items| != f[F_SAMPLE_COUNT].n then Fail(InvalidSamplePlan)
      else
        var count := SampleCount(c.sampling);
        if (c.sampling.Cartesian? && count > MAX_SAFE) || count != f[F_SAMPLE_COUNT].n then Fail(InvalidSamplePlan)
        else if maxSamples.Some? && count > maxSamples.value then Fail(SampleLimitExceeded)
        else if c.visual && (!c.sampling.Single? || count != 1) then Fail(InvalidSamplePlan)
        else
          match Payloads(Declared, c.parameters, c.sampling)
          case None => Fail(InvalidSamplePlan)
          case Some(expected) =>
            if |expected| != count then Fail(InvalidSamplePlan)
            else
              var samples :- CheckSamples(hash, f[F_SAMPLES].items, expected, []);
              var planDigest :- Digest(hash, SamplesJson(samples));
              if f[F_PLAN_DIGEST] != Str(planDigest) || !HexDigest(planDigest) then Fail(InvalidSamplePlan)
              else Ok(Plan(c, digest, count, samples, planDigest))
  }
}
