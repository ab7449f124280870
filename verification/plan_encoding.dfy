/** Everything of a plan that is digested can be encoded. */
module PlanEncoding {
  import opened CanonicalJson
  import opened CanonicalBytes
  import opened JsonPointer
  import opened Sampling
  import opened Planner
  import opened PlannerLaws

  lemma RecordIsCanonical(fields: map<Text, Json>)
    requires forall k | k in fields :: Harmless(k) && Canonical(fields[k])
    ensures Canonical(Obj(fields))
  {
    hide WellFormed, DangerousKey;
  }

  lemma ConfigurationNames()
    ensures Harmless(F_VERSION) && Harmless(F_RUN_KIND) && Harmless(F_PARAMETERS) && Harmless(F_SAMPLING)
  {
    hide Harmless;
    NameIsHarmless(F_VERSION);
    NameIsHarmless(F_RUN_KIND);
    NameIsHarmless(F_PARAMETERS);
    NameIsHarmless(F_SAMPLING);
  }

  lemma SampleNames()
    ensures Harmless(F_SAMPLE_INDEX) && Harmless(F_SAMPLE_ID) && Harmless(F_SEED)
  {
    hide Harmless;
    NameIsHarmless(F_SAMPLE_INDEX);
    NameIsHarmless(F_SAMPLE_ID);
    NameIsHarmless(F_SEED);
  }

  lemma DeclarationNames()
    ensures Harmless(F_KIND) && Harmless(F_AXES) && Harmless(F_SEEDS) && Harmless(F_POINTER) && Harmless(F_VALUES)
  {
    hide Harmless;
    NameIsHarmless(F_KIND);
    NameIsHarmless(F_AXES);
    NameIsHarmless(F_SEEDS);
    NameIsHarmless(F_POINTER);
    NameIsHarmless(F_VALUES);
  }

  lemma KindsAreCanonical()
    ensures Canonical(Str(V_SINGLE)) && Canonical(Str(V_MULTIPLE)) && Canonical(Str(V_CARTESIAN))
    ensures Canonical(Str(V_BATCH)) && Canonical(Str(V_VISUAL))
  {
    assert NoSurrogates(V_SINGLE) && NoSurrogates(V_MULTIPLE) && NoSurrogates(V_CARTESIAN);
    assert NoSurrogates(V_BATCH) && NoSurrogates(V_VISUAL);
    hide V_SINGLE, V_MULTIPLE, V_CARTESIAN, V_BATCH, V_VISUAL;
    PlainTextIsWellFormed(V_SINGLE);
    PlainTextIsWellFormed(V_MULTIPLE);
    PlainTextIsWellFormed(V_CARTESIAN);
    PlainTextIsWellFormed(V_BATCH);
    PlainTextIsWellFormed(V_VISUAL);
  }

  // Pointers.

  lemma {:induction false} EncodedTokenIsWellFormed(t: Text)
    requires WellFormed(t)
    ensures WellFormed(EncodeToken(t))
  {
    if t != [] {
      if HighSurrogate(t[0]) {
        EncodedTokenIsWellFormed(t[2..]);
        assert t[1..][1..] == t[2..] && t[1..][0] == t[1];
        assert EncodeToken(t) == [t[0], t[1]] + EncodeToken(t[2..]);
        assert EncodeToken(t)[2..] == EncodeToken(t[2..]);
      } else {
        EncodedTokenIsWellFormed(t[1..]);
        EncodedUnitIsWellFormed(t[0]);
        WellFormedConcat(EncodeUnit(t[0]), EncodeToken(t[1..]));
      }
    }
  }

  lemma EncodedUnitIsWellFormed(u: CodeUnit)
    requires !HighSurrogate(u) && !LowSurrogate(u)
    ensures WellFormed(EncodeUnit(u))
  {
    var e := EncodeUnit(u);
    if e == [u] {
      assert e[1..] == [];
    } else {
      PlainTextIsWellFormed(e);
    }
  }

  lemma {:induction false} SlashedIsWellFormed(parts: seq<Text>)
    requires forall i | 0 <= i < |parts| :: WellFormed(parts[i])
    ensures WellFormed(Slashed(parts))
  {
    hide WellFormed;
    if parts == [] {
      PlainTextIsWellFormed([]);
    } else {
      SlashedIsWellFormed(parts[1..]);
      PlainTextIsWellFormed([SLASH]);
      WellFormedConcat([SLASH], parts[0]);
      WellFormedConcat([SLASH] + parts[0], Slashed(parts[1..]));
    }
  }

  lemma FormatIsWellFormed(tokens: seq<Text>)
    requires forall i | 0 <= i < |tokens| :: WellFormed(tokens[i])
    ensures WellFormed(Format(tokens))
  {
    hide WellFormed, EscapeToken;
    forall i | 0 <= i < |tokens|
      ensures WellFormed(MapEscape(tokens)[i])
    {
      EscapeIsOnePass(tokens[i]);
      EncodedTokenIsWellFormed(tokens[i]);
    }
    SlashedIsWellFormed(MapEscape(tokens));
  }

  /** A pointer that reads something in canonical JSON meets no lone surrogate and no prototype. */
  lemma {:induction false} ReadTokensAreHarmless(v: Json, p: seq<Text>)
    requires Canonical(v) && Get(v, p).Some?
    ensures forall i | 0 <= i < |p| :: WellFormed(p[i]) && !IsProto(p[i])
    decreases p
  {
    hide WellFormed;
    if p != [] {
      if v.Arr? {
        IndexIsHarmless(p[0]);
      }
      ReadTokensAreHarmless(Child(v, p[0]), p[1..]);
      assert forall i | 1 <= i < |p| :: p[i] == p[1..][i - 1];
    }
  }

  lemma IndexIsHarmless(t: Text)
    requires ArrayIndex(t).Some?
    ensures WellFormed(t) && !IsProto(t)
  {
    PlainTextIsWellFormed(t);
    assert Ascii("__proto__")[0] == 0x5F;
  }

  // Records.

  /** The parts of a declaration that its JSON shows as text or values. */
  predicate Encodable(d: Declaration) {
    match d
    case Single(seed) => seed.Some? ==> IsSafe(seed.value)
    case MultipleSeeds(seeds) => forall i | 0 <= i < |seeds| :: IsSafe(seeds[i])
    case Cartesian(axes, branches) =>
      && (forall j | 0 <= j < |axes| :: EncodableAxis(axes[j]))
      && (branches.Some? ==> forall i | 0 <= i < |branches.value| :: IsSafe(branches.value[i]))
  }

  predicate EncodableAxis(a: Axis) {
    WellFormed(a.pointer) && forall k | 0 <= k < |a.values| :: Canonical(a.values[k])
  }

  lemma AxisFields(a: Axis)
    ensures var v := AxisJson(a);
            v.Obj? && v.fields.Keys == {F_POINTER, F_VALUES} && v.fields[F_POINTER] == Str(a.pointer)
                && v.fields[F_VALUES] == Arr(a.values)
  {
    assert F_POINTER[0] != F_VALUES[0];
  }

  lemma AxisIsCanonical(a: Axis)
    requires EncodableAxis(a)
    ensures Canonical(AxisJson(a))
  {
    AxisFields(a);
    assert Canonical(Str(a.pointer)) && Canonical(Arr(a.values));
    hide Harmless, F_POINTER, F_VALUES, Canonical, AxisJson;
    DeclarationNames();
    RecordIsCanonical(AxisJson(a).fields);
  }

  lemma SeedsAreCanonical(seeds: seq<int>)
    requires forall i | 0 <= i < |seeds| :: IsSafe(seeds[i])
    ensures Canonical(SeedsJson(seeds))
  {
  }

  lemma AxesAreCanonical(axes: seq<Axis>)
    requires forall j | 0 <= j < |axes| :: EncodableAxis(axes[j])
    ensures Canonical(AxesJson(axes))
  {
    hide AxisJson, EncodableAxis;
    forall j | 0 <= j < |axes|
      ensures Canonical(AxisJson(axes[j]))
    {
      AxisIsCanonical(axes[j]);
    }
  }

  lemma DeclarationKeys(d: Declaration)
    ensures var v := DeclarationJson(d); v.Obj? && v.fields.Keys <= {F_KIND, F_SEED, F_SEEDS, F_AXES}
    ensures F_SEED in DeclarationJson(d).fields ==> d.Single? && d.seed.Some?
    ensures F_AXES in DeclarationJson(d).fields ==> d.Cartesian?
    ensures F_SEEDS in DeclarationJson(d).fields ==> d.MultipleSeeds? || (d.Cartesian? && d.branches.Some?)
  {
    hide SeedsJson, AxesJson;
    FieldNamesDiffer();
    assert F_SEED != F_AXES by { assert F_SEED[0] != F_AXES[0]; }
  }

  lemma SeedsOfDeclaration(d: Declaration)
    requires Encodable(d) && F_SEEDS in DeclarationJson(d).fields
    ensures Canonical(DeclarationJson(d).fields[F_SEEDS])
  {
    DeclarationKeys(d);
    DeclarationFields(d);
    hide DeclarationJson, SeedsJson, AxesJson, F_KIND, F_SEED, F_SEEDS, F_AXES, EncodableAxis;
    SeedsAreCanonical(if d.MultipleSeeds? then d.seeds else d.branches.value);
  }

  lemma AxesOfDeclaration(d: Declaration)
    requires Encodable(d) && F_AXES in DeclarationJson(d).fields
    ensures Canonical(DeclarationJson(d).fields[F_AXES])
  {
    DeclarationKeys(d);
    DeclarationFields(d);
    hide DeclarationJson, SeedsJson, AxesJson, F_KIND, F_SEED, F_SEEDS, F_AXES, EncodableAxis;
    AxesAreCanonical(d.axes);
  }

  lemma DeclarationIsCanonical(d: Declaration)
    requires Encodable(d)
    ensures Canonical(DeclarationJson(d))
  {
    DeclarationKeys(d);
    DeclarationFields(d);
    assert d.Single? && d.seed.Some? ==> Canonical(Num(d.seed.value));
    hide Harmless, Canonical, DeclarationJson, SeedsJson, AxesJson, Encodable;
    hide F_KIND, F_SEED, F_SEEDS, F_AXES, V_SINGLE, V_MULTIPLE, V_CARTESIAN;
    DeclarationNames();
    SampleNames();
    KindsAreCanonical();
    var f := DeclarationJson(d).fields;
    forall k | k in f
      ensures Harmless(k) && Canonical(f[k])
    {
      if k == F_SEEDS {
        SeedsOfDeclaration(d);
      } else if k == F_AXES {
        AxesOfDeclaration(d);
      }
    }
    RecordIsCanonical(f);
  }

  lemma ConfigurationIsCanonical(c: Configuration)
    requires Canonical(c.parameters) && Encodable(c.sampling)
    ensures Canonical(ConfigurationJson(c))
  {
    assert Canonical(Num(1));
    ConfigurationFields(c);
    DeclarationIsCanonical(c.sampling);
    hide Harmless, F_VERSION, F_RUN_KIND, F_PARAMETERS, F_SAMPLING, V_BATCH, V_VISUAL, Canonical, ConfigurationJson;
    hide DeclarationJson;
    ConfigurationNames();
    KindsAreCanonical();
    RecordIsCanonical(ConfigurationJson(c).fields);
  }

  predicate EncodablePayload(p: Payload) {
    Canonical(p.parameters) && (p.seed.Some? ==> IsSafe(p.seed.value))
  }

  lemma SeedIsCanonical(seed: Option<int>)
    requires seed.Some? ==> IsSafe(seed.value)
    ensures Canonical(SeedJson(seed))
  {
  }

  lemma PayloadFields(p: Payload)
    ensures var v := PayloadJson(p);
            && v.Obj? && v.fields.Keys == {F_VERSION, F_PARAMETERS, F_SEED}
            && v.fields[F_VERSION] == Num(1) && v.fields[F_PARAMETERS] == p.parameters
            && v.fields[F_SEED] == SeedJson(p.seed)
  {
    hide SeedJson;
    assert |F_SEED| == 4 && |F_PARAMETERS| == 10 && |F_VERSION| == 13;
  }

  lemma PayloadIsCanonical(p: Payload)
    requires EncodablePayload(p)
    ensures Canonical(PayloadJson(p))
  {
    assert Canonical(Num(1));
    PayloadFields(p);
    SeedIsCanonical(p.seed);
    hide Harmless, F_VERSION, F_PARAMETERS, F_SEED, Canonical, PayloadJson, SeedJson;
    ConfigurationNames();
    SampleNames();
    RecordIsCanonical(PayloadJson(p).fields);
  }

  lemma SampleIsCanonical(s: Sample)
    requires EncodablePayload(s.payload) && HexDigest(s.id) && s.index <= MAX_SAFE
    ensures Canonical(SampleJson(s))
  {
    assert Canonical(Num(s.index));
    assert Canonical(Str(s.id)) by { HexIsPlain(s.id); }
    SampleFields(s);
    SeedIsCanonical(s.payload.seed);
    hide Harmless, F_SAMPLE_INDEX, F_SAMPLE_ID, F_PARAMETERS, F_SEED, SampleJson, SeedJson, HexDigest, Canonical;
    ConfigurationNames();
    SampleNames();
    RecordIsCanonical(SampleJson(s).fields);
  }

  lemma SamplesAreCanonical(samples: seq<Sample>)
    requires forall i | 0 <= i < |samples| ::
             EncodablePayload(samples[i].payload) && HexDigest(samples[i].id) && samples[i].index <= MAX_SAFE
    ensures Canonical(SamplesJson(samples))
  {
    hide SampleJson, EncodablePayload, HexDigest;
    forall i | 0 <= i < |samples|
      ensures Canonical(SampleJson(samples[i]))
    {
      SampleIsCanonical(samples[i]);
    }
  }
}
