/** Sampling declarations: reading one from JSON, counting its samples, and expanding its axes. */
module Sampling {
  import opened CanonicalJson
  import opened JsonPointer

  datatype Code =
    | InvalidSamplePlan
    | SampleLimitExceeded
    | DuplicateSampleSeed
    | DuplicateSweepValue
    | OverlappingSweepPointer
    | InputSchemaUnsupported
    | Thrown  // a TypeError from the encoder

  datatype Result<+T> = Ok(value: T) | Fail(code: Code) {
    predicate IsFailure() {
      Fail?
    }

    function PropagateFailure<U>(): Result<U>
      requires Fail?
    {
      Fail(code)
    }

    function Extract(): T
      requires Ok?
    {
      value
    }
  }

  datatype Axis = Axis(pointer: Text, values: seq<Json>)

  datatype Declaration =
    | Single(seed: Option<int>)
    | MultipleSeeds(seeds: seq<int>)
    | Cartesian(axes: seq<Axis>, branches: Option<seq<int>>)

  const F_KIND: Text := Ascii("kind")
  const F_SEED: Text := Ascii("seed")
  const F_SEEDS: Text := Ascii("seeds")
  const F_AXES: Text := Ascii("axes")
  const F_POINTER: Text := Ascii("pointer")
  const F_VALUES: Text := Ascii("values")
  const V_SINGLE: Text := Ascii("single")
  const V_MULTIPLE: Text := Ascii("multiple-seeds")
  const V_CARTESIAN: Text := Ascii("cartesian-sweep")

  predicate IsRecord(v: Json, keys: set<Text>) {
    v.Obj? && v.fields.Keys == keys
  }

  // Writing a declaration as JSON.

  function SeedsJson(seeds: seq<int>): Json {
    Arr(seq(|seeds|, i requires 0 <= i < |seeds| => Num(seeds[i])))
  }

  function AxisJson(a: Axis): Json {
    Obj(map[F_POINTER := Str(a.pointer), F_VALUES := Arr(a.values)])
  }

  function AxesJson(axes: seq<Axis>): Json {
    Arr(seq(|axes|, i requires 0 <= i < |axes| => AxisJson(axes[i])))
  }

  function DeclarationJson(d: Declaration): Json {
    match d
    case Single(None) => Obj(map[F_KIND := Str(V_SINGLE)])
    case Single(Some(seed)) => Obj(map[F_KIND := Str(V_SINGLE), F_SEED := Num(seed)])
    case MultipleSeeds(seeds) => Obj(map[F_KIND := Str(V_MULTIPLE), F_SEEDS := SeedsJson(seeds)])
    case Cartesian(axes, None) => Obj(map[F_KIND := Str(V_CARTESIAN), F_AXES := AxesJson(axes)])
    case Cartesian(axes, Some(seeds)) =>
      Obj(map[F_KIND := Str(V_CARTESIAN), F_AXES := AxesJson(axes), F_SEEDS := SeedsJson(seeds)])
  }

  // Reading one: `samplingRecord`, `validateSeeds`, `normalizeSampling`.

  function SamplingRecord(v: Json): Result<Json> {
    if !v.Obj? || F_KIND !in v.fields || !v.fields[F_KIND].Str? then Fail(InvalidSamplePlan)
    else
      var kind := v.fields[F_KIND].s;
      var keys :=
        if kind == V_SINGLE then (if F_SEED in v.fields then {F_KIND, F_SEED} else {F_KIND})
        else if kind == V_MULTIPLE then {F_KIND, F_SEEDS}
        else if kind == V_CARTESIAN then (if F_SEEDS in v.fields then {F_KIND, F_AXES, F_SEEDS} else {F_KIND, F_AXES})
        else {};
      if IsRecord(v, keys) then Ok(v) else Fail(InvalidSamplePlan)
  }

  predicate IsSafeNumber(v: Json) {
    v.Num? && IsSafe(v.n)
  }

  /** The seeds of a list, in order; the first offending item decides the error. */
  function SeedList(items: seq<Json>, seen: seq<int>): (r: Result<seq<int>>)
    ensures r.Ok? ==> seen <= r.value && |r.value| == |seen| + |items|
    decreases items
  {
    if items == [] then Ok(seen)
    else if !IsSafeNumber(items[0]) then Fail(InvalidSamplePlan)
    else if items[0].n in seen then Fail(DuplicateSampleSeed)
    else SeedList(items[1..], seen + [items[0].n])
  }

  function ValidateSeeds(v: Json): Result<seq<int>>
    requires SamplingRecord(v).Ok?
  {
    if v.fields[F_KIND].s == V_SINGLE then
      if F_SEED !in v.fields then Ok([])
      else if IsSafeNumber(v.fields[F_SEED]) then Ok([v.fields[F_SEED].n])
      else Fail(InvalidSamplePlan)
    else if F_SEEDS in v.fields then
      var raw := v.fields[F_SEEDS];
      if !raw.Arr? || raw.items == [] then Fail(InvalidSamplePlan) else SeedList(raw.items, [])
    else Ok([])
  }

  /** One pass over the values of an axis, with the values seen so far. */
  function AxisValues(items: seq<Json>, seen: seq<Json>): (r: Result<seq<Json>>)
    ensures r.Ok? ==> r.value == seen + items
    decreases items
  {
    if items == [] then
      assert seen + items == seen;
      Ok(seen)
    else if !Canonical(items[0]) then Fail(InvalidSamplePlan)
    else if items[0] in seen then Fail(DuplicateSweepValue)
    else
      assert seen + [items[0]] + items[1..] == seen + items;
      AxisValues(items[1..], seen + [items[0]])
  }

  /** The root pointer is refused: without `allowRoot` it is not even a pointer. */
  function ReadAxis(v: Json): Result<Axis> {
    if !IsRecord(v, {F_POINTER, F_VALUES}) then Fail(InvalidSamplePlan)
    else if !v.fields[F_POINTER].Str?
      || ParsePointer(v.fields[F_POINTER].s, false).None? then Fail(OverlappingSweepPointer)
    else if !v.fields[F_VALUES].Arr? || v.fields[F_VALUES].items == [] then Fail(InvalidSamplePlan)
    else
      var values :- AxisValues(v.fields[F_VALUES].items, []);
      Ok(Axis(Format(ParsePointer(v.fields[F_POINTER].s, false).value), values))
  }

  function ReadAxes(items: seq<Json>, done: seq<Axis>): (r: Result<seq<Axis>>)
    decreases items
  {
    if items == [] then Ok(done)
    else
      var axis :- ReadAxis(items[0]);
      ReadAxes(items[1..], done + [axis])
  }

  /** The tokens of an axis pointer. */
  function Tokens(a: Axis): seq<Text> {
    match ParsePointer(a.pointer, false)
    case Some(tokens) => tokens
    case None => []
  }

  predicate Disjoint(axes: seq<Axis>) {
    forall i, j | 0 <= i < j < |axes| :: Independent(Tokens(axes[i]), Tokens(axes[j]))
  }

  function NormalizeSampling(v: Json, seeds: seq<int>): Result<Declaration>
    requires SamplingRecord(v).Ok? && ValidateSeeds(v) == Ok(seeds)
  {
    var kind := v.fields[F_KIND].s;
    if kind == V_SINGLE then Ok(Single(if F_SEED in v.fields then Some(seeds[0]) else None))
    else if kind == V_MULTIPLE then Ok(MultipleSeeds(seeds))
    else if !v.fields[F_AXES].Arr? || v.fields[F_AXES].items == [] then Fail(InvalidSamplePlan)
    else
      var axes :- ReadAxes(v.fields[F_AXES].items, []);
      if Disjoint(axes) then Ok(Cartesian(axes, if F_SEEDS in v.fields then Some(seeds) else None))
      else Fail(OverlappingSweepPointer)
  }

  function ReadDeclaration(v: Json): Result<Declaration> {
    var record :- SamplingRecord(v);
    var seeds :- ValidateSeeds(v);
    NormalizeSampling(v, seeds)
  }

  // What a declaration that was read satisfies.

  predicate DistinctSeeds(seeds: seq<int>) {
    && seeds != []
    && (forall i | 0 <= i < |seeds| :: IsSafe(seeds[i]))
    && forall i, j | 0 <= i < j < |seeds| :: seeds[i] != seeds[j]
  }

  predicate DistinctValues(values: seq<Json>) {
    && values != []
    && (forall i | 0 <= i < |values| :: Canonical(values[i]))
    && forall i, j | 0 <= i < j < |values| :: values[i] != values[j]
  }

  /** A pointer in normal form, other than the root. */
  predicate ProperPointer(p: Text) {
    ParsePointer(p, false).Some? && Format(ParsePointer(p, false).value) == p
  }

  predicate ProperAxis(a: Axis) {
    ProperPointer(a.pointer) && DistinctValues(a.values)
  }

  predicate WellDeclared(d: Declaration) {
    match d
    case Single(seed) => seed.Some? ==> IsSafe(seed.value)
    case MultipleSeeds(seeds) => DistinctSeeds(seeds)
    case Cartesian(axes, branches) =>
      && axes != [] && (forall i | 0 <= i < |axes| :: ProperAxis(axes[i])) && Disjoint(axes)
      && (branches.Some? ==> DistinctSeeds(branches.value))
  }

  lemma {:induction false} SeedListIsDistinct(items: seq<Json>, seen: seq<int>)
    requires seen == [] || DistinctSeeds(seen)
    requires SeedList(items, seen).Ok?
    ensures var r := SeedList(items, seen).value;
            (items != [] || seen != [] ==> DistinctSeeds(r)) && (items == [] ==> r == seen)
    decreases items
  {
    if items != [] {
      SeedListIsDistinct(items[1..], seen + [items[0].n]);
    }
  }

  lemma {:induction false} SeedListReads(seeds: seq<int>, k: nat)
    requires DistinctSeeds(seeds) && k <= |seeds|
    ensures SeedList(SeedsJson(seeds).items[k..], seeds[..k]) == Ok(seeds)
    decreases |seeds| - k
  {
    var items := SeedsJson(seeds).items;
    if k == |seeds| {
      assert items[k..] == [] && seeds[..k] == seeds;
    } else {
      assert items[k..][1..] == items[k + 1..];
      assert seeds[..k] + [seeds[k]] == seeds[..k + 1];
      assert items[k] == Num(seeds[k]);
      SeedListReads(seeds, k + 1);
    }
  }

  lemma {:induction false} AxisValuesDistinct(items: seq<Json>, seen: seq<Json>)
    requires AxisValues(items, seen).Ok?
    requires seen == [] || DistinctValues(seen)
    ensures items != [] || seen != [] ==> DistinctValues(seen + items)
    decreases items
  {
    if items == [] {
      assert seen + items == seen;
    } else {
      AxisValuesDistinct(items[1..], seen + [items[0]]);
      assert seen + [items[0]] + items[1..] == seen + items;
    }
  }

  lemma {:induction false} AxisValuesReads(values: seq<Json>, k: nat)
    requires DistinctValues(values) && k <= |values|
    ensures AxisValues(values[k..], values[..k]) == Ok(values)
    decreases |values| - k
  {
    if k == |values| {
      assert values[k..] == [] && values[..k] == values;
    } else {
      assert values[k..][1..] == values[k + 1..];
      assert values[..k] + [values[k]] == values[..k + 1];
      AxisValuesReads(values, k + 1);
    }
  }

  lemma ReadAxisIsProper(v: Json)
    requires ReadAxis(v).Ok?
    ensures ProperAxis(ReadAxis(v).value) && v == AxisJson(ReadAxis(v).value)
  {
    var p, items := v.fields[F_POINTER].s, v.fields[F_VALUES].items;
    AcceptedPointerIsNormal(p, false);
    AxisValuesDistinct(items, []);
    assert [] + items == items;
    assert v.fields == AxisJson(ReadAxis(v).value).fields;
  }

  lemma ReadAxisReads(a: Axis)
    requires ProperAxis(a)
    ensures ReadAxis(AxisJson(a)) == Ok(a)
  {
    AxisValuesReads(a.values, 0);
    assert a.values[0..] == a.values && a.values[..0] == [];
    assert F_POINTER != F_VALUES by { assert F_POINTER[0] != F_VALUES[0]; }
    assert AxisJson(a).fields.Keys == {F_POINTER, F_VALUES};
  }

  lemma {:induction false} ReadAxesAreProper(items: seq<Json>, done: seq<Axis>)
    requires ReadAxes(items, done).Ok?
    requires forall i | 0 <= i < |done| :: ProperAxis(done[i])
    ensures var r := ReadAxes(items, done).value;
            && done <= r && |r| == |done| + |items|
            && (forall i | 0 <= i < |r| :: ProperAxis(r[i]))
            && forall i | 0 <= i < |items| :: items[i] == AxisJson(r[|done| + i])
    decreases items
  {
    hide ReadAxis, ProperAxis, AxisJson;
    if items != [] {
      ReadAxisIsProper(items[0]);
      ReadAxesAreProper(items[1..], done + [ReadAxis(items[0]).value]);
    }
  }

  lemma {:induction false} ReadAxesReads(axes: seq<Axis>, k: nat)
    requires k <= |axes| && forall i | 0 <= i < |axes| :: ProperAxis(axes[i])
    ensures ReadAxes(AxesJson(axes).items[k..], axes[..k]) == Ok(axes)
    decreases |axes| - k
  {
    hide ReadAxis, ProperAxis, AxisJson;
    var items := AxesJson(axes).items;
    if k == |axes| {
      assert items[k..] == [] && axes[..k] == axes;
    } else {
      assert items[k..][1..] == items[k + 1..];
      assert axes[..k] + [axes[k]] == axes[..k + 1];
      ReadAxisReads(axes[k]);
      ReadAxesReads(axes, k + 1);
    }
  }

  lemma FieldNamesDiffer()
    ensures F_KIND != F_SEED && F_KIND != F_SEEDS && F_KIND != F_AXES && F_SEEDS != F_AXES && F_SEED != F_SEEDS
    ensures V_SINGLE != V_MULTIPLE && V_SINGLE != V_CARTESIAN && V_MULTIPLE != V_CARTESIAN
  {
    assert F_KIND[0] != F_SEED[0] && F_KIND[0] != F_SEEDS[0] && F_KIND[0] != F_AXES[0] && F_SEEDS[0] != F_AXES[0];
    assert |F_SEED| != |F_SEEDS|;
  }

  /** What is read is well declared, and the JSON it was read from is the one its own form writes. */
  lemma ReadIsWellDeclared(v: Json)
    requires ReadDeclaration(v).Ok?
    ensures WellDeclared(ReadDeclaration(v).value)
    ensures v == DeclarationJson(ReadDeclaration(v).value)
  {
    hide ReadAxes, SeedList, Disjoint, ProperAxis, AxisJson;
    FieldNamesDiffer();
    var d := ReadDeclaration(v).value;
    var f := v.fields;
    match d
    case Single(_) =>
      assert f == DeclarationJson(d).fields;
    case MultipleSeeds(seeds) =>
      SeedListIsDistinct(f[F_SEEDS].items, []);
      SeedListWrites(f[F_SEEDS].items, []);
      assert SeedsJson([]).items + f[F_SEEDS].items == f[F_SEEDS].items;
      assert f == DeclarationJson(d).fields;
    case Cartesian(axes, branches) =>
      ReadAxesAreProper(f[F_AXES].items, []);
      assert f[F_AXES].items == AxesJson(axes).items;
      if F_SEEDS in f {
        SeedListIsDistinct(f[F_SEEDS].items, []);
        SeedListWrites(f[F_SEEDS].items, []);
        assert SeedsJson([]).items + f[F_SEEDS].items == f[F_SEEDS].items;
      }
      assert f == DeclarationJson(d).fields;
  }

  lemma {:induction false} SeedListWrites(items: seq<Json>, seen: seq<int>)
    requires SeedList(items, seen).Ok?
    ensures SeedsJson(SeedList(items, seen).value) == Arr(SeedsJson(seen).items + items)
    decreases items
  {
    if items == [] {
      assert SeedsJson(seen).items + items == SeedsJson(seen).items;
    } else {
      var more := seen + [items[0].n];
      SeedListWrites(items[1..], more);
      assert SeedsJson(more).items + items[1..] == SeedsJson(seen).items + items;
    }
  }

  /** A well-declared sampling is read back unchanged from what it writes. */
  lemma ReadUndoesWrite(d: Declaration)
    requires WellDeclared(d)
    ensures ReadDeclaration(DeclarationJson(d)) == Ok(d)
  {
    hide ReadAxes, SeedList, Disjoint, ProperAxis, AxisJson;
    FieldNamesDiffer();
    var v := DeclarationJson(d);
    match d
    case Single(seed) =>
      assert v.fields.Keys == if seed.Some? then {F_KIND, F_SEED} else {F_KIND};
    case MultipleSeeds(seeds) =>
      SeedListReads(seeds, 0);
      assert SeedsJson(seeds).items[0..] == SeedsJson(seeds).items && seeds[..0] == [];
      assert v.fields.Keys == {F_KIND, F_SEEDS};
    case Cartesian(axes, branches) =>
      ReadAxesReads(axes, 0);
      assert AxesJson(axes).items[0..] == AxesJson(axes).items && axes[..0] == [];
      assert v.fields.Keys == if branches.Some? then {F_KIND, F_AXES, F_SEEDS} else {F_KIND, F_AXES};
      if branches.Some? {
        SeedListReads(branches.value, 0);
        assert SeedsJson(branches.value).items[0..] == SeedsJson(branches.value).items && branches.value[..0] == [];
      }
  }

  lemma SeedsJsonIsInjective(a: seq<int>, b: seq<int>)
    requires SeedsJson(a) == SeedsJson(b)
    ensures a == b
  {
    forall i | 0 <= i < |a|
      ensures |a| == |b| && a[i] == b[i]
    {
      assert SeedsJson(a).items[i] == SeedsJson(b).items[i];
    }
  }

  lemma AxesJsonIsInjective(a: seq<Axis>, b: seq<Axis>)
    requires AxesJson(a) == AxesJson(b)
    ensures a == b
  {
    assert F_POINTER != F_VALUES by { assert F_POINTER[0] != F_VALUES[0]; }
    forall i | 0 <= i < |a|
      ensures |a| == |b| && a[i] == b[i]
    {
      assert AxesJson(a).items[i] == AxesJson(b).items[i];
      assert AxisJson(a[i]).fields[F_POINTER] == AxisJson(b[i]).fields[F_POINTER];
      assert AxisJson(a[i]).fields[F_VALUES] == AxisJson(b[i]).fields[F_VALUES];
    }
  }

  /** The parts of a declaration are those of its JSON. */
  lemma DeclarationFields(d: Declaration)
    ensures var v := DeclarationJson(d);
            && v.Obj? && F_KIND in v.fields
            && v.fields[F_KIND] == Str(if d.Single? then V_SINGLE else if d.MultipleSeeds? then V_MULTIPLE
               else V_CARTESIAN)
            && (d.Single? ==>
               (F_SEED in v.fields <==> d.seed.Some?) && (d.seed.Some? ==> v.fields[F_SEED] == Num(d.seed.value)))
            && (d.MultipleSeeds? ==> F_SEEDS in v.fields && v.fields[F_SEEDS] == SeedsJson(d.seeds))
            && (d.Cartesian? ==> F_AXES in v.fields && v.fields[F_AXES] == AxesJson(d.axes))
            && (d.Cartesian? ==> (F_SEEDS in v.fields <==> d.branches.Some?))
            && (d.Cartesian? && d.branches.Some? ==> v.fields[F_SEEDS] == SeedsJson(d.branches.value))
  {
    hide SeedsJson, AxesJson;
    FieldNamesDiffer();
  }

  /** Different declarations are written differently, well declared or not. */
  lemma DeclarationJsonIsInjective(a: Declaration, b: Declaration)
    requires DeclarationJson(a) == DeclarationJson(b)
    ensures a == b
  {
    DeclarationFields(a);
    DeclarationFields(b);
    FieldNamesDiffer();
    hide DeclarationJson, SeedsJson, AxesJson, F_KIND, F_SEED, F_SEEDS, F_AXES, V_SINGLE, V_MULTIPLE, V_CARTESIAN;
    match a
    case Single(_) =>
    case MultipleSeeds(seeds) =>
      SeedsJsonIsInjective(seeds, b.seeds);
    case Cartesian(axes, branches) =>
      AxesJsonIsInjective(axes, b.axes);
      if branches.Some? {
        SeedsJsonIsInjective(branches.value, b.branches.value);
      }
  }
}
