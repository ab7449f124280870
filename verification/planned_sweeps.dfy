/** What the planner's normalization of single axis values means for the combinations of the sweep. */
module PlannedSweeps {
  import opened CanonicalJson
  import opened JsonPointer
  import opened Normalization
  import opened NormalizationLaws
  import opened NormalForms
  import opened FixedPoints
  import opened SchemaValidation
  import opened Sampling
  import opened CartesianExpansion
  import opened ExpansionLaws
  import opened Planner

  ghost predicate NormalizedFrom(sc: CheckedSchema, base: Json, declared: Declaration, d: Declaration) {
    NormalSampling(sc, base, declared) == Ok(d)
  }

  lemma {:induction false} GetIsCanonical(v: Json, p: seq<Text>)
    requires Canonical(v) && Get(v, p).Some?
    ensures Canonical(Get(v, p).value)
    decreases p
  {
    if p != [] {
      GetIsCanonical(Child(v, p[0]), p[1..]);
    }
  }

  lemma NormalValueIsCanonical(sc: CheckedSchema, base: Json, tokens: seq<Text>, x: Json)
    requires NormalValue(sc, base, tokens, x).Some?
    ensures Canonical(NormalValue(sc, base, tokens, x).value)
  {
    hide Set, Get, Normalize, SchemaSet;
    var candidate := SchemaSet(sc, sc.root, base, tokens, x).value;
    NormalizedIsCanonical(sc, sc.root, candidate);
    GetIsCanonical(Normalize(sc, sc.root, candidate).value, tokens);
  }

  /** Written back alone, a normalized axis value gives the candidate it was read from. */
  lemma NormalValueIsWrittenBack(sc: CheckedSchema, base: Json, tokens: seq<Text>, x: Json)
    requires ReferencesOnlyChecked(sc) && Canonical(base) && Filled(sc, sc.root, base)
    requires NormalValue(sc, base, tokens, x).Some?
    ensures SchemaSet(sc, sc.root, base, tokens, x).Some?
    ensures var r := Normalize(sc, sc.root, SchemaSet(sc, sc.root, base, tokens, x).value);
            r.Some? && Set(base, tokens, NormalValue(sc, base, tokens, x).value) == r
  {
    hide Filled, Set, Get, Normalize, SchemaSet;
    SchemaSetIsSet(sc, sc.root, base, tokens, x);
    NormalizationIsLocal(sc, sc.root, base, tokens, x);
  }

  lemma NormalValueFits(sc: CheckedSchema, base: Json, tokens: seq<Text>, x: Json)
    requires ReferencesOnlyChecked(sc) && Canonical(base) && Filled(sc, sc.root, base)
    requires NormalValue(sc, base, tokens, x).Some?
    ensures var w := Set(base, tokens, NormalValue(sc, base, tokens, x).value);
            && w.Some? && Filled(sc, sc.root, w.value)
            && (ScalarChoices(sc) ==> IsNormal(sc, sc.root, w.value))
  {
    hide Filled, Set, Normalize, SchemaSet, NormalValue, ScalarChoices, ReferencesOnlyChecked;
    NormalValueIsWrittenBack(sc, base, tokens, x);
    var candidate := SchemaSet(sc, sc.root, base, tokens, x).value;
    NormalizedIsFilled(sc, sc.root, candidate);
    if ScalarChoices(sc) {
      ScalarChoicesAreStable(sc);
      NormalizationIsAFixedPoint(sc, sc.root, candidate);
    }
  }

  /** Value `k` of axis `j` is the normal form of the declared one. */
  lemma NormalAxisValue(sc: CheckedSchema, base: Json, declared: Declaration, d: Declaration, j: nat, k: nat)
    requires NormalizedFrom(sc, base, declared, d) && d.Cartesian? && j < |d.axes| && k < |d.axes[j].values|
    ensures declared.Cartesian? && |declared.axes| == |d.axes| && k < |declared.axes[j].values|
    ensures NormalValue(sc, base, Tokens(d.axes[j]), declared.axes[j].values[k]) == Some(d.axes[j].values[k])
  {
    hide NormalValue, Tokens;
    var a := declared.axes[j];
    assert AxisNormalizes(sc, base, a);
    assert d.axes[j] == NormalAxis(sc, base, a);
    SamePointerSameTokens(d.axes[j], a);
  }

  lemma SamePointerSameTokens(a: Axis, b: Axis)
    requires a.pointer == b.pointer
    ensures Tokens(a) == Tokens(b)
  {
  }

  lemma NormalAxesAreCanonical(sc: CheckedSchema, base: Json, declared: Declaration, d: Declaration)
    requires NormalizedFrom(sc, base, declared, d) && d.Cartesian?
    ensures forall j, k | 0 <= j < |d.axes| && 0 <= k < |d.axes[j].values| :: Canonical(d.axes[j].values[k])
  {
    hide NormalizedFrom, NormalValue, Tokens;
    forall j, k | 0 <= j < |d.axes| && 0 <= k < |d.axes[j].values|
      ensures Canonical(d.axes[j].values[k])
    {
      NormalAxisValue(sc, base, declared, d, j, k);
      NormalValueIsCanonical(sc, base, Tokens(d.axes[j]), declared.axes[j].values[k]);
    }
  }

  lemma NormalAxesAreDisjoint(sc: CheckedSchema, base: Json, declared: Declaration, d: Declaration)
    requires WellDeclared(declared) && NormalizedFrom(sc, base, declared, d) && d.Cartesian?
    ensures Proper(d.axes) && Disjoint(d.axes) && d.axes != [] && d.branches == declared.branches
    ensures forall j | 0 <= j < |d.axes| :: ProperPointer(d.axes[j].pointer)
  {
    hide NormalValue, Tokens, Independent, ProperPointer;
    forall j | 0 <= j < |d.axes|
      ensures Tokens(d.axes[j]) == Tokens(declared.axes[j]) && ProperPointer(d.axes[j].pointer)
      ensures d.axes[j].values != []
    {
      assert AxisNormalizes(sc, base, declared.axes[j]);
      assert ProperAxis(declared.axes[j]);
      SamePointerSameTokens(d.axes[j], declared.axes[j]);
    }
  }

  lemma NormalAxesFit(sc: CheckedSchema, base: Json, declared: Declaration, d: Declaration)
    requires ReferencesOnlyChecked(sc) && Canonical(base) && Filled(sc, sc.root, base)
    requires NormalizedFrom(sc, base, declared, d) && d.Cartesian?
    ensures Fitted(sc, base, d.axes)
    ensures ScalarChoices(sc) && IsNormal(sc, sc.root, base) ==> SingleWritesAreNormal(sc, base, d.axes)
  {
    hide Filled, NormalValue, Tokens, IsNormal, NormalizedFrom, ScalarChoices, ReferencesOnlyChecked;
    forall j, k | 0 <= j < |d.axes| && 0 <= k < |d.axes[j].values|
      ensures var w := Set(base, Tokens(d.axes[j]), d.axes[j].values[k]);
              w.Some? && Filled(sc, sc.root, w.value) && (ScalarChoices(sc) ==> IsNormal(sc, sc.root, w.value))
    {
      NormalAxisValue(sc, base, declared, d, j, k);
      NormalValueFits(sc, base, Tokens(d.axes[j]), declared.axes[j].values[k]);
    }
  }

  /** Where the schema admitted the declared values alone, it admits those made of them. */
  lemma NormalAxesAreAdmitted(sc: CheckedSchema, base: Json, declared: Declaration, d: Declaration)
    requires NormalizedFrom(sc, base, declared, d) && d.Cartesian? && Proper(d.axes)
    ensures Admitted(sc, base, d.axes)
  {
    hide NormalizedFrom, SchemaSet, Tokens, Normalize, Get;
    forall j | 0 <= j < |d.axes|
      ensures AdmittedAt(sc, base, Tokens(d.axes[j]))
    {
      NormalAxisValue(sc, base, declared, d, j, 0);
      assert SchemaSet(sc, sc.root, base, Tokens(d.axes[j]), declared.axes[j].values[0]).Some?;
    }
  }

  /** Of the schema: beside references only checks, and scalars alone in `enum` and `const`. */
  predicate ChecksOnly(sc: CheckedSchema) {
    ReferencesOnlyChecked(sc) && ScalarChoices(sc)
  }

  /**
   Normalize each axis value alone, then write any combination of them into the normalized
   base: the schema admits it and it is its own normal form.
   */
  lemma NormalizedSweepIsNormal(sc: CheckedSchema, parameters: Json, declared: Declaration, d: Declaration)
    requires ChecksOnly(sc) && Normalize(sc, sc.root, parameters).Some?
    requires var base := Normalize(sc, sc.root, parameters).value;
             WellDeclared(declared) && NormalizedFrom(sc, base, declared, d) && d.Cartesian?
    ensures var base := Normalize(sc, sc.root, parameters).value;
            && Proper(d.axes) && Disjoint(d.axes)
            && SingleWritesAreNormal(sc, base, d.axes) && Admitted(sc, base, d.axes)
            && Combinations(Planned(sc), d.axes, base).Some?
            && SweepIsStable(sc, base, d.axes)
            && Combinations(Declared, d.axes, base) == Combinations(Planned(sc), d.axes, base)
  {
    var base := Normalize(sc, sc.root, parameters).value;
    ScalarChoicesAreStable(sc);
    hide Normalize, Filled, Canonical, NormalizedFrom, WellDeclared, ScalarChoices, ReferencesOnlyChecked, Disjoint;
    hide Proper;
    hide SingleWritesAreNormal, Fitted, Admitted, Combinations, SweepIsStable, ChoicesStable;
    NormalizationIsAFixedPoint(sc, sc.root, parameters);
    NormalizedIsFilled(sc, sc.root, parameters);
    NormalizedIsCanonical(sc, sc.root, parameters);
    NormalAxesAreDisjoint(sc, base, declared, d);
    NormalAxesFit(sc, base, declared, d);
    NormalAxesAreAdmitted(sc, base, declared, d);
    SweepIsNormal(sc, d.axes, base);
  }

  /** A normal value alone is accepted by the check that precedes the expansion. */
  lemma NormalAxesAreAccepted(sc: CheckedSchema, base: Json, axes: seq<Axis>, j: nat)
    requires SingleWritesAreNormal(sc, base, axes) && Admitted(sc, base, axes) && j < |axes|
    ensures AxisAccepted(sc, base, axes[j])
  {
    hide Set, SchemaSet, Tokens, Normalize, SameSpine;
    var tokens := Tokens(axes[j]);
    assert AdmittedAt(sc, base, tokens);
    var x :| SchemaSet(sc, sc.root, base, tokens, x).Some?;
    forall k | 0 <= k < |axes[j].values|
      ensures var candidate := SchemaSet(sc, sc.root, base, tokens, axes[j].values[k]);
              candidate.Some? && Normalize(sc, sc.root, candidate.value).Some?
    {
      assert Set(base, tokens, axes[j].values[k]).Some?;
      SpineOfWrite(base, tokens, axes[j].values[k]);
      SchemaSetAlongSpine(sc, sc.root, base, base, tokens, x, axes[j].values[k]);
    }
  }

  /**
   Once the axis values are normalized, their expansion is refused for nothing but its size.
   What the planner then makes of the payloads is the subject of PlannerOutcome.
   */
  lemma ExpansionIsNeverRefused(sc: CheckedSchema, parameters: Json, declared: Declaration, d: Declaration,
      maxSamples: nat)
    requires ChecksOnly(sc) && Normalize(sc, sc.root, parameters).Some? && WellDeclared(declared)
    requires NormalizedFrom(sc, Normalize(sc, sc.root, parameters).value, declared, d)
    ensures var base := Normalize(sc, sc.root, parameters).value;
            && Countable(d)
            && Payloads(Declared, base, d).Some?
            && PlannedPayloads(sc, base, d, maxSamples)
            == if !d.Single? && SampleCount(d) > maxSamples then Fail(SampleLimitExceeded)
                else Ok(Payloads(Declared, base, d).value)
  {
    hide Normalize, Combinations, AxisAccepted, SweepIsStable, SingleWritesAreNormal, Admitted, Disjoint, ChecksOnly;
    hide Pair, SampleCount, NormalValue;
    if d.Cartesian? {
      var base := Normalize(sc, sc.root, parameters).value;
      NormalizedSweepIsNormal(sc, parameters, declared, d);
      forall j | 0 <= j < |d.axes|
        ensures AxisAccepted(sc, base, d.axes[j])
      {
        NormalAxesAreAccepted(sc, base, d.axes, j);
      }
    }
  }

  // Without the condition on choices: exactly what the planner refuses.

  /** Every value written alone into the base is complete. */
  ghost predicate SinglyComplete(sc: CheckedSchema, base: Json, axes: seq<Axis>) {
    forall j, k | 0 <= j < |axes| && 0 <= k < |axes[j].values| ::
      var w := Set(base, Tokens(axes[j]), axes[j].values[k]);
      w.Some? && Complete(sc, sc.root, w.value) && Canonical(w.value)
  }

  lemma SinglyCompleteTail(sc: CheckedSchema, base: Json, axes: seq<Axis>)
    requires axes != [] && SinglyComplete(sc, base, axes)
    ensures SinglyComplete(sc, base, axes[1..])
  {
    hide Set, Tokens, Complete, Canonical;
    forall j, k | 0 <= j < |axes[1..]| && 0 <= k < |axes[1..][j].values|
      ensures var w := Set(base, Tokens(axes[1..][j]), axes[1..][j].values[k]);
              w.Some? && Complete(sc, sc.root, w.value) && Canonical(w.value)
    {
      assert axes[1..][j] == axes[j + 1];
    }
  }

  /** The schema admits every combination, and it is complete. */
  lemma {:induction false} CompleteCombination(sc: CheckedSchema, axes: seq<Axis>, base: Json, current: Json, i: nat)
    requires Proper(axes) && Disjoint(axes) && i < Product(axes)
    requires SinglyComplete(sc, base, axes) && Admitted(sc, base, axes)
    requires Aligned(base, current, axes) && Complete(sc, sc.root, current) && Canonical(current)
    ensures var w := Combine(Planned(sc), axes, Some(current), i); w.Some? && Complete(sc, sc.root, w.value)
    decreases |axes|
  {
    hide Set, SchemaSet, Tokens, Complete, Canonical, SameSpine, Independent;
    if axes != [] {
      var p := Product(axes[1..]);
      var d := i / p;
      DigitBounds(i, |axes[0].values|, p);
      var tokens, y := Tokens(axes[0]), axes[0].values[d];
      assert SameSpine(base, current, tokens);
      assert Set(base, tokens, y).Some? && Complete(sc, sc.root, Set(base, tokens, y).value);
      assert AdmittedAt(sc, base, tokens);
      var x :| SchemaSet(sc, sc.root, base, tokens, x).Some?;
      WriteAlongSpine(base, current, tokens, y);
      SchemaSetAlongSpine(sc, sc.root, base, current, tokens, x, y);
      WriteStaysComplete(sc, sc.root, base, current, tokens, y);
      StaysAligned(base, current, axes, y);
      SinglyCompleteTail(sc, base, axes);
      assert forall j | 0 <= j < |axes[1..]| :: axes[1..][j] == axes[j + 1];
      hide AdmittedAt;
      CompleteCombination(sc, axes[1..], base, Set(current, tokens, y).value, i % p);
    }
  }

  /** Every `enum` and `const` allows each value written alone, and each combination. */
  ghost predicate ChoicesAllowSweep(sc: CheckedSchema, base: Json, axes: seq<Axis>)
    requires Proper(axes)
  {
    && (forall j | 0 <= j < |axes| :: ChoicesAllowAxis(sc, base, axes[j]))
    && forall i | 0 <= i < Product(axes) :: ChoicesAllowCombination(sc, base, axes, i)
  }

  /** Combination `i`, as plainly written. */
  ghost predicate ChoicesAllowCombination(sc: CheckedSchema, base: Json, axes: seq<Axis>, i: nat)
    requires Proper(axes) && i < Product(axes)
  {
    var w := Combine(Declared, axes, Some(base), i);
    w.Some? && ChoicesHold(sc, sc.root, w.value)
  }

  ghost predicate ChoicesAllowAxis(sc: CheckedSchema, base: Json, a: Axis) {
    forall k | 0 <= k < |a.values| ::
      var w := Set(base, Tokens(a), a.values[k]);
      w.Some? && ChoicesHold(sc, sc.root, w.value)
  }

  /** A complete value is accepted exactly when the choices hold in it, and is then returned. */
  lemma CompleteIsChecked(sc: CheckedSchema, v: Json)
    requires InScope(sc, sc.root) && Complete(sc, sc.root, v)
    ensures Normalize(sc, sc.root, v) == if ChoicesHold(sc, sc.root, v) then Some(v) else None
  {
    hide Normalize, Complete, ChoicesHold, Filled;
    NormalExactlyWhenChosen(sc, sc.root, v);
    CompleteIsFilled(sc, sc.root, v);
    NormalExactlyWhenFilled(sc, sc.root, v);
  }

  lemma AxisIsAcceptedExactly(sc: CheckedSchema, base: Json, axes: seq<Axis>, j: nat)
    requires SinglyComplete(sc, base, axes) && Admitted(sc, base, axes) && j < |axes|
    ensures AxisAccepted(sc, base, axes[j]) <==> ChoicesAllowAxis(sc, base, axes[j])
  {
    hide Set, SchemaSet, Tokens, Normalize, SameSpine, Complete, ChoicesHold, Canonical;
    var tokens := Tokens(axes[j]);
    assert AdmittedAt(sc, base, tokens);
    var x :| SchemaSet(sc, sc.root, base, tokens, x).Some?;
    forall k | 0 <= k < |axes[j].values|
      ensures var w := Set(base, tokens, axes[j].values[k]);
              && w.Some? && SchemaSet(sc, sc.root, base, tokens, axes[j].values[k]) == w
              && (Normalize(sc, sc.root, w.value).Some? <==> ChoicesHold(sc, sc.root, w.value))
    {
      var w := Set(base, tokens, axes[j].values[k]);
      assert w.Some? && Complete(sc, sc.root, w.value);
      SpineOfWrite(base, tokens, axes[j].values[k]);
      SchemaSetAlongSpine(sc, sc.root, base, base, tokens, x, axes[j].values[k]);
      CompleteIsChecked(sc, w.value);
    }
  }

  /** A combination is the plainly written one if the choices hold in it, and refused otherwise. */
  lemma CombinationIsChecked(sc: CheckedSchema, axes: seq<Axis>, base: Json, i: nat)
    requires Proper(axes) && Disjoint(axes) && i < Product(axes)
    requires SinglyComplete(sc, base, axes) && Admitted(sc, base, axes) && Complete(sc, sc.root, base)
    requires Canonical(base)
    ensures var w := Combine(Declared, axes, Some(base), i);
            && w.Some?
            && At(Planned(sc), axes, Some(base), i) == (if ChoicesAllowCombination(sc, base, axes, i) then w else None)
            && (ChoicesAllowCombination(sc, base, axes, i) ==> IsNormal(sc, sc.root, w.value))
  {
    hide Combine, SameSpine, Set, Product, SinglyComplete, Admitted, Aligned, Complete, ChoicesHold, Canonical;
    hide Normalize;
    SinglesAreWritable(sc, base, axes);
    AlignedAtFirst(base, axes);
    CompleteCombination(sc, axes, base, base, i);
    AdmittedIsDeclared(sc, axes, base, i);
    CompleteIsChecked(sc, Combine(Declared, axes, Some(base), i).value);
  }

  /** The sweep succeeds exactly when the choices hold in every combination. */
  lemma SweepIsExact(sc: CheckedSchema, axes: seq<Axis>, base: Json)
    requires Proper(axes) && Disjoint(axes)
    requires SinglyComplete(sc, base, axes) && Admitted(sc, base, axes) && Complete(sc, sc.root, base)
    requires Canonical(base)
    ensures Combinations(Planned(sc), axes, base).Some? <==> forall i | 0 <= i < Product(axes) ::
            ChoicesAllowCombination(sc, base, axes, i)
    ensures Combinations(Planned(sc), axes, base).Some? ==> SweepIsStable(sc, base, axes)
  {
    hide Combine, Product, SinglyComplete, Admitted, Complete, ChoicesAllowCombination, Canonical, Normalize, At;
    hide Disjoint;
    forall i | 0 <= i < Product(axes)
      ensures At(Planned(sc), axes, Some(base), i).Some? <==> ChoicesAllowCombination(sc, base, axes, i)
    {
      CombinationIsChecked(sc, axes, base, i);
    }
    if Combinations(Planned(sc), axes, base).Some? {
      forall i | 0 <= i < Product(axes)
        ensures var w := Combine(Declared, axes, Some(base), i); w.Some? && IsNormal(sc, sc.root, w.value)
      {
        assert At(Planned(sc), axes, Some(base), i).Some?;
        CombinationIsChecked(sc, axes, base, i);
      }
    }
  }

  lemma SinglesAreWritable(sc: CheckedSchema, base: Json, axes: seq<Axis>)
    requires SinglyComplete(sc, base, axes)
    ensures Writable(base, axes)
  {
    hide Set, Tokens, Complete, Canonical;
  }

  lemma NormalAxesAreComplete(sc: CheckedSchema, base: Json, declared: Declaration, d: Declaration)
    requires ReferencesOnlyChecked(sc) && Canonical(base) && Filled(sc, sc.root, base)
    requires NormalizedFrom(sc, base, declared, d) && d.Cartesian?
    ensures SinglyComplete(sc, base, d.axes)
  {
    hide Filled, NormalValue, Tokens, Complete, NormalizedFrom, ReferencesOnlyChecked, Set, SchemaSet, Normalize;
    hide Canonical;
    forall j, k | 0 <= j < |d.axes| && 0 <= k < |d.axes[j].values|
      ensures var w := Set(base, Tokens(d.axes[j]), d.axes[j].values[k]);
              w.Some? && Complete(sc, sc.root, w.value) && Canonical(w.value)
    {
      NormalAxisValue(sc, base, declared, d, j, k);
      NormalValueIsWrittenBack(sc, base, Tokens(d.axes[j]), declared.axes[j].values[k]);
      var candidate := SchemaSet(sc, sc.root, base, Tokens(d.axes[j]), declared.axes[j].values[k]).value;
      NormalizedIsComplete(sc, sc.root, candidate);
      NormalizedIsCanonical(sc, sc.root, candidate);
    }
  }

  /**
   With only checks beside references, the expansion of a sweep of normalized values is refused
   exactly for its size or for an `enum` or `const` that a single value or a combination violates.
   */
  lemma ExpansionIsExact(sc: CheckedSchema, parameters: Json, declared: Declaration, d: Declaration, maxSamples: nat)
    requires ReferencesOnlyChecked(sc) && Normalize(sc, sc.root, parameters).Some? && WellDeclared(declared)
    requires NormalizedFrom(sc, Normalize(sc, sc.root, parameters).value, declared, d) && d.Cartesian?
    ensures var base := Normalize(sc, sc.root, parameters).value;
            && Countable(d)
            && (ChoicesAllowSweep(sc, base, d.axes) ==> Payloads(Declared, base, d).Some?)
            && PlannedPayloads(sc, base, d, maxSamples)
            == if SampleCount(d) > maxSamples then Fail(SampleLimitExceeded)
               else if ChoicesAllowSweep(sc, base, d.axes) then Ok(Payloads(Declared, base, d).value)
               else Fail(InvalidSamplePlan)
  {
    var base := Normalize(sc, sc.root, parameters).value;
    hide Normalize, Product, SinglyComplete, Admitted, Disjoint, Proper, ChoicesAllowSweep, PlannedPayloads, Payloads;
    hide SampleCount;
    hide NormalValue, Complete, Canonical, Filled, NormalizedFrom, ReferencesOnlyChecked, WellDeclared;
    NormalizedIsFilled(sc, sc.root, parameters);
    NormalizedIsCanonical(sc, sc.root, parameters);
    NormalizedIsComplete(sc, sc.root, parameters);
    NormalAxesAreDisjoint(sc, base, declared, d);
    NormalAxesAreComplete(sc, base, declared, d);
    NormalAxesAreAdmitted(sc, base, declared, d);
    WellDeclaredBranches(declared);
    IsCountable(d);
    ChoicesDecideExpansion(sc, base, d, maxSamples);
  }

  lemma WellDeclaredBranches(d: Declaration)
    requires WellDeclared(d)
    ensures d.Cartesian? && d.branches.Some? ==> d.branches.value != []
  {
  }

  lemma ChoicesDecideExpansion(sc: CheckedSchema, base: Json, d: Declaration, maxSamples: nat)
    requires d.Cartesian? && Countable(d) && Disjoint(d.axes)
    requires SinglyComplete(sc, base, d.axes) && Admitted(sc, base, d.axes) && Complete(sc, sc.root, base)
    requires Canonical(base)
    ensures ChoicesAllowSweep(sc, base, d.axes) ==> Payloads(Declared, base, d).Some?
    ensures PlannedPayloads(sc, base, d, maxSamples)
         == if SampleCount(d) > maxSamples then Fail(SampleLimitExceeded)
            else if ChoicesAllowSweep(sc, base, d.axes) then Ok(Payloads(Declared, base, d).value)
            else Fail(InvalidSamplePlan)
  {
    hide Normalize, Combinations, Combine, Product, AxisAccepted, ChoicesAllowAxis, SweepIsStable, SinglyComplete;
    hide Admitted, Disjoint, Proper;
    hide Pair, SampleCount, Complete, Canonical, ChoicesAllowCombination;
    SweepIsExact(sc, d.axes, base);
    if Combinations(Planned(sc), d.axes, base).Some? {
      CombinationsAgreeExactly(sc, d.axes, base);
    }
    forall j | 0 <= j < |d.axes|
      ensures AxisAccepted(sc, base, d.axes[j]) <==> ChoicesAllowAxis(sc, base, d.axes[j])
    {
      AxisIsAcceptedExactly(sc, base, d.axes, j);
    }
    assert ChoicesAllowSweep(sc, base, d.axes)
      <==> Combinations(Planned(sc), d.axes, base).Some? && forall j | 0 <= j < |d.axes| ::
          AxisAccepted(sc, base, d.axes[j]);
  }

  lemma IsCountable(d: Declaration)
    requires d.Cartesian? && Proper(d.axes) && (d.branches.Some? ==> d.branches.value != [])
    ensures Countable(d)
  {
  }
}
