/** What the combinations of a sweep are, and when they are pairwise different. */
module ExpansionLaws {
  import opened CanonicalJson
  import opened JsonPointer
  import opened SchemaProfile
  import opened Normalization
  import opened NormalizationLaws
  import opened NormalForms
  import opened Sampling
  import opened CartesianExpansion

  predicate Apart(axes: seq<Axis>, q: seq<Text>) {
    forall i | 0 <= i < |axes| :: Independent(Tokens(axes[i]), q)
  }

  /** A sweep moves nothing outside its pointers. */
  lemma {:induction false} SweepKeepsTheRest(axes: seq<Axis>, current: Json, i: nat, q: seq<Text>)
    requires Proper(axes) && i < Product(axes) && Apart(axes, q)
    requires Combine(Declared, axes, Some(current), i).Some?
    ensures Get(Combine(Declared, axes, Some(current), i).value, q) == Get(current, q)
    decreases |axes|
  {
    hide Set, Get, Tokens;
    if axes != [] {
      var p := Product(axes[1..]);
      DigitBounds(i, |axes[0].values|, p);
      var next := Set(current, Tokens(axes[0]), axes[0].values[i / p]);
      if next.None? {
        FailureStays(Declared, axes[1..], i % p);
      } else {
        ReadAfterOtherWrite(current, Tokens(axes[0]), axes[0].values[i / p], q);
        SweepKeepsTheRest(axes[1..], next.value, i % p, q);
      }
    }
  }

  /** Combination `i` holds, at the pointer of axis `j`, the value at digit `j` of `i`. */
  lemma {:induction false} SweepReadsDigits(axes: seq<Axis>, current: Json, i: nat, j: nat)
    requires Proper(axes) && i < Product(axes) && j < |axes| && Disjoint(axes)
    requires !EndsAtPrototype(Tokens(axes[j]))
    requires Combine(Declared, axes, Some(current), i).Some?
    ensures Get(Combine(Declared, axes, Some(current), i).value, Tokens(axes[j]))
            == Some(axes[j].values[Digit(axes, i, j)])
    decreases |axes|
  {
    hide Set, Get, Tokens, EndsAtPrototype, Independent;
    var p := Product(axes[1..]);
    DigitBounds(i, |axes[0].values|, p);
    var x := axes[0].values[i / p];
    var next := Set(current, Tokens(axes[0]), x);
    if next.None? {
      FailureStays(Declared, axes[1..], i % p);
    } else if j == 0 {
      ReadAfterWrite(current, Tokens(axes[0]), x);
      forall k | 0 <= k < |axes[1..]|
        ensures Independent(Tokens(axes[1..][k]), Tokens(axes[0]))
      {
        assert Independent(Tokens(axes[0]), Tokens(axes[k + 1]));
        IndependentIsSymmetric(Tokens(axes[0]), Tokens(axes[k + 1]));
      }
      SweepKeepsTheRest(axes[1..], next.value, i % p, Tokens(axes[0]));
    } else {
      SweepReadsDigits(axes[1..], next.value, i % p, j - 1);
    }
  }

  lemma IndependentIsSymmetric(p: seq<Text>, q: seq<Text>)
    ensures Independent(p, q) <==> Independent(q, p)
  {
  }

  /** Different indices differ in some digit. */
  lemma {:induction false} DigitsDiffer(axes: seq<Axis>, i: nat, k: nat) returns (j: nat)
    requires Proper(axes) && i < Product(axes) && k < Product(axes) && i != k
    ensures j < |axes| && Digit(axes, i, j) != Digit(axes, k, j)
    decreases |axes|
  {
    var p := Product(axes[1..]);
    DigitBounds(i, |axes[0].values|, p);
    DigitBounds(k, |axes[0].values|, p);
    if i / p != k / p {
      j := 0;
    } else {
      var rest := DigitsDiffer(axes[1..], i % p, k % p);
      j := rest + 1;
    }
  }

  /** Every axis that assigns to a prototype has one value. */
  predicate PrototypeAxesAreSingle(axes: seq<Axis>) {
    forall j | 0 <= j < |axes| && EndsAtPrototype(Tokens(axes[j])) :: |axes[j].values| == 1
  }

  lemma CombinationsDiffer(axes: seq<Axis>, base: Json, i: nat, k: nat)
    requires Proper(axes) && Disjoint(axes) && (forall j | 0 <= j < |axes| :: DistinctValues(axes[j].values))
    requires PrototypeAxesAreSingle(axes)
    requires i < k < Product(axes)
    requires Combine(Declared, axes, Some(base), i).Some? && Combine(Declared, axes, Some(base), k).Some?
    ensures Combine(Declared, axes, Some(base), i) != Combine(Declared, axes, Some(base), k)
  {
    hide Combine, Get, Tokens, EndsAtPrototype, Disjoint;
    var j := DigitsDiffer(axes, i, k);
    assert DistinctValues(axes[j].values);
    SweepReadsDigits(axes, base, i, j);
    SweepReadsDigits(axes, base, k, j);
  }

  /** Assigning to a prototype, where it succeeds, changes nothing. */
  lemma {:induction false} PrototypeWriteIsNoOp(v: Json, p: seq<Text>, x: Json)
    requires EndsAtPrototype(p) && Set(v, p, x).Some?
    ensures Set(v, p, x) == Some(v)
    decreases p
  {
    if |p| > 1 {
      PrototypeWriteIsNoOp(Child(v, p[0]), p[1..], x);
      SameChild(v, p[0], Null, Null);
    } else if v.Arr? {
      PrototypeIsNoIndex(p[0]);
    }
  }

  lemma PrototypeIsNoIndex(t: Text)
    requires IsProto(t)
    ensures ArrayIndex(t).None?
  {
    var s := Ascii("__proto__");
    assert t[0] == s[0] == 0x5F;
  }

  /** Two values of an axis that write the same wherever both can be written. */
  ghost predicate WriteAlike(a: Axis, x: Json, y: Json) {
    forall v :: Set(v, Tokens(a), x).Some? && Set(v, Tokens(a), y).Some? ==>
        Set(v, Tokens(a), x) == Set(v, Tokens(a), y)
  }

  lemma PrototypeWritesAlike(a: Axis, x: Json, y: Json)
    requires EndsAtPrototype(Tokens(a))
    ensures WriteAlike(a, x, y)
  {
    forall v | Set(v, Tokens(a), x).Some? && Set(v, Tokens(a), y).Some?
      ensures Set(v, Tokens(a), x) == Set(v, Tokens(a), y)
    {
      PrototypeWriteIsNoOp(v, Tokens(a), x);
      PrototypeWriteIsNoOp(v, Tokens(a), y);
    }
  }

  /** Combinations in the first block of a sweep are those of the remaining axes. */
  lemma FirstBlock(axes: seq<Axis>, current: Json)
    requires Proper(axes) && axes != []
    requires forall m | 0 <= m < Product(axes) :: Combine(Declared, axes, Some(current), m).Some?
    ensures var first := Set(current, Tokens(axes[0]), axes[0].values[0]);
            && first.Some?
            && Product(axes[1..]) <= Product(axes)
            && forall m | 0 <= m < Product(axes[1..]) ::
                 Combine(Declared, axes[1..], first, m).Some?
                     && Combine(Declared, axes, Some(current), m) == Combine(Declared, axes[1..], first, m)
  {
    hide Set, Tokens, Combine, Product;
    var first := Set(current, Tokens(axes[0]), axes[0].values[0]);
    var p := Product(axes[1..]);
    forall m | 0 <= m < p
      ensures m < Product(axes) && Combine(Declared, axes, Some(current), m) == Combine(Declared, axes[1..], first, m)
    {
      InFirstBlock(axes, current, m);
    }
    assert Combine(Declared, axes, Some(current), 0).Some?;
    FailureStays(Declared, axes[1..], 0);
    InFirstBlock(axes, current, p - 1);
  }

  lemma InFirstBlock(axes: seq<Axis>, current: Json, m: nat)
    requires Proper(axes) && axes != [] && m < Product(axes[1..])
    ensures m < Product(axes)
    ensures Combine(Declared, axes, Some(current), m)
            == Combine(Declared, axes[1..], Set(current, Tokens(axes[0]), axes[0].values[0]), m)
  {
    hide Set, Tokens, Combine, Product;
    CombineInBlock(Declared, axes, current, 0, m);
    assert 0 * Product(axes[1..]) + m == m;
  }

  /** An axis with two values that write alike yields one combination twice. */
  lemma {:induction false} AxisRepeats(axes: seq<Axis>, current: Json, j: nat, a: nat, b: nat) returns (i: nat, k: nat)
    requires Proper(axes) && j < |axes| && a < b < |axes[j].values|
    requires WriteAlike(axes[j], axes[j].values[a], axes[j].values[b])
    requires forall m | 0 <= m < Product(axes) :: Combine(Declared, axes, Some(current), m).Some?
    ensures i < k < Product(axes)
    ensures Combine(Declared, axes, Some(current), i) == Combine(Declared, axes, Some(current), k)
    decreases |axes|
  {
    hide Set, Tokens, Combine, Product;
    if j == 0 {
      var p := Product(axes[1..]);
      CombineInBlock(Declared, axes, current, a, 0);
      CombineInBlock(Declared, axes, current, b, 0);
      FailureStays(Declared, axes[1..], 0);
      i, k := a * p + 0, b * p + 0;
      assert Combine(Declared, axes, Some(current), i).Some? && Combine(Declared, axes, Some(current), k).Some?;
      ScalingKeepsOrder(a + 1, b, p);
      assert (a + 1) * p == a * p + p;
    } else {
      FirstBlock(axes, current);
      i, k := AxisRepeats(axes[1..], Set(current, Tokens(axes[0]), axes[0].values[0]).value, j - 1, a, b);
    }
  }

  lemma DefinedCombinations(axes: seq<Axis>, base: Json)
    requires Proper(axes) && Combinations(Declared, axes, base).Some?
    ensures var cs := Combinations(Declared, axes, base).value;
            |cs| == Product(axes) && forall i | 0 <= i < |cs| :: Combine(Declared, axes, Some(base), i) == Some(cs[i])
  {
    hide Combine;
    var cs := Combinations(Declared, axes, base).value;
    forall i | 0 <= i < Product(axes)
      ensures Combine(Declared, axes, Some(base), i) == Some(cs[i])
    {
      assert At(Declared, axes, Some(base), i).Some?;
    }
  }

  predicate PairwiseDistinct<T(==)>(s: seq<T>) {
    forall i, k | 0 <= i < k < |s| :: s[i] != s[k]
  }

  /** Distinct combinations come from distinct axis values. */
  lemma DistinctCombinationsDistinctValues(axes: seq<Axis>, base: Json, j: nat)
    requires Proper(axes) && j < |axes| && Combinations(Declared, axes, base).Some?
    requires PairwiseDistinct(Combinations(Declared, axes, base).value)
    ensures PairwiseDistinct(axes[j].values)
  {
    hide Combine, Combinations;
    DefinedCombinations(axes, base);
    var cs := Combinations(Declared, axes, base).value;
    if !PairwiseDistinct(axes[j].values) {
      var a, b :| 0 <= a < b < |axes[j].values| && axes[j].values[a] == axes[j].values[b];
      var i, k := AxisRepeats(axes, base, j, a, b);
      assert false;
    }
  }

  /**
   The combinations of a sweep that succeeds are pairwise different exactly when no axis
   assigns more than one value to a prototype.
   */
  lemma CombinationsAreDistinct(axes: seq<Axis>, base: Json)
    requires Proper(axes) && Disjoint(axes) && forall j | 0 <= j < |axes| :: DistinctValues(axes[j].values)
    requires Combinations(Declared, axes, base).Some?
    ensures PrototypeAxesAreSingle(axes) <==> PairwiseDistinct(Combinations(Declared, axes, base).value)
  {
    hide Combine, Tokens, EndsAtPrototype, Disjoint, Combinations;
    DefinedCombinations(axes, base);
    var cs := Combinations(Declared, axes, base).value;
    if PrototypeAxesAreSingle(axes) {
      forall i, k | 0 <= i < k < |cs|
        ensures cs[i] != cs[k]
      {
        CombinationsDiffer(axes, base, i, k);
      }
    } else {
      var j :| 0 <= j < |axes| && EndsAtPrototype(Tokens(axes[j])) && |axes[j].values| != 1;
      PrototypeWritesAlike(axes[j], axes[j].values[0], axes[j].values[1]);
      var i, k := AxisRepeats(axes, base, j, 0, 1);
      assert cs[i] == cs[k];
    }
  }

  // What the planner writes is what the revalidator writes.

  ghost predicate Aligned(base: Json, current: Json, axes: seq<Axis>) {
    forall j | 0 <= j < |axes| :: SameSpine(base, current, Tokens(axes[j]))
  }

  /** Each axis value can be written alone into the base. */
  ghost predicate Writable(base: Json, axes: seq<Axis>) {
    forall j, k | 0 <= j < |axes| && 0 <= k < |axes[j].values| :: Set(base, Tokens(axes[j]), axes[j].values[k]).Some?
  }

  lemma AlignedAtFirst(base: Json, axes: seq<Axis>)
    requires Proper(axes) && Writable(base, axes)
    ensures Aligned(base, base, axes)
  {
    hide Set, SameSpine, Tokens;
    forall j | 0 <= j < |axes|
      ensures SameSpine(base, base, Tokens(axes[j]))
    {
      SpineOfWrite(base, Tokens(axes[j]), axes[j].values[0]);
    }
  }

  /** A write on the first axis leaves the spines of the others. */
  lemma StaysAligned(base: Json, current: Json, axes: seq<Axis>, x: Json)
    requires axes != [] && Disjoint(axes) && Aligned(base, current, axes) && Set(current, Tokens(axes[0]), x).Some?
    ensures Aligned(base, Set(current, Tokens(axes[0]), x).value, axes[1..])
  {
    hide Set, SameSpine, Tokens, Independent;
    var tokens := Tokens(axes[0]);
    forall j | 0 <= j < |axes[1..]|
      ensures SameSpine(base, Set(current, tokens, x).value, Tokens(axes[1..][j]))
    {
      assert Independent(tokens, Tokens(axes[j + 1]));
      IndependentIsSymmetric(tokens, Tokens(axes[j + 1]));
      SpineIsKept(base, current, Tokens(axes[j + 1]), tokens, x);
    }
  }

  /** Where the schema admits all writes of a combination, they are the plain writes. */
  lemma {:induction false} AdmittedIsDeclared(sc: CheckedSchema, axes: seq<Axis>, current: Json, i: nat)
    requires Proper(axes) && i < Product(axes) && Combine(Planned(sc), axes, Some(current), i).Some?
    ensures Combine(Declared, axes, Some(current), i) == Combine(Planned(sc), axes, Some(current), i)
    decreases |axes|
  {
    hide Set, SchemaSet, Tokens;
    if axes != [] {
      var p := Product(axes[1..]);
      DigitBounds(i, |axes[0].values|, p);
      var tokens, x := Tokens(axes[0]), axes[0].values[i / p];
      var next := SchemaSet(sc, sc.root, current, tokens, x);
      if next.None? {
        FailureStays(Planned(sc), axes[1..], i % p);
      } else {
        SchemaSetIsSet(sc, sc.root, current, tokens, x);
        AdmittedIsDeclared(sc, axes[1..], next.value, i % p);
      }
    }
  }

  // A sweep that the planner leaves as it was written.

  /** Every combination, as plainly written, is its own normal form. */
  ghost predicate SweepIsStable(sc: CheckedSchema, base: Json, axes: seq<Axis>)
    requires Proper(axes)
  {
    forall i | 0 <= i < Product(axes) ::
      var w := Combine(Declared, axes, Some(base), i);
      w.Some? && IsNormal(sc, sc.root, w.value)
  }

  /**
   Exactly when the revalidator, which only writes, computes the combinations the planner
   returned, which it normalized as a whole.
   */
  lemma CombinationsAgreeExactly(sc: CheckedSchema, axes: seq<Axis>, base: Json)
    requires Proper(axes) && Combinations(Planned(sc), axes, base).Some?
    ensures Combinations(Declared, axes, base) == Combinations(Planned(sc), axes, base)
            <==> SweepIsStable(sc, base, axes)
  {
    hide Combine, Product, Normalize, Canonical;
    var planned := Combinations(Planned(sc), axes, base).value;
    forall i | 0 <= i < Product(axes)
      ensures var w := Combine(Declared, axes, Some(base), i);
              w.Some? && Normalize(sc, sc.root, w.value) == Some(planned[i])
    {
      assert At(Planned(sc), axes, Some(base), i).Some?;
      AdmittedIsDeclared(sc, axes, base, i);
    }
    if Combinations(Declared, axes, base) == Combinations(Planned(sc), axes, base) {
      forall i | 0 <= i < Product(axes)
        ensures var w := Combine(Declared, axes, Some(base), i); w.Some? && IsNormal(sc, sc.root, w.value)
      {
        assert At(Declared, axes, Some(base), i) == Some(planned[i]);
      }
    }
    if SweepIsStable(sc, base, axes) {
      forall i | 0 <= i < Product(axes)
        ensures At(Declared, axes, Some(base), i) == At(Planned(sc), axes, Some(base), i)
      {
        var w := Combine(Declared, axes, Some(base), i);
        assert w.Some? && IsNormal(sc, sc.root, w.value);
        NormalizedIsCanonical(sc, sc.root, w.value);
        assert At(Planned(sc), axes, Some(base), i).Some?;
      }
      SameCombinations(sc, axes, base);
    }
  }

  lemma SameCombinations(sc: CheckedSchema, axes: seq<Axis>, base: Json)
    requires Proper(axes)
    requires AllDefined(Planned(sc), axes, base)
    requires forall i | 0 <= i < Product(axes) ::
             At(Declared, axes, Some(base), i) == At(Planned(sc), axes, Some(base), i)
    ensures Combinations(Declared, axes, base) == Combinations(Planned(sc), axes, base)
  {
    hide At, Product;
    assert forall i | 0 <= i < Product(axes) :: At(Planned(sc), axes, Some(base), i).Some?;
    assert AllDefined(Declared, axes, base);
    assert Combinations(Declared, axes, base).value == Combinations(Planned(sc), axes, base).value;
  }

  /** No default is lacking in any combination, as plainly written. */
  ghost predicate SweepIsFilled(sc: CheckedSchema, base: Json, axes: seq<Axis>)
    requires Proper(axes)
  {
    forall i | 0 <= i < Product(axes) ::
      var w := Combine(Declared, axes, Some(base), i);
      w.Some? && Filled(sc, sc.root, w.value)
  }

  /** For a sweep that the planner returned, a default that it had to supply is all that can differ. */
  lemma StableExactlyWhenFilled(sc: CheckedSchema, axes: seq<Axis>, base: Json)
    requires Proper(axes) && Combinations(Planned(sc), axes, base).Some?
    ensures SweepIsStable(sc, base, axes) <==> SweepIsFilled(sc, base, axes)
  {
    hide Combine, Product, Normalize, Filled;
    forall i | 0 <= i < Product(axes)
      ensures var w := Combine(Declared, axes, Some(base), i);
              w.Some? && (IsNormal(sc, sc.root, w.value) <==> Filled(sc, sc.root, w.value))
    {
      assert At(Planned(sc), axes, Some(base), i).Some?;
      AdmittedIsDeclared(sc, axes, base, i);
      NormalExactlyWhenFilled(sc, sc.root, Combine(Declared, axes, Some(base), i).value);
    }
  }

  // Guards: nothing is left to fill in.

  /** Each axis value, written alone into the base, leaves nothing to fill in. */
  ghost predicate Fitted(sc: CheckedSchema, base: Json, axes: seq<Axis>) {
    forall j, k | 0 <= j < |axes| && 0 <= k < |axes[j].values| ::
      var w := Set(base, Tokens(axes[j]), axes[j].values[k]);
      w.Some? && Filled(sc, sc.root, w.value)
  }

  lemma FittedTail(sc: CheckedSchema, base: Json, axes: seq<Axis>)
    requires axes != [] && Fitted(sc, base, axes)
    ensures Fitted(sc, base, axes[1..])
  {
    hide Set, Tokens, Filled;
    forall j, k | 0 <= j < |axes[1..]| && 0 <= k < |axes[1..][j].values|
      ensures var w := Set(base, Tokens(axes[1..][j]), axes[1..][j].values[k]);
              w.Some? && Filled(sc, sc.root, w.value)
    {
      assert axes[1..][j] == axes[j + 1];
    }
  }

  lemma {:induction false} FittedCombination(sc: CheckedSchema, axes: seq<Axis>, base: Json, current: Json, i: nat)
    requires Proper(axes) && Disjoint(axes) && i < Product(axes)
    requires Fitted(sc, base, axes) && Aligned(base, current, axes) && Filled(sc, sc.root, current)
    ensures var w := Combine(Declared, axes, Some(current), i); w.Some? && Filled(sc, sc.root, w.value)
    decreases |axes|
  {
    hide Set, Tokens, Filled, SameSpine, Independent;
    if axes != [] {
      var p := Product(axes[1..]);
      var d := i / p;
      DigitBounds(i, |axes[0].values|, p);
      var tokens, x := Tokens(axes[0]), axes[0].values[d];
      assert SameSpine(base, current, tokens);
      assert Set(base, tokens, x).Some? && Filled(sc, sc.root, Set(base, tokens, x).value);
      WriteAlongSpine(base, current, tokens, x);
      WriteStaysFilled(sc, sc.root, base, current, tokens, x);
      StaysAligned(base, current, axes, x);
      FittedTail(sc, base, axes);
      FittedCombination(sc, axes[1..], base, Set(current, tokens, x).value, i % p);
    }
  }

  /** A sweep that the planner returns, of values that lack no default, is stable under any schema. */
  lemma PlannedIsDeclared(sc: CheckedSchema, axes: seq<Axis>, base: Json)
    requires Proper(axes) && Disjoint(axes)
    requires Fitted(sc, base, axes) && Filled(sc, sc.root, base)
    requires Combinations(Planned(sc), axes, base).Some?
    ensures SweepIsStable(sc, base, axes) && Combinations(Declared, axes, base) == Combinations(Planned(sc), axes, base)
  {
    hide Combine, Filled, SameSpine, Set, Normalize, Product;
    AlignedAtFirst(base, axes);
    forall i | 0 <= i < Product(axes)
      ensures var w := Combine(Declared, axes, Some(base), i); w.Some? && IsNormal(sc, sc.root, w.value)
    {
      assert At(Planned(sc), axes, Some(base), i).Some?;
      AdmittedIsDeclared(sc, axes, base, i);
      FittedCombination(sc, axes, base, base, i);
      FilledIsKept(sc, sc.root, Combine(Declared, axes, Some(base), i).value);
    }
    CombinationsAgreeExactly(sc, axes, base);
  }

  /** The base and every single write are their own normal forms. */
  ghost predicate SingleWritesAreNormal(sc: CheckedSchema, base: Json, axes: seq<Axis>) {
    && IsNormal(sc, sc.root, base)
    && forall j, k | 0 <= j < |axes| && 0 <= k < |axes[j].values| ::
         var w := Set(base, Tokens(axes[j]), axes[j].values[k]);
         w.Some? && IsNormal(sc, sc.root, w.value)
  }

  /** A caller's guard on values: it needs the base and the writes of one value each. */
  lemma NormalWritesSweepStably(sc: CheckedSchema, axes: seq<Axis>, base: Json)
    requires Proper(axes) && Disjoint(axes) && SingleWritesAreNormal(sc, base, axes)
    requires Combinations(Planned(sc), axes, base).Some?
    ensures SweepIsStable(sc, base, axes)
  {
    hide Filled, Set, Normalize, Tokens, Combine, Combinations, SweepIsStable;
    NormalIsFilled(sc, sc.root, base);
    forall j, k | 0 <= j < |axes| && 0 <= k < |axes[j].values|
      ensures var w := Set(base, Tokens(axes[j]), axes[j].values[k]); w.Some? && Filled(sc, sc.root, w.value)
    {
      NormalIsFilled(sc, sc.root, Set(base, Tokens(axes[j]), axes[j].values[k]).value);
    }
    PlannedIsDeclared(sc, axes, base);
  }

  lemma SingleWritesTail(sc: CheckedSchema, base: Json, axes: seq<Axis>)
    requires axes != [] && SingleWritesAreNormal(sc, base, axes)
    ensures SingleWritesAreNormal(sc, base, axes[1..])
  {
    hide Set, Tokens, IsNormal;
    forall j, k | 0 <= j < |axes[1..]| && 0 <= k < |axes[1..][j].values|
      ensures var w := Set(base, Tokens(axes[1..][j]), axes[1..][j].values[k]);
              w.Some? && IsNormal(sc, sc.root, w.value)
    {
      assert axes[1..][j] == axes[j + 1];
    }
  }

  ghost predicate AdmittedAt(sc: CheckedSchema, base: Json, tokens: seq<Text>) {
    exists x :: SchemaSet(sc, sc.root, base, tokens, x).Some?
  }

  /** The schema admits some write alone at the pointer of each axis. */
  ghost predicate Admitted(sc: CheckedSchema, base: Json, axes: seq<Axis>) {
    forall j | 0 <= j < |axes| :: AdmittedAt(sc, base, Tokens(axes[j]))
  }

  /**
   Writing several values at disjoint pointers into a normal base, each normal when written
   alone: where choices are scalars the schema admits every combination, and it is normal.
   */
  lemma {:induction false} NormalCombination(sc: CheckedSchema, axes: seq<Axis>, base: Json, current: Json, i: nat)
    requires ScalarChoices(sc) && Proper(axes) && Disjoint(axes) && i < Product(axes)
    requires SingleWritesAreNormal(sc, base, axes) && Admitted(sc, base, axes)
    requires Aligned(base, current, axes) && IsNormal(sc, sc.root, current)
    ensures var w := Combine(Planned(sc), axes, Some(current), i); w.Some? && IsNormal(sc, sc.root, w.value)
    decreases |axes|
  {
    hide Set, SchemaSet, Tokens, IsNormal, SameSpine, Independent, ScalarChoices;
    if axes != [] {
      var p := Product(axes[1..]);
      var d := i / p;
      DigitBounds(i, |axes[0].values|, p);
      var tokens, y := Tokens(axes[0]), axes[0].values[d];
      assert SameSpine(base, current, tokens);
      assert Set(base, tokens, y).Some? && IsNormal(sc, sc.root, Set(base, tokens, y).value);
      assert AdmittedAt(sc, base, tokens);
      var x :| SchemaSet(sc, sc.root, base, tokens, x).Some?;
      WriteAlongSpine(base, current, tokens, y);
      SchemaSetAlongSpine(sc, sc.root, base, current, tokens, x, y);
      WriteStaysNormal(sc, sc.root, base, current, tokens, y);
      StaysAligned(base, current, axes, y);
      SingleWritesTail(sc, base, axes);
      assert forall j | 0 <= j < |axes[1..]| :: axes[1..][j] == axes[j + 1];
      hide AdmittedAt;
      NormalCombination(sc, axes[1..], base, Set(current, tokens, y).value, i % p);
    }
  }

  lemma WritableByNormal(sc: CheckedSchema, base: Json, axes: seq<Axis>)
    requires SingleWritesAreNormal(sc, base, axes)
    ensures Writable(base, axes)
  {
    hide Set, Tokens, IsNormal;
  }

  /** The sweep succeeds, and normalizing its combinations changes none of them. */
  lemma SweepIsNormal(sc: CheckedSchema, axes: seq<Axis>, base: Json)
    requires ScalarChoices(sc) && Proper(axes) && Disjoint(axes)
    requires SingleWritesAreNormal(sc, base, axes) && Admitted(sc, base, axes)
    ensures Combinations(Planned(sc), axes, base).Some? && SweepIsStable(sc, base, axes)
    ensures Combinations(Declared, axes, base) == Combinations(Planned(sc), axes, base)
  {
    hide Combine, SameSpine, Set, Product, ScalarChoices, SingleWritesAreNormal, Admitted, Aligned;
    WritableByNormal(sc, base, axes);
    AlignedAtFirst(base, axes);
    assert IsNormal(sc, sc.root, base) by { BaseIsNormal(sc, base, axes); }
    hide Normalize;
    forall i | 0 <= i < Product(axes)
      ensures At(Planned(sc), axes, Some(base), i).Some?
      ensures var w := Combine(Declared, axes, Some(base), i); w.Some? && IsNormal(sc, sc.root, w.value)
    {
      NormalCombination(sc, axes, base, base, i);
      AdmittedIsDeclared(sc, axes, base, i);
    }
    CombinationsAgreeExactly(sc, axes, base);
  }

  lemma BaseIsNormal(sc: CheckedSchema, base: Json, axes: seq<Axis>)
    requires SingleWritesAreNormal(sc, base, axes)
    ensures IsNormal(sc, sc.root, base)
  {
  }
}
