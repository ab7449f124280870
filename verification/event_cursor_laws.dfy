/** What a cursor means: accepted tokens are exactly issued tokens, and they carry their claims. */
module EventCursorLaws {
  import opened CanonicalJson
  import opened CanonicalJsonParser
  import opened CanonicalJsonLaws
  import opened CanonicalBytes
  import opened Utf8
  import opened TextDecoding
  import opened Sorting
  import opened EventCursor

  lemma Orders()
    ensures StrictOrder(Less) && StrictOrder(Below)
  {
    forall a: Text, b: Text
      ensures !Less(a, a) && (Less(a, b) || Less(b, a) || a == b)
    {
      LessIsIrreflexive(a);
      LessIsTotal(a, b);
    }
    forall a: Text, b: Text, c: Text | Less(a, b) && Less(b, c)
      ensures Less(a, c)
    {
      LessIsTransitive(a, b, c);
    }
  }

  // Normal forms.

  predicate WellTyped(types: seq<Text>) {
    |types| <= MAX_EVENT_TYPES && Increasing(types, Less)
    && forall i | 0 <= i < |types| :: BoundedString(Str(types[i]), MAX_EVENT_TYPE_BYTES)
  }

  predicate WellIndexed(ns: seq<int>) {
    |ns| <= MAX_SAMPLE_INDEXES && Increasing(ns, Below) && forall i | 0 <= i < |ns| :: NonnegativeSafe(ns[i])
  }

  predicate WellTimed(t: Option<Text>) {
    t.Some? ==> IsInstant(t.value)
  }

  predicate NormalFiltersForm(f: NormalFilters) {
    && WellTyped(f.types) && WellIndexed(f.sampleIndexes)
    && WellTimed(f.occurredAtFrom) && WellTimed(f.occurredAtTo) && InstantsInOrder(f.occurredAtFrom, f.occurredAtTo)
  }

  predicate NormalForm(c: NormalContext) {
    && BoundedString(Str(c.projectId), MAX_IDENTIFIER_BYTES) && BoundedString(Str(c.runId), MAX_IDENTIFIER_BYTES)
    && IsDigest(Str(c.frozenContractDigest)) && IsDigest(Str(c.eventSetDigest)) && IsDigest(Str(c.lifecycleDigest))
    && (c.direction == FORWARD || c.direction == BACKWARD)
    && NormalFiltersForm(c.filters)
    && 1 <= c.limit <= MAX_PAGE_LIMIT
  }

  /** A normal form written as input again. */
  function Given(c: NormalContext): Context {
    Context(
      Str(c.projectId), Str(c.runId), Str(c.frozenContractDigest), Str(c.eventSetDigest), Str(c.lifecycleDigest),
      Str(c.direction), GivenFilters(c.filters), Num(c.limit))
  }

  function GivenFilters(f: NormalFilters): Filters {
    Filters(Some(StringsJson(f.types)), Some(NumbersJson(f.sampleIndexes)),
            Some(InstantJson(f.occurredAtFrom)), Some(InstantJson(f.occurredAtTo)))
  }

  lemma TypesBecomeNormal(items: seq<Json>)
    requires NormalizeTypes(items).Some?
    ensures WellTyped(NormalizeTypes(items).value)
  {
    Orders();
    hide Less, BoundedString;
    assert forall i | 0 <= i < |items| :: items[i].Str? by { StringsAreStrings(items); }
    var given := seq(|items|, i requires 0 <= i < |items| && items[i].Str? => items[i].s);
    SortSorts(given, Less);
    var sorted := Sort(given, Less);
    NeighboursSuffice(sorted, Less);
    assert |sorted| == |multiset(sorted)| == |multiset(given)| == |given|;
    forall i | 0 <= i < |sorted|
      ensures BoundedString(Str(sorted[i]), MAX_EVENT_TYPE_BYTES)
    {
      assert sorted[i] in multiset(given);
      var j :| 0 <= j < |given| && given[j] == sorted[i];
      assert items[j] == Str(sorted[i]);
    }
  }

  lemma StringsAreStrings(items: seq<Json>)
    requires NormalizeTypes(items).Some?
    ensures forall i | 0 <= i < |items| :: items[i].Str?
  {
  }

  lemma SampleIndexesBecomeNormal(items: seq<Json>)
    requires NormalizeSampleIndexes(items).Some?
    ensures WellIndexed(NormalizeSampleIndexes(items).value)
  {
    Orders();
    hide Less;
    var given := seq(|items|, i requires 0 <= i < |items| && items[i].Num? => items[i].n);
    SortSorts(given, Below);
    var sorted := Sort(given, Below);
    NeighboursSuffice(sorted, Below);
    assert |sorted| == |multiset(sorted)| == |multiset(given)| == |given|;
    forall i | 0 <= i < |sorted|
      ensures NonnegativeSafe(sorted[i])
    {
      assert sorted[i] in multiset(given);
      var j :| 0 <= j < |given| && given[j] == sorted[i];
    }
  }

  lemma OnlyStrings()
    ensures forall v, max | BoundedString(v, max) :: v.Str?
    ensures forall v | IsDigest(v) :: v.Str?
  {
  }

  lemma NormalizedIsNormal(c: Context)
    requires NormalizeContext(c).Some?
    ensures NormalForm(NormalizeContext(c).value)
  {
    OnlyStrings();
    hide NormalizeTypes, NormalizeSampleIndexes, BoundedString, IsDigest, WellTyped, WellIndexed, IsInstant, Less;
    hide FORWARD, BACKWARD;
    TypesBecomeNormal(ListOf(c.filters.types).value);
    SampleIndexesBecomeNormal(ListOf(c.filters.sampleIndexes).value);
  }

  lemma NormalTypesStay(types: seq<Text>)
    requires WellTyped(types)
    ensures NormalizeTypes(StringsJson(types).items) == Some(types)
  {
    Orders();
    hide Less, BoundedString;
    var items := StringsJson(types).items;
    assert seq(|items|, i requires 0 <= i < |items| && items[i].Str? => items[i].s) == types;
    SortOfIncreasing(types, Less);
  }

  lemma NormalSampleIndexesStay(ns: seq<int>)
    requires WellIndexed(ns)
    ensures NormalizeSampleIndexes(NumbersJson(ns).items) == Some(ns)
  {
    Orders();
    hide Less;
    var items := NumbersJson(ns).items;
    assert seq(|items|, i requires 0 <= i < |items| && items[i].Num? => items[i].n) == ns;
    SortOfIncreasing(ns, Below);
  }

  /** Normalization is idempotent: a normal context is its own normal form. */
  lemma NormalStaysNormal(c: NormalContext)
    requires NormalForm(c)
    ensures NormalizeContext(Given(c)) == Some(c)
  {
    hide NormalizeFilters, NormalFiltersForm, GivenFilters, BoundedString, IsDigest, FORWARD, BACKWARD;
    NormalFiltersStay(c.filters);
  }

  lemma NormalFiltersStay(f: NormalFilters)
    requires NormalFiltersForm(f)
    ensures NormalizeFilters(GivenFilters(f)) == Some(f)
  {
    assert StringsJson(f.types).Arr? && NumbersJson(f.sampleIndexes).Arr?;
    hide NormalizeTypes, NormalizeSampleIndexes, WellTyped, WellIndexed, IsInstant, Less, StringsJson, NumbersJson;
    NormalTypesStay(f.types);
    NormalSampleIndexesStay(f.sampleIndexes);
  }

  /** The order in which filters are listed does not matter. */
  lemma FilterOrderIsForgotten(f: Filters, g: Filters)
    requires ListOf(f.types).Some? && ListOf(g.types).Some?
    requires multiset(ListOf(f.types).value) == multiset(ListOf(g.types).value)
    requires ListOf(f.sampleIndexes).Some? && ListOf(g.sampleIndexes).Some?
    requires multiset(ListOf(f.sampleIndexes).value) == multiset(ListOf(g.sampleIndexes).value)
    requires f.occurredAtFrom == g.occurredAtFrom && f.occurredAtTo == g.occurredAtTo
    ensures NormalizeFilters(f) == NormalizeFilters(g)
  {
    TypeOrderIsForgotten(ListOf(f.types).value, ListOf(g.types).value);
    IndexOrderIsForgotten(ListOf(f.sampleIndexes).value, ListOf(g.sampleIndexes).value);
  }

  function Texts(items: seq<Json>): seq<Text>
    requires forall i | 0 <= i < |items| :: items[i].Str?
  {
    seq(|items|, i requires 0 <= i < |items| && items[i].Str? => items[i].s)
  }

  function Numbers(items: seq<Json>): seq<int>
    requires forall i | 0 <= i < |items| :: items[i].Num?
  {
    seq(|items|, i requires 0 <= i < |items| && items[i].Num? => items[i].n)
  }

  lemma {:induction false} TextsKeepCounts(items: seq<Json>, t: Text)
    requires forall i | 0 <= i < |items| :: items[i].Str?
    ensures multiset(Texts(items))[t] == multiset(items)[Str(t)]
  {
    if items != [] {
      TextsKeepCounts(items[1..], t);
      assert items == [items[0]] + items[1..];
      assert Texts(items) == [items[0].s] + Texts(items[1..]);
    }
  }

  lemma {:induction false} NumbersKeepCounts(items: seq<Json>, n: int)
    requires forall i | 0 <= i < |items| :: items[i].Num?
    ensures multiset(Numbers(items))[n] == multiset(items)[Num(n)]
  {
    if items != [] {
      NumbersKeepCounts(items[1..], n);
      assert items == [items[0]] + items[1..];
      assert Numbers(items) == [items[0].n] + Numbers(items[1..]);
    }
  }

  lemma SameLength<T>(a: seq<T>, b: seq<T>)
    requires multiset(a) == multiset(b)
    ensures |a| == |b| && forall i | 0 <= i < |a| :: a[i] in b
  {
    assert |a| == |multiset(a)| && |b| == |multiset(b)|;
    forall i | 0 <= i < |a|
      ensures a[i] in b
    {
      assert a[i] in multiset(b);
    }
  }

  lemma TypeOrderIsForgotten(a: seq<Json>, b: seq<Json>)
    requires multiset(a) == multiset(b)
    ensures NormalizeTypes(a) == NormalizeTypes(b)
  {
    Orders();
    SameLength(a, b);
    SameLength(b, a);
    hide Less, BoundedString;
    if |a| <= MAX_EVENT_TYPES && forall i | 0 <= i < |a| :: BoundedString(a[i], MAX_EVENT_TYPE_BYTES) {
      Bounded(a);
      Bounded(b);
      var s, t := Texts(a), Texts(b);
      assert multiset(s) == multiset(t) by {
        forall x: Text
          ensures multiset(s)[x] == multiset(t)[x]
        {
          TextsKeepCounts(a, x);
          TextsKeepCounts(b, x);
        }
      }
      SortFindsDuplicates(s, Less);
      SortFindsDuplicates(t, Less);
      if Distinct(s) {
        SortForgetsOrder(s, t, Less);
      } else if Distinct(t) {
        SortForgetsOrder(t, s, Less);
      }
    }
  }

  lemma Bounded(items: seq<Json>)
    requires forall i | 0 <= i < |items| :: BoundedString(items[i], MAX_EVENT_TYPE_BYTES)
    ensures forall i | 0 <= i < |items| :: items[i].Str?
  {
  }

  lemma IndexOrderIsForgotten(a: seq<Json>, b: seq<Json>)
    requires multiset(a) == multiset(b)
    ensures NormalizeSampleIndexes(a) == NormalizeSampleIndexes(b)
  {
    Orders();
    SameLength(a, b);
    SameLength(b, a);
    hide Less;
    if |a| <= MAX_SAMPLE_INDEXES && forall i | 0 <= i < |a| :: a[i].Num? && NonnegativeSafe(a[i].n) {
      var s, t := Numbers(a), Numbers(b);
      assert multiset(s) == multiset(t) by {
        forall x
          ensures multiset(s)[x] == multiset(t)[x]
        {
          NumbersKeepCounts(a, x);
          NumbersKeepCounts(b, x);
        }
      }
      SortFindsDuplicates(s, Below);
      SortFindsDuplicates(t, Below);
      if Distinct(s) {
        SortForgetsOrder(s, t, Below);
      } else if Distinct(t) {
        SortForgetsOrder(t, s, Below);
      }
    }
  }

  // Encodings of normal forms.

  lemma LettersAreHarmless()
    ensures forall u: CodeUnit | u < 0xD800 :: WellFormed([u]) && !DangerousKey([u])
  {
    forall u: CodeUnit | u < 0xD800
      ensures WellFormed([u]) && !DangerousKey([u])
    {
      PlainTextIsWellFormed([u]);
      assert |[u]| == 1;
    }
  }

  lemma WellTimedIsWellFormed(t: Option<Text>)
    requires WellTimed(t)
    ensures Canonical(InstantJson(t))
  {
    if t.Some? {
      PlainTextIsWellFormed(t.value);
    }
  }

  lemma StringsEncode(types: seq<Text>)
    requires WellTyped(types)
    ensures Canonical(StringsJson(types)) && AllSafe(StringsJson(types))
  {
    forall i | 0 <= i < |types|
      ensures WellFormed(types[i])
    {
      assert BoundedString(Str(types[i]), MAX_EVENT_TYPE_BYTES);
    }
  }

  lemma NumbersEncode(ns: seq<int>)
    requires WellIndexed(ns)
    ensures Canonical(NumbersJson(ns)) && AllSafe(NumbersJson(ns))
  {
  }

  lemma NormalFiltersEncode(f: NormalFilters)
    requires NormalFiltersForm(f)
    ensures Canonical(FiltersJson(f)) && AllSafe(FiltersJson(f))
  {
    LettersAreHarmless();
    StringsEncode(f.types);
    NumbersEncode(f.sampleIndexes);
    WellTimedIsWellFormed(f.occurredAtFrom);
    WellTimedIsWellFormed(f.occurredAtTo);
    hide Less, WellTyped, WellIndexed, DangerousKey, WellFormed, StringsJson, NumbersJson;
  }

  predicate ClaimsForm(c: Claims) {
    && NormalForm(c.context) && NonnegativeSafe(c.keyEpoch) && NonnegativeSafe(c.nextSequence)
    && NonnegativeSafe(c.issuedAtMs) && NonnegativeSafe(c.expiresAtMs)
  }

  lemma NormalTextsAreWellFormed(c: NormalContext)
    requires NormalForm(c)
    ensures WellFormed(c.projectId) && WellFormed(c.runId) && WellFormed(c.direction)
    ensures WellFormed(c.frozenContractDigest) && WellFormed(c.eventSetDigest) && WellFormed(c.lifecycleDigest)
  {
    PlainTextIsWellFormed(FORWARD);
    PlainTextIsWellFormed(BACKWARD);
    PlainTextIsWellFormed(c.frozenContractDigest);
    PlainTextIsWellFormed(c.eventSetDigest);
    PlainTextIsWellFormed(c.lifecycleDigest);
  }

  lemma PayloadKeysAre(c: Claims)
    ensures PayloadJson(c).fields.Keys == PAYLOAD_KEYS
    ensures K_F in PayloadJson(c).fields && PayloadJson(c).fields[K_F] == FiltersJson(c.context.filters)
    ensures FiltersJson(c.context.filters).fields.Keys == FILTER_KEYS
  {
    hide StringsJson, NumbersJson, InstantJson;
  }

  predicate Clean(fields: map<Text, Json>) {
    Canonical(Obj(fields)) && AllSafe(Obj(fields))
  }

  lemma Extend(fields: map<Text, Json>, k: Text, v: Json)
    requires Clean(fields) && Harmless(k) && Canonical(v) && AllSafe(v)
    ensures Clean(fields[k := v])
  {
    hide WellFormed, DangerousKey;
  }

  lemma LetterExtends(fields: map<Text, Json>, u: CodeUnit, v: Json)
    requires Clean(fields) && u < 0xD800 && Canonical(v) && AllSafe(v)
    ensures Clean(fields[[u] := v])
  {
    LettersAreHarmless();
    Extend(fields, [u], v);
  }

  lemma ClaimsEncode(c: Claims)
    requires ClaimsForm(c)
    ensures Canonical(PayloadJson(c)) && AllSafe(PayloadJson(c))
  {
    NormalTextsAreWellFormed(c.context);
    NormalFiltersEncode(c.context.filters);
    ScalarsAreClean();
    hide WellFormed, Canonical, AllSafe, Clean, FiltersJson, NormalFiltersForm, BoundedString, IsDigest;
    var m := map[];
    assert Clean(m) by { EmptyIsClean(); }
    LetterExtends(m, 0x76, Num(1)); m := m[K_V := Num(1)];
    LetterExtends(m, 0x6B, Num(c.keyEpoch)); m := m[K_K := Num(c.keyEpoch)];
    LetterExtends(m, 0x70, Str(c.context.projectId)); m := m[K_P := Str(c.context.projectId)];
    LetterExtends(m, 0x72, Str(c.context.runId)); m := m[K_R := Str(c.context.runId)];
    LetterExtends(m, 0x63, Str(c.context.frozenContractDigest)); m := m[K_C := Str(c.context.frozenContractDigest)];
    LetterExtends(m, 0x65, Str(c.context.eventSetDigest)); m := m[K_E := Str(c.context.eventSetDigest)];
    LetterExtends(m, 0x67, Str(c.context.lifecycleDigest)); m := m[K_G := Str(c.context.lifecycleDigest)];
    LetterExtends(m, 0x6E, Num(c.nextSequence)); m := m[K_N := Num(c.nextSequence)];
    LetterExtends(m, 0x64, Str(c.context.direction)); m := m[K_D := Str(c.context.direction)];
    LetterExtends(m, 0x66, FiltersJson(c.context.filters)); m := m[K_F := FiltersJson(c.context.filters)];
    LetterExtends(m, 0x6C, Num(c.context.limit)); m := m[K_L := Num(c.context.limit)];
    LetterExtends(m, 0x69, Num(c.issuedAtMs)); m := m[K_I := Num(c.issuedAtMs)];
    LetterExtends(m, 0x78, Num(c.expiresAtMs)); m := m[K_X := Num(c.expiresAtMs)];
    assert PayloadJson(c) == Obj(m);
    assert Canonical(Obj(m)) && AllSafe(Obj(m)) by { CleanMeans(m); }
  }

  lemma EmptyIsClean()
    ensures Clean(map[])
  {
  }

  lemma CleanMeans(fields: map<Text, Json>)
    requires Clean(fields)
    ensures Canonical(Obj(fields)) && AllSafe(Obj(fields))
  {
  }

  lemma ScalarsAreClean()
    ensures forall n | NonnegativeSafe(n) :: Canonical(Num(n)) && AllSafe(Num(n))
    ensures forall t | WellFormed(t) :: Canonical(Str(t)) && AllSafe(Str(t))
  {
    hide WellFormed;
  }

  lemma StringsAreInjective(a: seq<Text>, b: seq<Text>)
    requires StringsJson(a) == StringsJson(b)
    ensures a == b
  {
    var x, y := StringsJson(a).items, StringsJson(b).items;
    assert forall i | 0 <= i < |a| :: x[i] == Str(a[i]) && y[i] == Str(b[i]);
  }

  lemma NumbersAreInjective(a: seq<int>, b: seq<int>)
    requires NumbersJson(a) == NumbersJson(b)
    ensures a == b
  {
    var x, y := NumbersJson(a).items, NumbersJson(b).items;
    assert forall i | 0 <= i < |a| :: x[i] == Num(a[i]) && y[i] == Num(b[i]);
  }

  predicate Harmless(k: Text) {
    WellFormed(k) && !DangerousKey(k)
  }

  lemma ContextKeysDiffer()
    ensures var p, r, l, d := Ascii("projectId"), Ascii("runId"), Ascii("limit"), Ascii("direction");
            var c, e, g, f := Ascii("frozenContractDigest"), Ascii("eventSetDigest"), Ascii("lifecycleDigest"),
                Ascii("filters");
            && |p| == |d| == 9 && p[0] == 0x70 && d[0] == 0x64 && |r| == |l| == 5 && r[0] == 0x72 && l[0] == 0x6C
            && |c| == 20 && |e| == 14 && |g| == 15 && |f| == 7
    ensures |Ascii("types")| == 5 && |Ascii("sampleIndexes")| == 13 && |Ascii("occurredAtFrom")| == 14
    ensures |Ascii("occurredAtTo")| == 12
  {
  }

  lemma KeyIsHarmless(k: Text)
    requires NoSurrogates(k) && |k| != 11 && (|k| == 9 ==> k[3] == 0x6A || k[0] == 0x64)
    ensures Harmless(k)
  {
    PlainTextIsWellFormed(k);
    assert Ascii("prototype")[3] == 0x74 && Ascii("prototype")[0] == 0x70;
    assert Ascii("__proto__")[3] == 0x72 && Ascii("__proto__")[0] == 0x5F;
    assert |Ascii("__proto__")| == |Ascii("prototype")| == 9 && |Ascii("constructor")| == 11;
  }

  lemma IdentifierKeysAreHarmless()
    ensures Harmless(Ascii("projectId")) && Harmless(Ascii("runId")) && Harmless(Ascii("limit"))
    ensures Harmless(Ascii("direction"))
  {
    ProjectAndDirectionAreHarmless();
    hide Harmless;
    KeyIsHarmless(Ascii("runId"));
    KeyIsHarmless(Ascii("limit"));
  }

  lemma ProjectAndDirectionAreHarmless()
    ensures Harmless(Ascii("projectId")) && Harmless(Ascii("direction"))
  {
    hide Harmless;
    var p, d := Ascii("projectId"), Ascii("direction");
    assert p[3] == 0x6A && d[0] == 0x64;
    KeyIsHarmless(p);
    KeyIsHarmless(d);
  }

  lemma DigestKeysAreHarmless()
    ensures Harmless(Ascii("frozenContractDigest")) && Harmless(Ascii("eventSetDigest"))
    ensures Harmless(Ascii("lifecycleDigest"))
  {
    hide Harmless;
    KeyIsHarmless(Ascii("frozenContractDigest"));
    KeyIsHarmless(Ascii("eventSetDigest"));
    KeyIsHarmless(Ascii("lifecycleDigest"));
  }

  lemma FilterKeysAreHarmless()
    ensures Harmless(Ascii("filters")) && Harmless(Ascii("types")) && Harmless(Ascii("sampleIndexes"))
    ensures Harmless(Ascii("occurredAtFrom")) && Harmless(Ascii("occurredAtTo"))
  {
    hide Harmless;
    KeyIsHarmless(Ascii("filters"));
    KeyIsHarmless(Ascii("types"));
    KeyIsHarmless(Ascii("sampleIndexes"));
    KeyIsHarmless(Ascii("occurredAtFrom"));
    KeyIsHarmless(Ascii("occurredAtTo"));
  }

  lemma ContextEncodes(c: NormalContext)
    requires NormalForm(c)
    ensures Canonical(ContextJson(c))
  {
    IdentifierKeysAreHarmless();
    DigestKeysAreHarmless();
    FilterKeysAreHarmless();
    NormalTextsAreWellFormed(c);
    StringsEncode(c.filters.types);
    NumbersEncode(c.filters.sampleIndexes);
    WellTimedIsWellFormed(c.filters.occurredAtFrom);
    WellTimedIsWellFormed(c.filters.occurredAtTo);
    ScalarsAreClean();
    InstantsAreSafe(c.filters);
    hide Ascii, NormalForm, Harmless, WellFormed, Canonical, AllSafe, Clean, StringsJson, NumbersJson, InstantJson;
    var f, m := map[], map[];
    assert Clean(m) by { EmptyIsClean(); }
    Extend(f, Ascii("types"), StringsJson(c.filters.types)); f := f[Ascii("types") := StringsJson(c.filters.types)];
    Extend(f, Ascii("sampleIndexes"), NumbersJson(c.filters.sampleIndexes));
    f := f[Ascii("sampleIndexes") := NumbersJson(c.filters.sampleIndexes)];
    Extend(f, Ascii("occurredAtFrom"), InstantJson(c.filters.occurredAtFrom));
    f := f[Ascii("occurredAtFrom") := InstantJson(c.filters.occurredAtFrom)];
    Extend(f, Ascii("occurredAtTo"), InstantJson(c.filters.occurredAtTo));
    f := f[Ascii("occurredAtTo") := InstantJson(c.filters.occurredAtTo)];
    CleanMeans(f);
    Extend(m, Ascii("projectId"), Str(c.projectId)); m := m[Ascii("projectId") := Str(c.projectId)];
    Extend(m, Ascii("runId"), Str(c.runId)); m := m[Ascii("runId") := Str(c.runId)];
    Extend(m, Ascii("frozenContractDigest"), Str(c.frozenContractDigest));
    m := m[Ascii("frozenContractDigest") := Str(c.frozenContractDigest)];
    Extend(m, Ascii("eventSetDigest"), Str(c.eventSetDigest)); m := m[Ascii("eventSetDigest") := Str(c.eventSetDigest)];
    Extend(m, Ascii("lifecycleDigest"), Str(c.lifecycleDigest));
    m := m[Ascii("lifecycleDigest") := Str(c.lifecycleDigest)];
    Extend(m, Ascii("direction"), Str(c.direction)); m := m[Ascii("direction") := Str(c.direction)];
    Extend(m, Ascii("filters"), Obj(f)); m := m[Ascii("filters") := Obj(f)];
    assert Canonical(Num(c.limit)) && AllSafe(Num(c.limit)) by { LimitIsClean(c); }
    Extend(m, Ascii("limit"), Num(c.limit)); m := m[Ascii("limit") := Num(c.limit)];
    CleanMeans(m);
    assert ContextJson(c) == Obj(m);
  }

  lemma LimitIsClean(c: NormalContext)
    requires NormalForm(c)
    ensures Canonical(Num(c.limit)) && AllSafe(Num(c.limit))
  {
  }

  lemma InstantsAreSafe(f: NormalFilters)
    ensures AllSafe(InstantJson(f.occurredAtFrom)) && AllSafe(InstantJson(f.occurredAtTo))
  {
  }

  lemma ContextJsonIsInjective(a: NormalContext, b: NormalContext)
    requires ContextJson(a) == ContextJson(b)
    ensures a == b
  {
    ContextKeysDiffer();
    hide StringsJson, NumbersJson;
    var x, y := ContextJson(a).fields, ContextJson(b).fields;
    assert x[Ascii("projectId")] == y[Ascii("projectId")] && x[Ascii("runId")] == y[Ascii("runId")];
    assert x[Ascii("frozenContractDigest")] == y[Ascii("frozenContractDigest")];
    assert x[Ascii("eventSetDigest")] == y[Ascii("eventSetDigest")];
    assert x[Ascii("lifecycleDigest")] == y[Ascii("lifecycleDigest")];
    assert x[Ascii("direction")] == y[Ascii("direction")] && x[Ascii("limit")] == y[Ascii("limit")];
    var f, g := x[Ascii("filters")].fields, y[Ascii("filters")].fields;
    assert f[Ascii("types")] == g[Ascii("types")] && f[Ascii("sampleIndexes")] == g[Ascii("sampleIndexes")];
    assert f[Ascii("occurredAtFrom")] == g[Ascii("occurredAtFrom")]
        && f[Ascii("occurredAtTo")] == g[Ascii("occurredAtTo")];
    StringsAreInjective(a.filters.types, b.filters.types);
    NumbersAreInjective(a.filters.sampleIndexes, b.filters.sampleIndexes);
  }

  /** Comparing encodings compares normal contexts. */
  lemma SameContextIsEquality(a: NormalContext, b: NormalContext)
    requires NormalForm(a) && NormalForm(b)
    ensures SameContext(a, b) <==> a == b
  {
    ContextEncodes(a);
    ContextEncodes(b);
    BytesDecideEquality(ContextJson(a), ContextJson(b));
    hide NormalForm, ContextJson;
    if SameContext(a, b) {
      ContextJsonIsInjective(a, b);
    }
  }

  // Tokens.

  lemma {:induction false} FirstDot(a: Text, b: Text)
    requires DOT !in a
    ensures IndexOf(a + [DOT] + b, DOT) == Some(|a|)
  {
    var t := a + [DOT] + b;
    if a != [] {
      FirstDot(a[1..], b);
      assert t[1..] == a[1..] + [DOT] + b && t[0] == a[0];
    }
  }

  lemma {:induction false} LastDot(a: Text, b: Text)
    requires DOT !in b
    ensures LastIndexOf(a + [DOT] + b, DOT) == Some(|a|)
    decreases |b|
  {
    var t := a + [DOT] + b;
    if b != [] {
      var m := |b| - 1;
      LastDot(a, b[..m]);
      assert t[..|t| - 1] == a + [DOT] + b[..m] && t[|t| - 1] == b[m];
    }
  }

  lemma SymbolsHaveNoDot(b: seq<Byte>)
    ensures DOT !in Base64(b)
  {
    Base64Decodes(b);
  }

  lemma TokenSplits(codec: Codec, payload: seq<Byte>)
    ensures var t, n := Token(codec, payload), |Base64(payload)|;
            && IndexOf(t, DOT) == Some(n) && LastIndexOf(t, DOT) == Some(n)
            && n < |t| && t[..n] == Base64(payload) && t[n + 1..] == Base64(Mac(codec, payload))
  {
    SymbolsHaveNoDot(payload);
    SymbolsHaveNoDot(Mac(codec, payload));
    hide Base64, Mac;
    FirstDot(Base64(payload), Base64(Mac(codec, payload)));
    LastDot(Base64(payload), Base64(Mac(codec, payload)));
  }

  lemma DecodedIsToken(codec: Codec, token: Text, payload: seq<Byte>)
    requires DecodeToken(codec, token) == Some(payload)
    ensures token == Token(codec, payload) && 0 < |payload| <= MAX_PAYLOAD_BYTES && |token| <= MAX_CURSOR_CHARACTERS
  {
    hide Base64, StrictBase64, Mac;
    var i := IndexOf(token, DOT).value;
    StrictBase64IsExact(token[..i], payload);
    StrictBase64IsExact(token[i + 1..], Mac(codec, payload));
    hide IndexOf, LastIndexOf;
    assert token == token[..i] + [DOT] + token[i + 1..];
  }

  lemma TokenDecodes(codec: Codec, payload: seq<Byte>)
    requires WellKeyed(codec) && 0 < |payload| <= MAX_PAYLOAD_BYTES && |Token(codec, payload)| <= MAX_CURSOR_CHARACTERS
    ensures DecodeToken(codec, Token(codec, payload)) == Some(payload)
  {
    hide Base64, StrictBase64, IndexOf, LastIndexOf, Mac, Token;
    var t, n := Token(codec, payload), |Base64(payload)|;
    TokenSplits(codec, payload);
    PartsDecode(codec, payload);
    assert n > 0 && t != [];
  }

  lemma PartsDecode(codec: Codec, payload: seq<Byte>)
    requires WellKeyed(codec) && 0 < |payload|
    ensures StrictBase64(Base64(payload)) == Some(payload) && |Base64(payload)| > 0
    ensures var signature := Mac(codec, payload);
            && StrictBase64(Base64(signature)) == Some(signature) && |signature| == SIGNATURE_BYTES
            && |Base64(signature)| == SIGNATURE_CHARACTERS
  {
    hide Base64, StrictBase64;
    var signature := Mac(codec, payload);
    assert |signature| == SIGNATURE_BYTES;
    Base64Length(payload);
    Base64Length(signature);
    StrictBase64IsExact(Base64(payload), payload);
    StrictBase64IsExact(Base64(signature), signature);
  }

  /** A token decodes to a payload exactly when it is spelled as the encoder spells that payload. */
  lemma DecodesExactly(codec: Codec, token: Text, payload: seq<Byte>)
    requires WellKeyed(codec)
    ensures DecodeToken(codec, token) == Some(payload) <==>
            token == Token(codec, payload) && 0 < |payload| <= MAX_PAYLOAD_BYTES && |token| <= MAX_CURSOR_CHARACTERS
  {
    hide DecodeToken, Token;
    if DecodeToken(codec, token) == Some(payload) {
      DecodedIsToken(codec, token, payload);
    } else if token == Token(codec, payload) && 0 < |payload| <= MAX_PAYLOAD_BYTES && |token| <= MAX_CURSOR_CHARACTERS {
      TokenDecodes(codec, payload);
    }
  }

  lemma PayloadParses(v: Json)
    requires Canonical(v) && AllSafe(v) && PayloadShape(v)
    ensures ParsePayload(Bytes(v)) == Some(v)
  {
    PrintIsWellFormed(v);
    DecodeUndoesEncode(Print(v));
    RoundTrip(v);
    hide DecodeUtf8, Parse, Print, PayloadShape, AllSafe, Canonical;
  }

  lemma ParsedHasTheseBytes(bytes: seq<Byte>)
    requires ParsePayload(bytes).Some?
    ensures Bytes(ParsePayload(bytes).value) == bytes
  {
    hide DecodeUtf8, Parse, Print, Bytes, Canonical, PayloadShape;
  }

  lemma ShapeHasKeys(p: Json)
    requires PayloadShape(p)
    ensures p.Obj? && p.fields.Keys == PAYLOAD_KEYS
    ensures forall k | k in {K_C, K_D, K_E, K_F, K_G, K_I, K_K, K_L, K_N, K_P, K_R, K_V, K_X} :: k in p.fields
  {
  }

  lemma ClaimsHaveShape(c: Claims)
    ensures PayloadShape(PayloadJson(c))
  {
    PayloadKeysAre(c);
    assert FiltersJson(c.context.filters).Obj? && PayloadJson(c).Obj?;
    hide PayloadJson, FiltersJson, PAYLOAD_KEYS;
  }

  lemma FiltersAreCanonical(p: Json)
    requires PayloadShape(p) && Canonical(p)
    ensures Canonical(p.fields[K_F])
  {
    ShapeHasKeys(p);
    hide PayloadShape, WellFormed, DangerousKey, PAYLOAD_KEYS;
  }

  /** What validation concluded, part by part. */
  lemma ValidatedParts(p: Json, keyEpoch: int, now: int)
    requires PayloadShape(p) && Canonical(p) && ValidatePayload(p, keyEpoch, now).Some?
    ensures var c := ValidatePayload(p, keyEpoch, now).value;
            && HeaderAccepted(p, keyEpoch, now) && NormalizeContext(ContextFromPayload(p)) == Some(c.context)
            && c.keyEpoch == keyEpoch
            && p.fields[K_N].Num? && p.fields[K_I].Num? && p.fields[K_X].Num?
            && c.nextSequence == p.fields[K_N].n && c.issuedAtMs == p.fields[K_I].n && c.expiresAtMs == p.fields[K_X].n
            && p.fields[K_F] == FiltersJson(c.context.filters)
  {
    ShapeHasKeys(p);
    FiltersAreCanonical(p);
    hide NormalizeContext, Canonical, Bytes, FiltersJson, ContextFromPayload, HeaderAccepted, PAYLOAD_KEYS;
    hide PayloadShape;
    HeaderFieldsAgree(p, keyEpoch, now);
    var c := ValidatePayload(p, keyEpoch, now).value;
    FiltersAgree(p, c.context.filters);
  }

  lemma FiltersAgree(p: Json, n: NormalFilters)
    requires PayloadShape(p) && Canonical(p)
    requires Canonical(FiltersJson(n)) && Canonical(p.fields[K_F]) && Bytes(p.fields[K_F]) == Bytes(FiltersJson(n))
    ensures p.fields[K_F] == FiltersJson(n)
  {
    hide Canonical, Bytes, FiltersJson;
    BytesDecideEquality(p.fields[K_F], FiltersJson(n));
  }

  lemma ContextFieldsAgree(p: Json, c: NormalContext)
    requires PayloadShape(p) && NormalizeContext(ContextFromPayload(p)) == Some(c)
    ensures p.fields[K_P] == Str(c.projectId) && p.fields[K_R] == Str(c.runId)
    ensures p.fields[K_C] == Str(c.frozenContractDigest)
    ensures p.fields[K_E] == Str(c.eventSetDigest) && p.fields[K_G] == Str(c.lifecycleDigest)
    ensures p.fields[K_D] == Str(c.direction) && p.fields[K_L] == Num(c.limit)
  {
    OnlyStrings();
    hide BoundedString, IsDigest, NormalizeFilters, FORWARD, BACKWARD;
  }

  lemma HeaderFieldsAgree(p: Json, keyEpoch: int, now: int)
    requires PayloadShape(p) && HeaderAccepted(p, keyEpoch, now)
    ensures p.fields[K_V] == Num(1) && p.fields[K_K] == Num(keyEpoch)
    ensures p.fields[K_N].Num? && p.fields[K_I].Num? && p.fields[K_X].Num?
    ensures 0 <= p.fields[K_I].n <= now < p.fields[K_X].n && 1 <= p.fields[K_X].n - p.fields[K_I].n <= MAX_TTL_MS
    ensures NonnegativeSafe(p.fields[K_N].n) && NonnegativeSafe(p.fields[K_I].n) && NonnegativeSafe(p.fields[K_X].n)
  {
  }

  lemma {:induction false} PayloadFromFields(p: Json, c: Claims)
    requires p.Obj? && p.fields.Keys == PAYLOAD_KEYS
    requires p.fields[K_V] == Num(1) && p.fields[K_K] == Num(c.keyEpoch) && p.fields[K_N] == Num(c.nextSequence)
    requires p.fields[K_I] == Num(c.issuedAtMs) && p.fields[K_X] == Num(c.expiresAtMs)
    requires p.fields[K_P] == Str(c.context.projectId) && p.fields[K_R] == Str(c.context.runId)
    requires p.fields[K_C] == Str(c.context.frozenContractDigest) && p.fields[K_E] == Str(c.context.eventSetDigest)
    requires p.fields[K_G] == Str(c.context.lifecycleDigest) && p.fields[K_D] == Str(c.context.direction)
    requires p.fields[K_L] == Num(c.context.limit) && p.fields[K_F] == FiltersJson(c.context.filters)
    ensures p == PayloadJson(c)
  {
    hide FiltersJson;
    var q := PayloadJson(c);
    assert q.fields.Keys == PAYLOAD_KEYS;
    assert forall k | k in PAYLOAD_KEYS :: p.fields[k] == q.fields[k];
    assert p.fields == q.fields;
  }

  /** A payload that validates is the payload of its claims. */
  lemma ValidatedIsItsClaims(p: Json, keyEpoch: int, now: int)
    requires PayloadShape(p) && Canonical(p) && ValidatePayload(p, keyEpoch, now).Some?
    ensures p == PayloadJson(ValidatePayload(p, keyEpoch, now).value)
    ensures var c := ValidatePayload(p, keyEpoch, now).value;
            && c.keyEpoch == keyEpoch && c.issuedAtMs <= now < c.expiresAtMs
            && 1 <= c.expiresAtMs - c.issuedAtMs <= MAX_TTL_MS
            && NonnegativeSafe(c.nextSequence) && NonnegativeSafe(c.issuedAtMs) && NonnegativeSafe(c.expiresAtMs)
            && NormalForm(c.context)
  {
    var c := ValidatePayload(p, keyEpoch, now).value;
    ShapeHasKeys(p);
    hide NormalizeContext, Canonical, Bytes, FiltersJson, ContextFromPayload, HeaderAccepted, NormalForm, PAYLOAD_KEYS;
    hide PayloadJson, PayloadShape;
    hide ValidatePayload;
    ValidatedParts(p, keyEpoch, now);
    HeaderFieldsAgree(p, keyEpoch, now);
    ContextFieldsAgree(p, c.context);
    NormalizedIsNormal(ContextFromPayload(p));
    PayloadFromFields(p, c);
  }

  /**
   Every token that verification accepts is the one token `issue` returns, at the claimed
   time and lifetime, for the expected context; and it is accepted only during its life.
   */
  lemma AcceptedTokenIsIssued(codec: Codec, token: Text, expected: Context, now: int)
    requires WellKeyed(codec) && Verify(codec, token, expected, now).Some?
    ensures var c := Verify(codec, token, expected, now).value;
            && NormalizeContext(expected) == Some(c.context) && c.keyEpoch == codec.keyEpoch
            && c.issuedAtMs <= now < c.expiresAtMs
            && Issue(codec, expected, c.nextSequence, c.issuedAtMs, Some(c.expiresAtMs - c.issuedAtMs)) == Some(token)
  {
    hide Token, NormalizeContext, PayloadJson, Canonical, Bytes, NormalForm, SameContext, DecodeToken, ParsePayload;
    hide ValidatePayload, PayloadShape;
    var c := Verify(codec, token, expected, now).value;
    var bytes := DecodeToken(codec, token).value;
    var p := ParsePayload(bytes).value;
    DecodesExactly(codec, token, bytes);
    ParsedHasTheseBytes(bytes);
    ValidatedIsItsClaims(p, codec.keyEpoch, now);
    NormalizedIsNormal(expected);
    SameContextIsEquality(c.context, NormalizeContext(expected).value);
  }

  lemma IssuedClaims(codec: Codec, context: Context, nextSequence: int, now: int, ttlMs: Option<int>)
    requires WellKeyed(codec) && Issue(codec, context, nextSequence, now, ttlMs).Some?
    ensures var ttl := if ttlMs.Some? then ttlMs.value else codec.defaultTtlMs;
            && NormalizeContext(context).Some? && 1 <= ttl <= MAX_TTL_MS
            && var c := Claims(codec.keyEpoch, NormalizeContext(context).value, nextSequence, now, now + ttl);
            && ClaimsForm(c)
            && Issue(codec, context, nextSequence, now, ttlMs) == Seal(codec, PayloadJson(c))
  {
    hide Seal, NormalizeContext, PayloadJson, NormalForm;
    NormalizedIsNormal(context);
  }

  lemma BytesAreNotEmpty(v: Json)
    requires Canonical(v)
    ensures Bytes(v) != []
  {
    PrintIsWellFormed(v);
    hide Print;
  }

  lemma SealDecodes(codec: Codec, verifier: Codec, payload: Json)
    requires WellKeyed(codec) && WellKeyed(verifier) && verifier.hmac == codec.hmac && Seal(codec, payload).Some?
    ensures Canonical(payload) && DecodeToken(verifier, Seal(codec, payload).value) == Some(Bytes(payload))
  {
    BytesAreNotEmpty(payload);
    hide Canonical, Bytes, DecodeToken;
    assert Token(verifier, Bytes(payload)) == Token(codec, Bytes(payload));
    DecodesExactly(verifier, Token(codec, Bytes(payload)), Bytes(payload));
  }

  lemma ClaimedContextIsGiven(c: Claims)
    ensures PayloadShape(PayloadJson(c)) && ContextFromPayload(PayloadJson(c)) == Given(c.context)
  {
    ClaimsHaveShape(c);
    hide StringsJson, NumbersJson, InstantJson, PayloadShape;
  }

  lemma ClaimedHeader(c: Claims, keyEpoch: int, now: int)
    requires ClaimsForm(c) && 1 <= c.expiresAtMs - c.issuedAtMs <= MAX_TTL_MS && 1 <= c.keyEpoch
    ensures PayloadShape(PayloadJson(c))
    ensures var f := PayloadJson(c).fields;
            f[K_N] == Num(c.nextSequence) && f[K_I] == Num(c.issuedAtMs) && f[K_X] == Num(c.expiresAtMs)
    ensures HeaderAccepted(PayloadJson(c), keyEpoch, now)
            <==> keyEpoch == c.keyEpoch && c.issuedAtMs <= now < c.expiresAtMs
  {
    ClaimsHaveShape(c);
    hide NormalForm, FiltersJson, PayloadShape;
  }

  lemma ClaimsValidateExactly(c: Claims, keyEpoch: int, now: int)
    requires ClaimsForm(c) && 1 <= c.expiresAtMs - c.issuedAtMs <= MAX_TTL_MS && 1 <= c.keyEpoch
    ensures PayloadShape(PayloadJson(c)) && Canonical(PayloadJson(c))
    ensures ValidatePayload(PayloadJson(c), keyEpoch, now) ==
            if keyEpoch == c.keyEpoch && c.issuedAtMs <= now < c.expiresAtMs then Some(c) else None
  {
    ClaimsEncode(c);
    PayloadKeysAre(c);
    ClaimsHaveShape(c);
    hide Canonical, Bytes, NormalForm, ContextFromPayload, FiltersJson, NormalizeContext, AllSafe, PayloadJson;
    hide HeaderAccepted, PAYLOAD_KEYS, PayloadShape;
    ClaimedHeader(c, keyEpoch, now);
    ClaimedContextIsGiven(c);
    NormalStaysNormal(c.context);
    FiltersOfForm(c.context);
    NormalFiltersEncode(c.context.filters);
  }

  lemma FiltersOfForm(c: NormalContext)
    requires NormalForm(c)
    ensures NormalFiltersForm(c.filters)
  {
  }

  /**
   Verifying an issued token, with the same secret, returns the issued claims exactly when
   the normal contexts are equal, the key epoch matches, and the token is alive.
   */
  lemma IssuedTokenVerifies(codec: Codec, context: Context, nextSequence: int, issued: int, ttlMs: Option<int>,
                            verifier: Codec, expected: Context, now: int)
    requires WellKeyed(codec) && WellKeyed(verifier) && verifier.hmac == codec.hmac && NonnegativeSafe(now)
    requires Issue(codec, context, nextSequence, issued, ttlMs).Some?
    ensures var token := Issue(codec, context, nextSequence, issued, ttlMs).value;
            var expires := issued + if ttlMs.Some? then ttlMs.value else codec.defaultTtlMs;
            && NormalizeContext(context).Some?
            && var claims := Claims(codec.keyEpoch, NormalizeContext(context).value, nextSequence, issued, expires);
            Verify(verifier, token, expected, now) ==
              if NormalizeContext(expected) == NormalizeContext(context) && verifier.keyEpoch == codec.keyEpoch
                 && issued <= now < expires
              then Some(claims) else None
  {
    hide Seal, Issue, NormalizeContext, PayloadJson, Canonical, AllSafe, Bytes, NormalForm, SameContext, DecodeToken;
    hide ParsePayload, ValidatePayload, PayloadShape;
    IssuedClaims(codec, context, nextSequence, issued, ttlMs);
    var expires := issued + if ttlMs.Some? then ttlMs.value else codec.defaultTtlMs;
    var claims := Claims(codec.keyEpoch, NormalizeContext(context).value, nextSequence, issued, expires);
    SealDecodes(codec, verifier, PayloadJson(claims));
    ClaimsEncode(claims);
    ClaimsValidateExactly(claims, verifier.keyEpoch, now);
    PayloadParses(PayloadJson(claims));
    if NormalizeContext(expected).Some? {
      NormalizedIsNormal(expected);
      SameContextIsEquality(claims.context, NormalizeContext(expected).value);
    }
  }
}
