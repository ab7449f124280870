/** When normalization is a fixed point, and how it interacts with writes at pointers. */
module NormalizationLaws {
  import opened CanonicalJson
  import opened CanonicalJsonParser
  import opened JsonPointer
  import opened SchemaProfile
  import opened Normalization

  /** The node can change the children of a value, or add some. */
  predicate Rewrites(s: Json) {
    || Properties(s) != map[]
    || (Has(s, K_ADDITIONAL) && s.fields[K_ADDITIONAL].Obj?)
    || (Has(s, K_ITEMS) && s.fields[K_ITEMS].Obj?)
  }

  predicate IsScalar(v: Json) {
    !v.Obj? && !v.Arr?
  }

  /** Beside a reference, only keywords that check. */
  predicate ReferencesOnlyChecked(sc: Schema) {
    forall s | s in sc.order && RefOf(s).Some? :: !Rewrites(s)
  }

  /** Where children may be rewritten, `enum` and `const` offer scalars only. */
  predicate ChoicesStable(sc: Schema) {
    forall s | s in sc.order && Rewrites(s) ::
      && (Has(s, K_ENUM) && s.fields[K_ENUM].Arr? ==> forall i | 0 <= i < |s.fields[K_ENUM].items| ::
         IsScalar(s.fields[K_ENUM].items[i]))
      && (Has(s, K_CONST) ==> IsScalar(s.fields[K_CONST]))
  }

  /** The node consists of a reference and nothing else. */
  predicate OnlyReference(s: Json) {
    RefOf(s).Some? && s.fields.Keys == {K_REF}
  }

  /** Nothing is left to fill in: every default the schema would supply is present, at every depth. */
  ghost predicate Filled(sc: Schema, s: Json, v: Json)
    requires Sound(sc) && InScope(sc, s)
    decreases Rank(sc, s), 2
  {
    s.Obj? ==>
      && (OnlyReference(s) || NodeFilled(sc, s, v))
      && TargetFilled(sc, s, v)
  }

  /** The same for the target of a reference, if there is one. */
  ghost predicate TargetFilled(sc: Schema, s: Json, v: Json)
    requires Sound(sc) && InScope(sc, s)
    decreases Rank(sc, s), 1
  {
    if RefOf(s).None? then true
    else
      ReferenceFalls(sc, s);
      Filled(sc, Resolve(sc.root, RefOf(s).value).value, v)
  }

  /** The same for the node's own keywords, `$ref` aside. */
  ghost predicate NodeFilled(sc: Schema, s: Json, v: Json)
    requires Sound(sc) && s.Obj? && InScope(sc, s)
    decreases Rank(sc, s), 1
  {
    match v
    case Obj(fields) => Fill(s, fields).Keys == fields.Keys && forall k | k in fields ::
      MemberFilled(sc, s, k, fields[k])
    case Arr(items) => forall i | 0 <= i < |items| :: ItemFilled(sc, s, items[i])
    case _ => true
  }

  ghost predicate MemberFilled(sc: Schema, s: Json, key: Text, v: Json)
    requires Sound(sc) && s.Obj? && InScope(sc, s)
    decreases Rank(sc, s), 0
  {
    MemberSchemaFalls(sc, s, key);
    Filled(sc, MemberSchema(s, key), v)
  }

  ghost predicate ItemFilled(sc: Schema, s: Json, v: Json)
    requires Sound(sc) && s.Obj? && InScope(sc, s)
    decreases Rank(sc, s), 0
  {
    ItemSchemaFalls(sc, s);
    Filled(sc, ItemSchema(s), v)
  }

  // A node as a relation between the value and its normal form.

  /** The checks of one node, children aside. */
  ghost predicate NodeChecks(s: Json, v: Json) {
    && Canonical(v) && ChoicesAllow(s, v) && TypeAllows(s, v)
    && match v
       case Obj(fields) => RequiredPresent(s, Fill(s, fields).Keys)
       case Arr(items) => Within(s, K_MIN_ITEMS, K_MAX_ITEMS, |items|)
       case Num(n) => NumberAllowed(s, n)
       case Str(t) => Within(s, K_MIN_LENGTH, K_MAX_LENGTH, CodePointCount(t))
       case _ => true
  }

  ghost predicate ChildrenBecome(sc: Schema, s: Json, v: Json, w: Json)
    requires Sound(sc) && s.Obj? && InScope(sc, s)
  {
    match v
    case Obj(fields) =>
      && w.Obj? && w.fields.Keys == Fill(s, fields).Keys
      && forall k | k in w.fields :: NormalizeMember(sc, s, k, Fill(s, fields)[k]) == Some(w.fields[k])
    case Arr(items) =>
      && w.Arr? && |w.items| == |items|
      && forall i | 0 <= i < |items| :: NormalizeItem(sc, s, items[i]) == Some(w.items[i])
    case _ => w == v
  }

  lemma NodeIsRelation(sc: Schema, s: Json, v: Json, w: Json)
    requires Sound(sc) && s.Obj? && InScope(sc, s)
    ensures NormalizeNode(sc, s, v) == Some(w) <==> NodeChecks(s, v) && ChildrenBecome(sc, s, v, w)
  {
    hide ChoicesAllow, TypeAllows, RequiredPresent, NumberAllowed, Within, Properties, NormalizeMember, NormalizeItem;
    hide Sound, InScope;
    var r := NormalizeNode(sc, s, v);
    match v
    case Obj(fields) =>
      var filled := Fill(s, fields);
      if r == Some(w) {
        assert forall k | k in w.fields :: NormalizeMember(sc, s, k, filled[k]) == Some(w.fields[k]);
      }
      if NodeChecks(s, v) && ChildrenBecome(sc, s, v, w) {
        assert forall k | k in filled :: NormalizeMember(sc, s, k, filled[k]).Some?;
        assert r.value.fields == w.fields;
      }
    case Arr(items) =>
      if NodeChecks(s, v) && ChildrenBecome(sc, s, v, w) {
        assert forall i | 0 <= i < |items| :: NormalizeItem(sc, s, items[i]).Some?;
        assert r.value.items == w.items;
      }
    case _ =>
  }

  lemma CheckedNodeKeeps(sc: Schema, s: Json, v: Json)
    requires Sound(sc) && s.Obj? && InScope(sc, s) && !Rewrites(s)
    requires NormalizeNode(sc, s, v).Some?
    ensures NormalizeNode(sc, s, v) == Some(v)
  {
    hide NormalizeNode, NodeChecks, Sound, InScope;
    var w := NormalizeNode(sc, s, v).value;
    NodeIsRelation(sc, s, v, w);
    NodeIsRelation(sc, s, v, v);
    match v
    case Obj(fields) =>
      assert Fill(s, fields) == fields;
      forall k | k in fields
        ensures NormalizeMember(sc, s, k, fields[k]) == Some(fields[k])
      {
        assert !MemberSchema(s, k).Obj?;
        assert NormalizeMember(sc, s, k, fields[k]).Some?;
      }
    case Arr(items) =>
      forall i | 0 <= i < |items|
        ensures NormalizeItem(sc, s, items[i]) == Some(items[i])
      {
        assert !ItemSchema(s).Obj?;
        assert NormalizeItem(sc, s, items[i]).Some?;
      }
    case _ =>
  }

  /** A node that only checks has nothing to fill in. */
  lemma CheckedIsFilled(sc: Schema, s: Json, v: Json)
    requires Sound(sc) && s.Obj? && InScope(sc, s) && !Rewrites(s)
    ensures NodeFilled(sc, s, v)
  {
    hide Sound, InScope;
    match v
    case Obj(fields) =>
      forall k | k in fields
        ensures MemberFilled(sc, s, k, fields[k])
      {
        assert !MemberSchema(s, k).Obj?;
      }
    case Arr(items) =>
      forall i | 0 <= i < |items|
        ensures ItemFilled(sc, s, items[i])
      {
        assert !ItemSchema(s).Obj?;
      }
    case _ =>
  }

  /** What normalization returns has nothing left to fill in. */
  lemma {:induction false} NormalizedIsFilled(sc: Schema, s: Json, v: Json)
    requires Sound(sc) && InScope(sc, s) && ReferencesOnlyChecked(sc)
    requires Normalize(sc, s, v).Some?
    ensures Filled(sc, s, Normalize(sc, s, v).value)
    decreases Rank(sc, s), 1
  {
    hide NodeFilled, NormalizeNode;
    if s.Obj? {
      if RefOf(s).Some? {
        ReferenceFalls(sc, s);
        var target := Resolve(sc.root, RefOf(s).value).value;
        NormalizedIsFilled(sc, target, v);
        if s.fields.Keys != {K_REF} {
          CheckedNodeKeeps(sc, s, Normalize(sc, target, v).value);
          CheckedIsFilled(sc, s, Normalize(sc, target, v).value);
        }
      } else {
        NormalizedChildrenAreFilled(sc, s, v);
      }
    }
  }

  lemma {:induction false} NormalizedChildrenAreFilled(sc: Schema, s: Json, v: Json)
    requires Sound(sc) && s.Obj? && InScope(sc, s) && ReferencesOnlyChecked(sc)
    requires NormalizeNode(sc, s, v).Some?
    ensures NodeFilled(sc, s, NormalizeNode(sc, s, v).value)
    decreases Rank(sc, s), 0
  {
    var w := NormalizeNode(sc, s, v).value;
    NodeIsRelation(sc, s, v, w);
    hide NormalizeNode, NodeChecks, Filled, ReferencesOnlyChecked, MemberSchema, ItemSchema;
    match v
    case Obj(fields) =>
      var filled := Fill(s, fields);
      FilledOnce(s, fields, w.fields);
      forall k | k in w.fields
        ensures MemberFilled(sc, s, k, w.fields[k])
      {
        MemberSchemaFalls(sc, s, k);
        assert NormalizeMember(sc, s, k, filled[k]) == Some(w.fields[k]);
        NormalizedIsFilled(sc, MemberSchema(s, k), filled[k]);
      }
    case Arr(items) =>
      forall i | 0 <= i < |items|
        ensures ItemFilled(sc, s, w.items[i])
      {
        ItemSchemaFalls(sc, s);
        assert NormalizeItem(sc, s, items[i]) == Some(w.items[i]);
        NormalizedIsFilled(sc, ItemSchema(s), items[i]);
      }
    case _ =>
  }

  /** On a value with nothing left to fill in, normalization changes nothing: it checks. */
  lemma {:induction false} FilledIsKept(sc: Schema, s: Json, v: Json)
    requires Sound(sc) && InScope(sc, s)
    requires Filled(sc, s, v) && Normalize(sc, s, v).Some?
    ensures Normalize(sc, s, v) == Some(v)
    decreases Rank(sc, s), 1
  {
    hide NodeFilled, NormalizeNode;
    if s.Obj? {
      if RefOf(s).Some? {
        ReferenceFalls(sc, s);
        FilledIsKept(sc, Resolve(sc.root, RefOf(s).value).value, v);
        if s.fields.Keys != {K_REF} {
          FilledChildrenAreKept(sc, s, v);
        }
      } else {
        FilledChildrenAreKept(sc, s, v);
      }
    }
  }

  lemma {:induction false} FilledChildrenAreKept(sc: Schema, s: Json, v: Json)
    requires Sound(sc) && s.Obj? && InScope(sc, s)
    requires NodeFilled(sc, s, v) && NormalizeNode(sc, s, v).Some?
    ensures NormalizeNode(sc, s, v) == Some(v)
    decreases Rank(sc, s), 0
  {
    hide NormalizeNode, NodeChecks, Sound, MemberSchema, ItemSchema, Filled;
    NodeIsRelation(sc, s, v, NormalizeNode(sc, s, v).value);
    NodeIsRelation(sc, s, v, v);
    match v
    case Obj(fields) =>
      assert Fill(s, fields) == fields;
      forall k | k in fields
        ensures NormalizeMember(sc, s, k, fields[k]) == Some(fields[k])
      {
        MemberSchemaFalls(sc, s, k);
        assert NormalizeMember(sc, s, k, fields[k]).Some? && MemberFilled(sc, s, k, fields[k]);
        FilledIsKept(sc, MemberSchema(s, k), fields[k]);
      }
    case Arr(items) =>
      forall i | 0 <= i < |items|
        ensures NormalizeItem(sc, s, items[i]) == Some(items[i])
      {
        ItemSchemaFalls(sc, s);
        assert NormalizeItem(sc, s, items[i]).Some? && ItemFilled(sc, s, items[i]);
        FilledIsKept(sc, ItemSchema(s), items[i]);
      }
    case _ =>
  }

  /** Normalizing a normalized value, where it succeeds, returns it unchanged. */
  lemma NormalizationIsIdempotent(sc: Schema, s: Json, v: Json)
    requires Sound(sc) && InScope(sc, s) && ReferencesOnlyChecked(sc)
    requires Normalize(sc, s, v).Some?
    ensures var w := Normalize(sc, s, v).value;
            Normalize(sc, s, w).Some? ==> Normalize(sc, s, w) == Some(w)
  {
    NormalizedIsFilled(sc, s, v);
    var w := Normalize(sc, s, v).value;
    if Normalize(sc, s, w).Some? {
      FilledIsKept(sc, s, w);
    }
  }

  // Success on its own output.

  /** A node that admits a value admits what it makes of it. */
  lemma ChecksSurvive(sc: Schema, s: Json, v: Json)
    requires Sound(sc) && s.Obj? && InScope(sc, s) && ChoicesStable(sc)
    requires NormalizeNode(sc, s, v).Some? && Canonical(NormalizeNode(sc, s, v).value)
    ensures NodeChecks(s, NormalizeNode(sc, s, v).value)
  {
    hide NormalizeNode, NormalizeMember, NormalizeItem, MemberSchema, ItemSchema, NumberAllowed, Properties, RefOf;
    var w := NormalizeNode(sc, s, v).value;
    NodeIsRelation(sc, s, v, w);
    if !Rewrites(s) {
      CheckedNodeKeeps(sc, s, v);
    } else if !IsScalar(v) {
      assert !Has(s, K_ENUM) && !Has(s, K_CONST);
      if v.Obj? {
        assert Fill(s, w.fields).Keys == w.fields.Keys;
      }
    }
  }

  lemma {:induction false} NormalizedIsCanonical(sc: Schema, s: Json, v: Json)
    requires Sound(sc) && InScope(sc, s) && Normalize(sc, s, v).Some?
    ensures Canonical(Normalize(sc, s, v).value)
    decreases Rank(sc, s), 2
  {
    if s.Obj? {
      if RefOf(s).Some? {
        ReferenceFalls(sc, s);
        var target := Resolve(sc.root, RefOf(s).value).value;
        NormalizedIsCanonical(sc, target, v);
        if s.fields.Keys != {K_REF} {
          NormalizedNodeIsCanonical(sc, s, Normalize(sc, target, v).value);
        }
      } else {
        NormalizedNodeIsCanonical(sc, s, v);
      }
    }
  }

  lemma MemberIsNormalize(sc: Schema, s: Json, key: Text, v: Json)
    requires Sound(sc) && s.Obj? && InScope(sc, s)
    ensures InScope(sc, MemberSchema(s, key))
    ensures NormalizeMember(sc, s, key, v) == Normalize(sc, MemberSchema(s, key), v)
  {
    MemberSchemaFalls(sc, s, key);
  }

  lemma ItemIsNormalize(sc: Schema, s: Json, v: Json)
    requires Sound(sc) && s.Obj? && InScope(sc, s)
    ensures InScope(sc, ItemSchema(s))
    ensures NormalizeItem(sc, s, v) == Normalize(sc, ItemSchema(s), v)
  {
    ItemSchemaFalls(sc, s);
  }

  lemma FilledKeyIsHarmless(s: Json, fields: map<Text, Json>, k: Text)
    requires Canonical(s) && Canonical(Obj(fields)) && k in Fill(s, fields)
    ensures WellFormed(k) && !DangerousKey(k)
  {
    hide WellFormed, DangerousKey;
    if k !in fields {
      assert Canonical(s.fields[K_PROPERTIES]);
    }
  }

  lemma {:induction false} NormalizedMemberIsCanonical(sc: Schema, s: Json, key: Text, v: Json)
    requires Sound(sc) && s.Obj? && InScope(sc, s) && NormalizeMember(sc, s, key, v).Some?
    ensures Canonical(NormalizeMember(sc, s, key, v).value)
    decreases Rank(sc, s), 0
  {
    hide MemberSchema;
    MemberSchemaFalls(sc, s, key);
    MemberIsNormalize(sc, s, key, v);
    NormalizedIsCanonical(sc, MemberSchema(s, key), v);
  }

  lemma {:induction false} NormalizedItemIsCanonical(sc: Schema, s: Json, v: Json)
    requires Sound(sc) && s.Obj? && InScope(sc, s) && NormalizeItem(sc, s, v).Some?
    ensures Canonical(NormalizeItem(sc, s, v).value)
    decreases Rank(sc, s), 0
  {
    hide ItemSchema;
    ItemSchemaFalls(sc, s);
    ItemIsNormalize(sc, s, v);
    NormalizedIsCanonical(sc, ItemSchema(s), v);
  }

  lemma NodesAreCanonical(sc: Schema, s: Json, v: Json)
    requires Sound(sc) && s.Obj? && InScope(sc, s) && NormalizeNode(sc, s, v).Some?
    ensures Canonical(v) && Canonical(s)
  {
    hide Canonical, Fill;
  }

  lemma PartsAreCanonical(w: Json)
    requires w.Obj? ==> forall k | k in w.fields :: WellFormed(k) && !DangerousKey(k) && Canonical(w.fields[k])
    requires w.Arr? ==> forall i | 0 <= i < |w.items| :: Canonical(w.items[i])
    ensures w.Obj? || w.Arr? ==> Canonical(w)
  {
    hide WellFormed, DangerousKey;
  }

  lemma {:induction false} NormalizedNodeIsCanonical(sc: Schema, s: Json, v: Json)
    requires Sound(sc) && s.Obj? && InScope(sc, s) && NormalizeNode(sc, s, v).Some?
    ensures Canonical(NormalizeNode(sc, s, v).value)
    decreases Rank(sc, s), 1
  {
    var w := NormalizeNode(sc, s, v).value;
    NodesAreCanonical(sc, s, v);
    hide NodeChecks, NormalizeNode, NormalizeMember, NormalizeItem, WellFormed, DangerousKey, Properties, Fill, Sound;
    hide InScope, Canonical;
    NodeIsRelation(sc, s, v, w);
    match v
    case Obj(fields) =>
      var filled := Fill(s, fields);
      forall k | k in w.fields
        ensures WellFormed(k) && !DangerousKey(k) && Canonical(w.fields[k])
      {
        NormalizedMemberIsCanonical(sc, s, k, filled[k]);
        FilledKeyIsHarmless(s, fields, k);
      }
      PartsAreCanonical(w);
    case Arr(items) =>
      forall i | 0 <= i < |items|
        ensures Canonical(w.items[i])
      {
        NormalizedItemIsCanonical(sc, s, items[i]);
      }
      PartsAreCanonical(w);
    case _ =>
  }

  /** Normalization is a fixed point: it succeeds on its own output and returns it unchanged. */
  lemma {:induction false} NormalizationIsAFixedPoint(sc: Schema, s: Json, v: Json)
    requires Sound(sc) && InScope(sc, s) && ReferencesOnlyChecked(sc) && ChoicesStable(sc)
    requires Normalize(sc, s, v).Some?
    ensures Normalize(sc, s, Normalize(sc, s, v).value) == Normalize(sc, s, v)
    decreases Rank(sc, s), 2
  {
    NormalizedIsCanonical(sc, s, v);
    if s.Obj? {
      if RefOf(s).Some? {
        ReferenceFalls(sc, s);
        var target := Resolve(sc.root, RefOf(s).value).value;
        NormalizationIsAFixedPoint(sc, target, v);
        if s.fields.Keys != {K_REF} {
          CheckedNodeKeeps(sc, s, Normalize(sc, target, v).value);
        }
      } else {
        NodeIsAFixedPoint(sc, s, v);
      }
    }
  }

  lemma {:induction false} MemberIsAFixedPoint(sc: Schema, s: Json, key: Text, v: Json)
    requires Sound(sc) && s.Obj? && InScope(sc, s) && ReferencesOnlyChecked(sc) && ChoicesStable(sc)
    requires NormalizeMember(sc, s, key, v).Some?
    ensures NormalizeMember(sc, s, key, NormalizeMember(sc, s, key, v).value) == NormalizeMember(sc, s, key, v)
    decreases Rank(sc, s), 0
  {
    hide MemberSchema, ReferencesOnlyChecked, ChoicesStable;
    MemberSchemaFalls(sc, s, key);
    NormalizationIsAFixedPoint(sc, MemberSchema(s, key), v);
  }

  lemma {:induction false} ItemIsAFixedPoint(sc: Schema, s: Json, v: Json)
    requires Sound(sc) && s.Obj? && InScope(sc, s) && ReferencesOnlyChecked(sc) && ChoicesStable(sc)
    requires NormalizeItem(sc, s, v).Some?
    ensures NormalizeItem(sc, s, NormalizeItem(sc, s, v).value) == NormalizeItem(sc, s, v)
    decreases Rank(sc, s), 0
  {
    hide ItemSchema, ReferencesOnlyChecked, ChoicesStable;
    ItemSchemaFalls(sc, s);
    NormalizationIsAFixedPoint(sc, ItemSchema(s), v);
  }

  /** Filling in is done once: what is filled has nothing more to fill in. */
  lemma FilledOnce(s: Json, fields: map<Text, Json>, filled: map<Text, Json>)
    requires filled.Keys == Fill(s, fields).Keys
    ensures Fill(s, filled) == filled
  {
    hide Properties;
  }

  lemma {:induction false} NodeIsAFixedPoint(sc: Schema, s: Json, v: Json)
    requires Sound(sc) && s.Obj? && InScope(sc, s) && RefOf(s).None? && ReferencesOnlyChecked(sc) && ChoicesStable(sc)
    requires NormalizeNode(sc, s, v).Some?
    ensures var w := NormalizeNode(sc, s, v); NormalizeNode(sc, s, w.value) == w
    decreases Rank(sc, s), 1
  {
    hide NormalizeNode, NormalizeMember, NormalizeItem, NodeChecks, Rewrites, Fill, ReferencesOnlyChecked;
    hide ChoicesStable;
    var w := NormalizeNode(sc, s, v).value;
    NormalizedNodeIsCanonical(sc, s, v);
    ChecksSurvive(sc, s, v);
    NodeIsRelation(sc, s, v, w);
    NodeIsRelation(sc, s, w, w);
    match v
    case Obj(fields) =>
      var filled := Fill(s, fields);
      FilledOnce(s, fields, w.fields);
      forall k | k in w.fields
        ensures NormalizeMember(sc, s, k, w.fields[k]) == Some(w.fields[k])
      {
        MemberIsAFixedPoint(sc, s, k, filled[k]);
      }
    case Arr(items) =>
      forall i | 0 <= i < |items|
        ensures NormalizeItem(sc, s, w.items[i]) == Some(w.items[i])
      {
        ItemIsAFixedPoint(sc, s, items[i]);
      }
    case _ =>
  }

  // Writes at pointers into filled values.

  /** The child a node normalizes a child against. */
  function StepSchema(s: Json, v: Json, token: Text): Json {
    if v.Obj? then MemberSchema(s, token) else ItemSchema(s)
  }

  lemma StepFalls(sc: Schema, s: Json, v: Json, token: Text)
    requires Sound(sc) && s.Obj? && InScope(sc, s)
    ensures var c := StepSchema(s, v, token); InScope(sc, c) && Rank(sc, c) < Rank(sc, s)
  {
    MemberSchemaFalls(sc, s, token);
    ItemSchemaFalls(sc, s);
  }

  lemma StepIsByKind(s: Json, v: Json, w: Json, token: Text)
    requires v.Obj? == w.Obj?
    ensures StepSchema(s, v, token) == StepSchema(s, w, token)
  {
  }

  lemma FilledChild(sc: Schema, s: Json, v: Json, token: Text)
    requires Sound(sc) && s.Obj? && InScope(sc, s)
    requires NodeFilled(sc, s, v) && HasChild(v, token)
    ensures var c := StepSchema(s, v, token); InScope(sc, c) && Filled(sc, c, Child(v, token))
  {
    StepFalls(sc, s, v, token);
    if v.Obj? {
      assert MemberFilled(sc, s, token, v.fields[token]);
    } else {
      assert ItemFilled(sc, s, Child(v, token));
    }
  }

  /** Normalizing a filled object or array with one child replaced normalizes that child alone. */
  lemma OneChildNormalized(sc: Schema, s: Json, base: Json, token: Text, c: Json, changed: Json)
    requires Sound(sc) && s.Obj? && InScope(sc, s)
    requires NodeFilled(sc, s, base)
    requires (base.Obj? && changed == Obj(base.fields[token := c]))
             || (base.Arr? && HasChild(base, token) && changed == WithChild(base, token, c))
    requires NormalizeNode(sc, s, changed).Some?
    ensures var schema := StepSchema(s, base, token);
            && InScope(sc, schema)
            && Normalize(sc, schema, c).Some?
            && var d := Normalize(sc, schema, c).value;
               NormalizeNode(sc, s, changed).value == if base.Obj? then Obj(base.fields[token := d])
                   else WithChild(base, token, d)
  {
    hide NormalizeNode, NodeChecks, MemberSchema, ItemSchema, Filled;
    StepFalls(sc, s, base, token);
    var w := NormalizeNode(sc, s, changed).value;
    NodeIsRelation(sc, s, changed, w);
    if base.Obj? {
      OneMemberNormalized(sc, s, base, token, c);
    } else {
      var i := ArrayIndex(token).value;
      assert NormalizeItem(sc, s, c) == Some(w.items[i]) by { assert changed.items[i] == c; }
      forall j | 0 <= j < |base.items| && j != i
        ensures w.items[j] == base.items[j]
      {
        assert changed.items[j] == base.items[j];
        assert NormalizeItem(sc, s, base.items[j]) == Some(w.items[j]) && ItemFilled(sc, s, base.items[j]);
        ItemSchemaFalls(sc, s);
        FilledIsKept(sc, ItemSchema(s), base.items[j]);
      }
      assert w.items == base.items[i := w.items[i]];
    }
  }

  lemma OneMemberNormalized(sc: Schema, s: Json, base: Json, token: Text, c: Json)
    requires Sound(sc) && s.Obj? && InScope(sc, s)
    requires NodeFilled(sc, s, base) && base.Obj?
    requires NormalizeNode(sc, s, Obj(base.fields[token := c])).Some?
    ensures NormalizeMember(sc, s, token, c).Some?
    ensures NormalizeNode(sc, s, Obj(base.fields[token := c])).value
            == Obj(base.fields[token := NormalizeMember(sc, s, token, c).value])
  {
    hide NormalizeNode, NodeChecks, NormalizeMember, Fill, Sound, MemberFilled, NodeFilled, InScope;
    var fields := base.fields[token := c];
    var w := NormalizeNode(sc, s, Obj(fields)).value;
    NodeIsRelation(sc, s, Obj(fields), w);
    FilledMembers(sc, s, base);
    NothingMissing(s, base.fields, fields);
    assert ChildrenBecome(sc, s, Obj(fields), w);
    hide RefOf;
    forall k | k in base.fields && k != token
      ensures w.fields[k] == base.fields[k]
    {
      FilledMemberIsKept(sc, s, k, base.fields[k]);
    }
    OnlyOneChanged(base.fields, token, w.fields);
  }

  lemma OnlyOneChanged(base: map<Text, Json>, token: Text, w: map<Text, Json>)
    requires w.Keys == base.Keys + {token} && forall k | k in base && k != token :: w[k] == base[k]
    ensures w == base[token := w[token]]
  {
  }

  lemma NothingMissing(s: Json, base: map<Text, Json>, fields: map<Text, Json>)
    requires Fill(s, base).Keys == base.Keys && base.Keys <= fields.Keys
    ensures Fill(s, fields) == fields
  {
    hide Properties;
    forall k | k in Properties(s) && HasDefault(Properties(s)[k])
      ensures k in fields
    {
      assert k in Fill(s, base);
    }
  }

  lemma FilledMembers(sc: Schema, s: Json, v: Json)
    requires Sound(sc) && s.Obj? && InScope(sc, s) && v.Obj? && NodeFilled(sc, s, v)
    ensures Fill(s, v.fields).Keys == v.fields.Keys
    ensures forall k | k in v.fields :: MemberFilled(sc, s, k, v.fields[k])
  {
  }

  lemma FilledMemberIsKept(sc: Schema, s: Json, key: Text, v: Json)
    requires Sound(sc) && s.Obj? && InScope(sc, s)
    requires MemberFilled(sc, s, key, v) && NormalizeMember(sc, s, key, v).Some?
    ensures NormalizeMember(sc, s, key, v) == Some(v)
  {
    MemberSchemaFalls(sc, s, key);
    FilledIsKept(sc, MemberSchema(s, key), v);
  }

  /** Along the pointer the two values have containers of the same kinds, with the same children present. */
  ghost predicate SameSpine(a: Json, b: Json, p: seq<Text>)
    decreases p
  {
    && a.Obj? == b.Obj? && a.Arr? == b.Arr?
    && (p != [] && a.Arr? ==> (HasChild(a, p[0]) <==> HasChild(b, p[0])))
    && (|p| > 1 ==> HasChild(a, p[0]) && HasChild(b, p[0]) && SameSpine(Child(a, p[0]), Child(b, p[0]), p[1..]))
  }

  lemma {:induction false} SpineOfWrite(v: Json, p: seq<Text>, x: Json)
    requires Set(v, p, x).Some?
    ensures SameSpine(v, v, p)
    decreases p
  {
    if |p| > 1 {
      SpineOfWrite(Child(v, p[0]), p[1..], x);
    }
  }

  /** What a write below a token makes of two values with the same spine. */
  lemma WriteShape(base: Json, o: Json, p: seq<Text>, y: Json)
    requires SameSpine(base, o, p) && Set(base, p, y).Some? && Set(o, p, y).Some?
    requires !(o.Obj? && |p| == 1 && IsProto(p[0]))
    ensures var fitted, w := Set(base, p, y).value, Set(o, p, y).value;
            && p != [] && o.Obj? == fitted.Obj? == w.Obj? && o.Arr? == fitted.Arr? == w.Arr?
            && HasChild(fitted, p[0]) && HasChild(w, p[0])
            && ((o.Obj? && w == Obj(o.fields[p[0] := Child(w, p[0])]))
                || (o.Arr? && HasChild(o, p[0]) && w == WithChild(o, p[0], Child(w, p[0]))))
            && (|p| == 1 ==> Child(fitted, p[0]) == Child(w, p[0]) == y)
            && (|p| > 1 ==>
                  && HasChild(base, p[0]) && HasChild(o, p[0]) && SameSpine(Child(base, p[0]), Child(o, p[0]), p[1..])
                  && Set(Child(base, p[0]), p[1..], y) == Some(Child(fitted, p[0]))
                  && Set(Child(o, p[0]), p[1..], y) == Some(Child(w, p[0])))
  {
    hide ArrayIndex, IsProto;
  }

  lemma PrototypeWriteKeeps(o: Json, p: seq<Text>, y: Json)
    requires o.Obj? && |p| == 1 && IsProto(p[0]) && Set(o, p, y).Some?
    ensures Set(o, p, y) == Some(o)
  {
    hide IsProto;
  }

  lemma ChildIsCanonical(v: Json, token: Text)
    requires Canonical(v) && HasChild(v, token)
    ensures Canonical(Child(v, token))
  {
  }

  /**
   Write a value into a filled base and normalize: the result is the base with what is read
   back written in its place. Nothing outside the pointer moves.
   */
  lemma {:induction false} NormalizationIsLocal(sc: Schema, s: Json, base: Json, p: seq<Text>, x: Json)
    requires Sound(sc) && InScope(sc, s) && ReferencesOnlyChecked(sc)
    requires Canonical(base) && Filled(sc, s, base) && Set(base, p, x).Some?
    requires Normalize(sc, s, Set(base, p, x).value).Some?
    requires Get(Normalize(sc, s, Set(base, p, x).value).value, p).Some?
    ensures var r := Normalize(sc, s, Set(base, p, x).value).value;
            Set(base, p, Get(r, p).value) == Some(r)
    decreases |p|, Rank(sc, s)
  {
    var changed := Set(base, p, x).value;
    var r := Normalize(sc, s, changed).value;
    if !s.Obj? {
      ReadAfterWrite(base, p, x);
    } else if RefOf(s).Some? {
      ReferenceFalls(sc, s);
      var target := Resolve(sc.root, RefOf(s).value).value;
      if s.fields.Keys != {K_REF} {
        CheckedNodeKeeps(sc, s, Normalize(sc, target, changed).value);
      }
      NormalizationIsLocal(sc, target, base, p, x);
    } else {
      hide NodeFilled;
      assert NodeFilled(sc, s, base);
      NodeIsLocal(sc, s, base, p, x);
    }
  }

  lemma NoPrototypeMember(v: Json, p: seq<Text>)
    requires Canonical(v) && Get(v, p).Some? && p != []
    ensures |p| == 1 ==> !IsProto(p[0])
  {
    assert !IsDigit(Ascii("__proto__")[0]);
  }

  lemma {:induction false} NodeIsLocal(sc: Schema, s: Json, base: Json, p: seq<Text>, x: Json)
    requires Sound(sc) && s.Obj? && InScope(sc, s) && RefOf(s).None? && ReferencesOnlyChecked(sc)
    requires Canonical(base) && NodeFilled(sc, s, base) && Set(base, p, x).Some?
    requires NormalizeNode(sc, s, Set(base, p, x).value).Some?
    requires Get(NormalizeNode(sc, s, Set(base, p, x).value).value, p).Some?
    ensures var r := NormalizeNode(sc, s, Set(base, p, x).value).value;
            Set(base, p, Get(r, p).value) == Some(r)
    decreases |p|, 0
  {
    hide NormalizeNode, MemberSchema, ItemSchema, Filled, NodeFilled, Normalize, ArrayIndex, IsProto, StepSchema;
    hide Canonical;
    var changed := Set(base, p, x).value;
    var r := NormalizeNode(sc, s, changed).value;
    var token := p[0];
    NormalizedNodeIsCanonical(sc, s, changed);
    NoPrototypeMember(r, p);
    SpineOfWrite(base, p, x);
    WriteShape(base, base, p, x);
    var c := Child(changed, token);
    OneChildNormalized(sc, s, base, token, c, changed);
    var schema := StepSchema(s, base, token);
    var d := Normalize(sc, schema, c).value;
    ChildRead(base, token, d, r, p);
    if |p| > 1 {
      FilledChild(sc, s, base, token);
      ChildIsCanonical(base, token);
      NormalizationIsLocal(sc, schema, Child(base, token), p[1..], x);
    }
    ChildWritten(base, token, d, r, p);
  }

  /** A value with one child replaced is read below that child as the child is. */
  lemma ChildRead(base: Json, token: Text, d: Json, r: Json, p: seq<Text>)
    requires p != [] && p[0] == token
    requires (base.Obj? && r == Obj(base.fields[token := d]))
             || (base.Arr? && HasChild(base, token) && r == WithChild(base, token, d))
    ensures Get(r, p) == Get(d, p[1..])
  {
    hide ArrayIndex;
    assert HasChild(r, token) && Child(r, token) == d;
  }

  /** It is written by writing the child. */
  lemma ChildWritten(base: Json, token: Text, d: Json, r: Json, p: seq<Text>)
    requires p != [] && p[0] == token && (|p| == 1 ==> !IsProto(token))
    requires (base.Obj? && r == Obj(base.fields[token := d]))
             || (base.Arr? && HasChild(base, token) && r == WithChild(base, token, d))
    requires Get(r, p).Some? && Get(r, p) == Get(d, p[1..])
    requires |p| > 1 ==> HasChild(base, token) && Set(Child(base, token), p[1..], Get(r, p).value) == Some(d)
    ensures Set(base, p, Get(r, p).value) == Some(r)
  {
    hide ArrayIndex, IsProto;
    if |p| == 1 {
      assert p[1..] == [];
    }
  }

  /** A write elsewhere keeps the spine. */
  lemma {:induction false} SpineIsKept(base: Json, o: Json, p: seq<Text>, q: seq<Text>, z: Json)
    requires SameSpine(base, o, p) && Independent(p, q) && Set(o, q, z).Some?
    ensures SameSpine(base, Set(o, q, z).value, p)
    decreases p
  {
    hide IsProto, ArrayIndex, Indexes;
    if p[0] == q[0] {
      TailsIndependent(p, q);
      var c := Set(Child(o, q[0]), q[1..], z).value;
      SameChild(o, q[0], c, c);
      SpineIsKept(Child(base, p[0]), Child(o, p[0]), p[1..], q[1..], z);
    } else {
      SetIsStore(o, q, z);
      StoresCommute(o, q, NewChild(o, q, z).value, p, z);
    }
  }

  /** Where one of two values with the same spine can be written, so can the other. */
  lemma {:induction false} WriteAlongSpine(a: Json, b: Json, p: seq<Text>, x: Json)
    requires SameSpine(a, b, p) && Set(a, p, x).Some?
    ensures Set(b, p, x).Some?
    decreases p
  {
    hide IsProto, ArrayIndex, Indexes;
    if |p| > 1 {
      WriteAlongSpine(Child(a, p[0]), Child(b, p[0]), p[1..], x);
    }
  }

  /** A value that fits one filled base at a pointer fits every filled value with the same spine. */
  lemma {:induction false} WriteStaysFilled(sc: Schema, s: Json, base: Json, o: Json, p: seq<Text>, y: Json)
    requires Sound(sc) && InScope(sc, s) && SameSpine(base, o, p)
    requires Set(base, p, y).Some? && Filled(sc, s, Set(base, p, y).value)
    requires Filled(sc, s, o) && Set(o, p, y).Some?
    ensures Filled(sc, s, Set(o, p, y).value)
    decreases |p|, if s.Obj? then Rank(sc, s) else 0
  {
    hide NodeFilled, Set;
    if s.Obj? {
      if RefOf(s).Some? {
        ReferenceFalls(sc, s);
        WriteStaysFilled(sc, Resolve(sc.root, RefOf(s).value).value, base, o, p, y);
      }
      if !OnlyReference(s) {
        NodeStaysFilled(sc, s, base, o, p, y);
      }
    }
  }

  lemma {:induction false} NodeStaysFilled(sc: Schema, s: Json, base: Json, o: Json, p: seq<Text>, y: Json)
    requires Sound(sc) && s.Obj? && InScope(sc, s) && SameSpine(base, o, p)
    requires Set(base, p, y).Some? && NodeFilled(sc, s, Set(base, p, y).value)
    requires NodeFilled(sc, s, o) && Set(o, p, y).Some?
    ensures NodeFilled(sc, s, Set(o, p, y).value)
    decreases |p|, 0
  {
    hide MemberSchema, ItemSchema, ArrayIndex, IsProto, NodeFilled, StepSchema, Filled;
    var fitted, w := Set(base, p, y).value, Set(o, p, y).value;
    if o.Obj? && |p| == 1 && IsProto(p[0]) {
      PrototypeWriteKeeps(o, p, y);
    } else {
      WriteShape(base, o, p, y);
      var token := p[0];
      hide Set, HasChild, WithChild, SameSpine;
      FilledChild(sc, s, fitted, token);
      StepIsByKind(s, o, fitted, token);
      if |p| > 1 {
        FilledChild(sc, s, o, token);
        WriteStaysFilled(sc, StepSchema(s, o, token), Child(base, token), Child(o, token), p[1..], y);
      }
      ReplacedChildStaysFilled(sc, s, o, token, Child(w, token), w);
    }
  }

  lemma ReplacedChildStaysFilled(sc: Schema, s: Json, o: Json, token: Text, c: Json, w: Json)
    requires Sound(sc) && s.Obj? && InScope(sc, s) && NodeFilled(sc, s, o)
    requires (o.Obj? && w == Obj(o.fields[token := c])) || (o.Arr? && HasChild(o, token) && w == WithChild(o, token, c))
    requires InScope(sc, StepSchema(s, o, token)) && Filled(sc, StepSchema(s, o, token), c)
    ensures NodeFilled(sc, s, w)
  {
    hide MemberSchema, ItemSchema, Fill, RefOf, Sound, InScope;
    if o.Obj? {
      NothingMissing(s, o.fields, w.fields);
      forall k | k in w.fields
        ensures MemberFilled(sc, s, k, w.fields[k])
      {
        if k != token {
          assert MemberFilled(sc, s, k, o.fields[k]);
        }
      }
    } else {
      forall i | 0 <= i < |w.items|
        ensures ItemFilled(sc, s, w.items[i])
      {
        if i != ArrayIndex(token).value {
          assert ItemFilled(sc, s, o.items[i]);
        }
      }
    }
  }
}
