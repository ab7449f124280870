/**
 When a value is its own normal form: it is complete, and the choices offered for its parts
 hold. The output of a normalization is complete, and writes keep complete values complete.
 */
module FixedPoints {
  import opened CanonicalJson
  import opened JsonPointer
  import opened SchemaProfile
  import opened Normalization
  import opened NormalizationLaws
  import opened NormalForms

  /** Every `enum` and `const` that applies to some part of the value allows it. */
  ghost predicate ChoicesHold(sc: Schema, s: Json, v: Json)
    requires Sound(sc) && InScope(sc, s)
    decreases Rank(sc, s), 2
  {
    s.Obj? ==>
      && (OnlyReference(s) || NodeChoicesHold(sc, s, v))
      && TargetChoicesHold(sc, s, v)
  }

  ghost predicate TargetChoicesHold(sc: Schema, s: Json, v: Json)
    requires Sound(sc) && InScope(sc, s)
    decreases Rank(sc, s), 1
  {
    if RefOf(s).None? then true
    else
      ReferenceFalls(sc, s);
      ChoicesHold(sc, Resolve(sc.root, RefOf(s).value).value, v)
  }

  ghost predicate NodeChoicesHold(sc: Schema, s: Json, v: Json)
    requires Sound(sc) && s.Obj? && InScope(sc, s)
    decreases Rank(sc, s), 1
  {
    && ChoicesAllow(s, v)
    && match v
       case Obj(fields) => forall k | k in fields :: MemberChoicesHold(sc, s, k, fields[k])
       case Arr(items) => forall i | 0 <= i < |items| :: ItemChoicesHold(sc, s, items[i])
       case _ => true
  }

  ghost predicate MemberChoicesHold(sc: Schema, s: Json, key: Text, v: Json)
    requires Sound(sc) && s.Obj? && InScope(sc, s)
    decreases Rank(sc, s), 0
  {
    MemberSchemaFalls(sc, s, key);
    ChoicesHold(sc, MemberSchema(s, key), v)
  }

  ghost predicate ItemChoicesHold(sc: Schema, s: Json, v: Json)
    requires Sound(sc) && s.Obj? && InScope(sc, s)
    decreases Rank(sc, s), 0
  {
    ItemSchemaFalls(sc, s);
    ChoicesHold(sc, ItemSchema(s), v)
  }

  // Everything but the choices.

  /** The checks of one node, children, `enum` and `const` aside. */
  ghost predicate OtherChecks(s: Json, v: Json) {
    && Canonical(v) && TypeAllows(s, v)
    && match v
       case Obj(fields) => RequiredPresent(s, Fill(s, fields).Keys)
       case Arr(items) => Within(s, K_MIN_ITEMS, K_MAX_ITEMS, |items|)
       case Num(n) => NumberAllowed(s, n)
       case Str(t) => Within(s, K_MIN_LENGTH, K_MAX_LENGTH, CodePointCount(t))
       case _ => true
  }

  /** At every depth the value lacks no default and passes every check but `enum` and `const`. */
  ghost predicate Complete(sc: Schema, s: Json, v: Json)
    requires Sound(sc) && InScope(sc, s)
    decreases Rank(sc, s), 2
  {
    if s.Obj? then (OnlyReference(s) || NodeComplete(sc, s, v)) && TargetComplete(sc, s, v)
    else s != Bool(false) && !s.Null? && Canonical(v)
  }

  ghost predicate TargetComplete(sc: Schema, s: Json, v: Json)
    requires Sound(sc) && InScope(sc, s)
    decreases Rank(sc, s), 1
  {
    if RefOf(s).None? then true
    else
      ReferenceFalls(sc, s);
      Complete(sc, Resolve(sc.root, RefOf(s).value).value, v)
  }

  ghost predicate NodeComplete(sc: Schema, s: Json, v: Json)
    requires Sound(sc) && s.Obj? && InScope(sc, s)
    decreases Rank(sc, s), 1
  {
    && OtherChecks(s, v)
    && match v
       case Obj(fields) => Fill(s, fields).Keys == fields.Keys && forall k | k in fields ::
         MemberComplete(sc, s, k, fields[k])
       case Arr(items) => forall i | 0 <= i < |items| :: ItemComplete(sc, s, items[i])
       case _ => true
  }

  ghost predicate MemberComplete(sc: Schema, s: Json, key: Text, v: Json)
    requires Sound(sc) && s.Obj? && InScope(sc, s)
    decreases Rank(sc, s), 0
  {
    MemberSchemaFalls(sc, s, key);
    Complete(sc, MemberSchema(s, key), v)
  }

  ghost predicate ItemComplete(sc: Schema, s: Json, v: Json)
    requires Sound(sc) && s.Obj? && InScope(sc, s)
    decreases Rank(sc, s), 0
  {
    ItemSchemaFalls(sc, s);
    Complete(sc, ItemSchema(s), v)
  }

  // Normal values are the complete ones in which all choices hold.

  lemma {:induction false} NormalIsCompleteAndChosen(sc: Schema, s: Json, v: Json)
    requires Sound(sc) && InScope(sc, s) && IsNormal(sc, s, v)
    ensures Complete(sc, s, v) && ChoicesHold(sc, s, v)
    decreases Rank(sc, s), 1
  {
    hide NodeChoicesHold, NodeComplete, NormalizeNode, Resolve;
    if s.Obj? {
      if RefOf(s).Some? {
        LayersAreNormal(sc, s, v);
        NormalIsCompleteAndChosen(sc, Resolve(sc.root, RefOf(s).value).value, v);
      }
      if !OnlyReference(s) {
        NormalNodeIsCompleteAndChosen(sc, s, v);
      }
    }
  }

  lemma {:induction false} NormalNodeIsCompleteAndChosen(sc: Schema, s: Json, v: Json)
    requires Sound(sc) && s.Obj? && InScope(sc, s) && NormalizeNode(sc, s, v) == Some(v)
    ensures NodeComplete(sc, s, v) && NodeChoicesHold(sc, s, v)
    decreases Rank(sc, s), 0
  {
    NodeIsRelation(sc, s, v, v);
    assert ChoicesAllow(s, v) && OtherChecks(s, v);
    hide NormalizeNode, NodeChecks, OtherChecks, ChoicesHold, Complete, MemberSchema, ItemSchema, Normalize;
    hide ChoicesAllow;
    match v
    case Obj(fields) =>
      forall k | k in fields
        ensures MemberComplete(sc, s, k, fields[k]) && MemberChoicesHold(sc, s, k, fields[k])
      {
        MemberSchemaFalls(sc, s, k);
        MemberIsNormalize(sc, s, k, fields[k]);
        assert NormalizeMember(sc, s, k, fields[k]) == Some(fields[k]);
        NormalIsCompleteAndChosen(sc, MemberSchema(s, k), fields[k]);
      }
    case Arr(items) =>
      forall i | 0 <= i < |items|
        ensures ItemComplete(sc, s, items[i]) && ItemChoicesHold(sc, s, items[i])
      {
        ItemSchemaFalls(sc, s);
        ItemIsNormalize(sc, s, items[i]);
        assert NormalizeItem(sc, s, items[i]) == Some(items[i]);
        NormalIsCompleteAndChosen(sc, ItemSchema(s), items[i]);
      }
    case _ =>
  }

  lemma {:induction false} CompleteAndChosenIsNormal(sc: Schema, s: Json, v: Json)
    requires Sound(sc) && InScope(sc, s) && Complete(sc, s, v) && ChoicesHold(sc, s, v)
    ensures IsNormal(sc, s, v)
    decreases Rank(sc, s), 1
  {
    hide NodeChoicesHold, NodeComplete, NormalizeNode, Resolve;
    if s.Obj? {
      if !OnlyReference(s) {
        CompleteAndChosenNodeIsNormal(sc, s, v);
      }
      if RefOf(s).Some? {
        ReferenceFalls(sc, s);
        CompleteAndChosenIsNormal(sc, Resolve(sc.root, RefOf(s).value).value, v);
        NormalThroughReference(sc, s, v);
      }
    }
  }

  lemma {:induction false} CompleteAndChosenNodeIsNormal(sc: Schema, s: Json, v: Json)
    requires Sound(sc) && s.Obj? && InScope(sc, s) && NodeComplete(sc, s, v) && NodeChoicesHold(sc, s, v)
    ensures NormalizeNode(sc, s, v) == Some(v)
    decreases Rank(sc, s), 0
  {
    NodeIsRelation(sc, s, v, v);
    assert NodeChecks(s, v);
    hide NormalizeNode, NodeChecks, OtherChecks, ChoicesHold, Complete, MemberSchema, ItemSchema, Normalize;
    hide ChoicesAllow;
    match v
    case Obj(fields) =>
      assert Fill(s, fields) == fields;
      forall k | k in fields
        ensures NormalizeMember(sc, s, k, fields[k]) == Some(fields[k])
      {
        assert MemberComplete(sc, s, k, fields[k]) && MemberChoicesHold(sc, s, k, fields[k]);
        MemberSchemaFalls(sc, s, k);
        MemberIsNormalize(sc, s, k, fields[k]);
        CompleteAndChosenIsNormal(sc, MemberSchema(s, k), fields[k]);
      }
    case Arr(items) =>
      forall i | 0 <= i < |items|
        ensures NormalizeItem(sc, s, items[i]) == Some(items[i])
      {
        assert ItemComplete(sc, s, items[i]) && ItemChoicesHold(sc, s, items[i]);
        ItemSchemaFalls(sc, s);
        ItemIsNormalize(sc, s, items[i]);
        CompleteAndChosenIsNormal(sc, ItemSchema(s), items[i]);
      }
    case _ =>
  }

  /** A value is its own normal form exactly when it is complete and all choices hold in it. */
  lemma NormalExactlyWhenChosen(sc: Schema, s: Json, v: Json)
    requires Sound(sc) && InScope(sc, s)
    ensures Normalize(sc, s, v) == Some(v) <==> Complete(sc, s, v) && ChoicesHold(sc, s, v)
  {
    hide Normalize, Complete, ChoicesHold;
    if Normalize(sc, s, v) == Some(v) {
      NormalIsCompleteAndChosen(sc, s, v);
    }
    if Complete(sc, s, v) && ChoicesHold(sc, s, v) {
      CompleteAndChosenIsNormal(sc, s, v);
    }
  }

  lemma {:induction false} CompleteIsFilled(sc: Schema, s: Json, v: Json)
    requires Sound(sc) && InScope(sc, s) && Complete(sc, s, v)
    ensures Filled(sc, s, v)
    decreases Rank(sc, s), 1
  {
    hide NodeFilled, NodeComplete, Resolve;
    if s.Obj? {
      if RefOf(s).Some? {
        ReferenceFalls(sc, s);
        CompleteIsFilled(sc, Resolve(sc.root, RefOf(s).value).value, v);
      }
      if !OnlyReference(s) {
        CompleteNodeIsFilled(sc, s, v);
      }
    }
  }

  lemma {:induction false} CompleteNodeIsFilled(sc: Schema, s: Json, v: Json)
    requires Sound(sc) && s.Obj? && InScope(sc, s) && NodeComplete(sc, s, v)
    ensures NodeFilled(sc, s, v)
    decreases Rank(sc, s), 0
  {
    hide OtherChecks, Filled, Complete, MemberSchema, ItemSchema;
    match v
    case Obj(fields) =>
      forall k | k in fields
        ensures MemberFilled(sc, s, k, fields[k])
      {
        assert MemberComplete(sc, s, k, fields[k]);
        MemberSchemaFalls(sc, s, k);
        CompleteIsFilled(sc, MemberSchema(s, k), fields[k]);
      }
    case Arr(items) =>
      forall i | 0 <= i < |items|
        ensures ItemFilled(sc, s, items[i])
      {
        assert ItemComplete(sc, s, items[i]);
        ItemSchemaFalls(sc, s);
        CompleteIsFilled(sc, ItemSchema(s), items[i]);
      }
    case _ =>
  }

  // The output of a normalization is complete.

  lemma {:induction false} NormalizedIsComplete(sc: Schema, s: Json, v: Json)
    requires Sound(sc) && InScope(sc, s) && ReferencesOnlyChecked(sc)
    requires Normalize(sc, s, v).Some?
    ensures Complete(sc, s, Normalize(sc, s, v).value)
    decreases Rank(sc, s), 2
  {
    hide NodeComplete, NormalizeNode, Resolve;
    if s.Obj? {
      if RefOf(s).Some? {
        ReferenceFalls(sc, s);
        var target := Resolve(sc.root, RefOf(s).value).value;
        NormalizedIsComplete(sc, target, v);
        if s.fields.Keys != {K_REF} {
          var t := Normalize(sc, target, v).value;
          CheckedNodeKeeps(sc, s, t);
          NormalNodeIsCompleteAndChosen(sc, s, t);
        }
      } else {
        NormalizedNodeIsComplete(sc, s, v);
      }
    }
  }

  /** What a node made of a value passes all its checks but those of `enum` and `const`. */
  lemma OtherChecksSurvive(sc: Schema, s: Json, v: Json, w: Json)
    requires Sound(sc) && s.Obj? && InScope(sc, s) && NormalizeNode(sc, s, v) == Some(w) && Canonical(w)
    ensures OtherChecks(s, w)
  {
    NodeIsRelation(sc, s, v, w);
    hide NormalizeNode, NormalizeMember, NormalizeItem, MemberSchema, ItemSchema, NumberAllowed, Properties;
    hide ChoicesAllow;
    if v.Obj? {
      FilledOnce(s, v.fields, w.fields);
    }
  }

  lemma {:induction false} NormalizedNodeIsComplete(sc: Schema, s: Json, v: Json)
    requires Sound(sc) && s.Obj? && InScope(sc, s) && ReferencesOnlyChecked(sc)
    requires NormalizeNode(sc, s, v).Some?
    ensures NodeComplete(sc, s, NormalizeNode(sc, s, v).value)
    decreases Rank(sc, s), 1
  {
    var w := NormalizeNode(sc, s, v).value;
    NormalizedNodeIsCanonical(sc, s, v);
    OtherChecksSurvive(sc, s, v, w);
    NodeIsRelation(sc, s, v, w);
    hide NormalizeNode, NodeChecks, OtherChecks, Complete, MemberSchema, ItemSchema, Normalize, ReferencesOnlyChecked;
    hide Canonical, Fill;
    match v
    case Obj(fields) =>
      var filled := Fill(s, fields);
      FilledOnce(s, fields, w.fields);
      forall k | k in w.fields
        ensures MemberComplete(sc, s, k, w.fields[k])
      {
        assert NormalizeMember(sc, s, k, filled[k]) == Some(w.fields[k]);
        MemberSchemaFalls(sc, s, k);
        MemberIsNormalize(sc, s, k, filled[k]);
        NormalizedIsComplete(sc, MemberSchema(s, k), filled[k]);
      }
    case Arr(items) =>
      forall i | 0 <= i < |items|
        ensures ItemComplete(sc, s, w.items[i])
      {
        assert NormalizeItem(sc, s, items[i]) == Some(w.items[i]);
        ItemSchemaFalls(sc, s);
        ItemIsNormalize(sc, s, items[i]);
        NormalizedIsComplete(sc, ItemSchema(s), items[i]);
      }
    case _ =>
  }

  /** A second normalization returns the output of the first, or refuses it where a choice fails on it. */
  lemma FixedPointExactly(sc: Schema, s: Json, v: Json)
    requires Sound(sc) && InScope(sc, s) && ReferencesOnlyChecked(sc) && Normalize(sc, s, v).Some?
    ensures var w := Normalize(sc, s, v).value;
            Normalize(sc, s, w) == if ChoicesHold(sc, s, w) then Some(w) else None
  {
    var w := Normalize(sc, s, v).value;
    hide Normalize, ChoicesHold, Complete;
    NormalizationIsIdempotent(sc, s, v);
    NormalizedIsComplete(sc, s, v);
    NormalExactlyWhenChosen(sc, s, w);
  }

  // Writes at pointers into complete values.

  /** A value that is complete where it is written into one base is so in every complete value with the same spine. */
  lemma {:induction false} WriteStaysComplete(sc: Schema, s: Json, base: Json, o: Json, p: seq<Text>, y: Json)
    requires Sound(sc) && InScope(sc, s) && SameSpine(base, o, p)
    requires Set(base, p, y).Some? && Complete(sc, s, Set(base, p, y).value) && Canonical(Set(base, p, y).value)
    requires Complete(sc, s, o) && Canonical(o) && Set(o, p, y).Some?
    ensures Complete(sc, s, Set(o, p, y).value) && Canonical(Set(o, p, y).value)
    decreases |p|, if s.Obj? then Rank(sc, s) else 0
  {
    hide NodeComplete, Set, Canonical;
    CanonicalWrites(base, o, p, y);
    if s.Obj? {
      if RefOf(s).Some? {
        ReferenceFalls(sc, s);
        WriteStaysComplete(sc, Resolve(sc.root, RefOf(s).value).value, base, o, p, y);
      }
      if !OnlyReference(s) {
        NodeStaysComplete(sc, s, base, o, p, y);
      }
    }
  }

  lemma CompleteChild(sc: Schema, s: Json, v: Json, token: Text)
    requires Sound(sc) && s.Obj? && InScope(sc, s) && NodeComplete(sc, s, v) && HasChild(v, token)
    ensures var c := StepSchema(s, v, token);
            InScope(sc, c) && Complete(sc, c, Child(v, token)) && Canonical(Child(v, token)) && Canonical(v)
  {
    StepFalls(sc, s, v, token);
    if v.Obj? {
      assert MemberComplete(sc, s, token, v.fields[token]);
    } else {
      assert ItemComplete(sc, s, Child(v, token));
    }
  }

  lemma {:induction false} NodeStaysComplete(sc: Schema, s: Json, base: Json, o: Json, p: seq<Text>, y: Json)
    requires Sound(sc) && s.Obj? && InScope(sc, s) && SameSpine(base, o, p)
    requires Set(base, p, y).Some? && NodeComplete(sc, s, Set(base, p, y).value)
    requires NodeComplete(sc, s, o) && Set(o, p, y).Some? && Canonical(Set(o, p, y).value)
    ensures NodeComplete(sc, s, Set(o, p, y).value)
    decreases |p|, 0
  {
    hide MemberSchema, ItemSchema, ArrayIndex, IsProto, NodeComplete, StepSchema, Complete, Canonical;
    var fitted, w := Set(base, p, y).value, Set(o, p, y).value;
    if o.Obj? && |p| == 1 && IsProto(p[0]) {
      PrototypeWriteKeeps(o, p, y);
    } else {
      WriteShape(base, o, p, y);
      var token := p[0];
      hide Set, HasChild, WithChild, SameSpine;
      CompleteChild(sc, s, fitted, token);
      StepIsByKind(s, o, fitted, token);
      if |p| > 1 {
        CompleteChild(sc, s, o, token);
        WriteStaysComplete(sc, StepSchema(s, o, token), Child(base, token), Child(o, token), p[1..], y);
      }
      ReplacedChildStaysComplete(sc, s, o, token, Child(w, token), w);
    }
  }

  lemma ReplacedChildStaysComplete(sc: Schema, s: Json, o: Json, token: Text, c: Json, w: Json)
    requires Sound(sc) && s.Obj? && InScope(sc, s) && NodeComplete(sc, s, o) && Canonical(w)
    requires (o.Obj? && w == Obj(o.fields[token := c])) || (o.Arr? && HasChild(o, token) && w == WithChild(o, token, c))
    requires InScope(sc, StepSchema(s, o, token)) && Complete(sc, StepSchema(s, o, token), c)
    ensures NodeComplete(sc, s, w)
  {
    assert OtherChecks(s, o);
    ContainerKeepsChecks(s, o, w);
    hide MemberSchema, ItemSchema, Fill, RefOf, Sound, InScope, OtherChecks, Canonical;
    if o.Obj? {
      NothingMissing(s, o.fields, w.fields);
      forall k | k in w.fields
        ensures MemberComplete(sc, s, k, w.fields[k])
      {
        if k != token {
          assert MemberComplete(sc, s, k, o.fields[k]);
        }
      }
    } else {
      forall i | 0 <= i < |w.items|
        ensures ItemComplete(sc, s, w.items[i])
      {
        if i != ArrayIndex(token).value {
          assert ItemComplete(sc, s, o.items[i]);
        }
      }
    }
  }

  lemma ContainerKeepsChecks(s: Json, o: Json, w: Json)
    requires OtherChecks(s, o) && Canonical(w)
    requires (o.Obj? && w.Obj? && o.fields.Keys <= w.fields.Keys) || (o.Arr? && w.Arr? && |o.items| == |w.items|)
    ensures OtherChecks(s, w)
  {
    hide Canonical, Properties;
    if o.Obj? {
      assert Fill(s, o.fields).Keys <= Fill(s, w.fields).Keys;
    }
  }
}
