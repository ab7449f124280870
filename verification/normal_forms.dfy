/**
 Values that are their own normal form: normalization only ever adds to a value, so such a
 value is kept by every layer of a chain of references; and what writes at pointers make of it.
 */
module NormalForms {
  import opened CanonicalJson
  import opened JsonPointer
  import opened SchemaProfile
  import opened Normalization
  import opened NormalizationLaws

  ghost predicate IsNormal(sc: Schema, s: Json, v: Json)
    requires Sound(sc) && InScope(sc, s)
  {
    Normalize(sc, s, v) == Some(v)
  }

  // Normalization adds, and changes nothing that is there.

  /** Everything in `v` is in `w`, at the same place. */
  predicate Extends(v: Json, w: Json)
    decreases v
  {
    match v
    case Obj(fields) => w.Obj? && forall k | k in fields :: k in w.fields && Extends(fields[k], w.fields[k])
    case Arr(items) => w.Arr? && |w.items| == |items| && forall i | 0 <= i < |items| :: Extends(items[i], w.items[i])
    case _ => w == v
  }

  lemma {:induction false} ExtendsIsReflexive(v: Json)
    ensures Extends(v, v)
  {
    match v
    case Obj(fields) =>
      forall k | k in fields
        ensures Extends(fields[k], fields[k])
      {
        ExtendsIsReflexive(fields[k]);
      }
    case Arr(items) =>
      forall i | 0 <= i < |items|
        ensures Extends(items[i], items[i])
      {
        ExtendsIsReflexive(items[i]);
      }
    case _ =>
  }

  lemma {:induction false} ExtendsIsTransitive(u: Json, v: Json, w: Json)
    requires Extends(u, v) && Extends(v, w)
    ensures Extends(u, w)
    decreases u
  {
    match u
    case Obj(fields) =>
      forall k | k in fields
        ensures k in w.fields && Extends(fields[k], w.fields[k])
      {
        ExtendsIsTransitive(fields[k], v.fields[k], w.fields[k]);
      }
    case Arr(items) =>
      forall i | 0 <= i < |items|
        ensures Extends(items[i], w.items[i])
      {
        ExtendsIsTransitive(items[i], v.items[i], w.items[i]);
      }
    case _ =>
  }

  lemma {:induction false} ExtendsIsAntisymmetric(v: Json, w: Json)
    requires Extends(v, w) && Extends(w, v)
    ensures v == w
    decreases v
  {
    match v
    case Obj(fields) =>
      forall k | k in fields
        ensures fields[k] == w.fields[k]
      {
        ExtendsIsAntisymmetric(fields[k], w.fields[k]);
      }
      assert fields == w.fields;
    case Arr(items) =>
      forall i | 0 <= i < |items|
        ensures items[i] == w.items[i]
      {
        ExtendsIsAntisymmetric(items[i], w.items[i]);
      }
      assert items == w.items;
    case _ =>
  }

  lemma {:induction false} NormalizedExtends(sc: Schema, s: Json, v: Json)
    requires Sound(sc) && InScope(sc, s) && Normalize(sc, s, v).Some?
    ensures Extends(v, Normalize(sc, s, v).value)
    decreases Rank(sc, s), 2
  {
    hide Extends;
    if !s.Obj? {
      ExtendsIsReflexive(v);
    } else if RefOf(s).Some? {
      ReferenceFalls(sc, s);
      var target := Resolve(sc.root, RefOf(s).value).value;
      NormalizedExtends(sc, target, v);
      if s.fields.Keys != {K_REF} {
        var t := Normalize(sc, target, v).value;
        NormalizedNodeExtends(sc, s, t);
        ExtendsIsTransitive(v, t, NormalizeNode(sc, s, t).value);
      }
    } else {
      NormalizedNodeExtends(sc, s, v);
    }
  }

  lemma {:induction false} NormalizedMemberExtends(sc: Schema, s: Json, key: Text, v: Json)
    requires Sound(sc) && s.Obj? && InScope(sc, s) && NormalizeMember(sc, s, key, v).Some?
    ensures Extends(v, NormalizeMember(sc, s, key, v).value)
    decreases Rank(sc, s), 0
  {
    hide MemberSchema, Extends;
    MemberSchemaFalls(sc, s, key);
    NormalizedExtends(sc, MemberSchema(s, key), v);
  }

  lemma {:induction false} NormalizedItemExtends(sc: Schema, s: Json, v: Json)
    requires Sound(sc) && s.Obj? && InScope(sc, s) && NormalizeItem(sc, s, v).Some?
    ensures Extends(v, NormalizeItem(sc, s, v).value)
    decreases Rank(sc, s), 0
  {
    hide ItemSchema, Extends;
    ItemSchemaFalls(sc, s);
    NormalizedExtends(sc, ItemSchema(s), v);
  }

  lemma {:induction false} NormalizedNodeExtends(sc: Schema, s: Json, v: Json)
    requires Sound(sc) && s.Obj? && InScope(sc, s) && NormalizeNode(sc, s, v).Some?
    ensures Extends(v, NormalizeNode(sc, s, v).value)
    decreases Rank(sc, s), 1
  {
    var w := NormalizeNode(sc, s, v).value;
    NodeIsRelation(sc, s, v, w);
    hide NormalizeNode, NormalizeMember, NormalizeItem, NodeChecks, Fill;
    match v
    case Obj(fields) =>
      forall k | k in fields
        ensures k in w.fields && Extends(fields[k], w.fields[k])
      {
        NormalizedMemberExtends(sc, s, k, fields[k]);
      }
    case Arr(items) =>
      forall i | 0 <= i < |items|
        ensures Extends(items[i], w.items[i])
      {
        NormalizedItemExtends(sc, s, items[i]);
      }
    case _ =>
  }

  /** A normal value is kept by the target of a reference and by its siblings alike. */
  lemma LayersAreNormal(sc: Schema, s: Json, v: Json)
    requires Sound(sc) && s.Obj? && InScope(sc, s) && IsNormal(sc, s, v) && RefOf(s).Some?
    ensures Resolves(sc.root, s)
    ensures var target := Resolve(sc.root, RefOf(s).value).value;
            && InScope(sc, target) && Rank(sc, target) < Rank(sc, s) && IsNormal(sc, target, v)
    ensures s.fields.Keys != {K_REF} ==> NormalizeNode(sc, s, v) == Some(v)
  {
    hide NormalizeNode, Extends, Resolve;
    ReferenceFalls(sc, s);
    var target := Resolve(sc.root, RefOf(s).value).value;
    var t := Normalize(sc, target, v).value;
    NormalizedExtends(sc, target, v);
    if s.fields.Keys != {K_REF} {
      NormalizedNodeExtends(sc, s, t);
      ExtendsIsAntisymmetric(v, t);
    }
  }

  /** What is kept through a reference is normal for it. */
  lemma NormalThroughReference(sc: Schema, s: Json, v: Json)
    requires Sound(sc) && s.Obj? && InScope(sc, s) && RefOf(s).Some? && Resolves(sc.root, s)
    requires var target := Resolve(sc.root, RefOf(s).value).value; InScope(sc, target) && IsNormal(sc, target, v)
    requires s.fields.Keys != {K_REF} ==> NormalizeNode(sc, s, v) == Some(v)
    ensures IsNormal(sc, s, v)
  {
    hide NormalizeNode, Resolve;
  }

  // A normal value has nothing left to fill in, under any schema.

  lemma {:induction false} NormalIsFilled(sc: Schema, s: Json, v: Json)
    requires Sound(sc) && InScope(sc, s) && IsNormal(sc, s, v)
    ensures Filled(sc, s, v)
    decreases Rank(sc, s), 1
  {
    hide NodeFilled, NormalizeNode, Resolve;
    if s.Obj? {
      if RefOf(s).Some? {
        LayersAreNormal(sc, s, v);
        NormalIsFilled(sc, Resolve(sc.root, RefOf(s).value).value, v);
      }
      if !OnlyReference(s) {
        NormalNodeIsFilled(sc, s, v);
      }
    }
  }

  lemma {:induction false} NormalNodeIsFilled(sc: Schema, s: Json, v: Json)
    requires Sound(sc) && s.Obj? && InScope(sc, s) && NormalizeNode(sc, s, v) == Some(v)
    ensures NodeFilled(sc, s, v)
    decreases Rank(sc, s), 0
  {
    NodeIsRelation(sc, s, v, v);
    hide NormalizeNode, NodeChecks, Filled, MemberSchema, ItemSchema, Normalize;
    match v
    case Obj(fields) =>
      forall k | k in fields
        ensures MemberFilled(sc, s, k, fields[k])
      {
        MemberSchemaFalls(sc, s, k);
        MemberIsNormalize(sc, s, k, fields[k]);
        assert NormalizeMember(sc, s, k, fields[k]) == Some(fields[k]);
        NormalIsFilled(sc, MemberSchema(s, k), fields[k]);
      }
    case Arr(items) =>
      forall i | 0 <= i < |items|
        ensures ItemFilled(sc, s, items[i])
      {
        ItemSchemaFalls(sc, s);
        ItemIsNormalize(sc, s, items[i]);
        assert NormalizeItem(sc, s, items[i]) == Some(items[i]);
        NormalIsFilled(sc, ItemSchema(s), items[i]);
      }
    case _ =>
  }

  /** The normal forms of a schema are the values it accepts that lack no default. */
  lemma NormalExactlyWhenFilled(sc: Schema, s: Json, v: Json)
    requires Sound(sc) && InScope(sc, s)
    ensures Normalize(sc, s, v) == Some(v) <==> Normalize(sc, s, v).Some? && Filled(sc, s, v)
  {
    hide Normalize, Filled;
    if Normalize(sc, s, v) == Some(v) {
      NormalIsFilled(sc, s, v);
    }
    if Normalize(sc, s, v).Some? && Filled(sc, s, v) {
      FilledIsKept(sc, s, v);
    }
  }

  // Writes at pointers into normal values.

  /**
   At every node, `enum` and `const` offer scalars only. Unlike in `ChoicesStable`, nodes that
   rewrite nothing are included: an `enum` of arrays beside `items: true` admits each of two
   writes alone and refuses them together.
   */
  predicate ScalarChoices(sc: Schema) {
    forall s | s in sc.order :: OffersScalars(s)
  }

  predicate OffersScalars(s: Json) {
    && (Has(s, K_ENUM) && s.fields[K_ENUM].Arr? ==> forall i | 0 <= i < |s.fields[K_ENUM].items| ::
       IsScalar(s.fields[K_ENUM].items[i]))
    && (Has(s, K_CONST) ==> IsScalar(s.fields[K_CONST]))
  }

  lemma ScalarChoicesAreStable(sc: Schema)
    requires ScalarChoices(sc)
    ensures ChoicesStable(sc)
  {
    forall s | s in sc.order && Rewrites(s)
      ensures OffersScalars(s)
    {
    }
  }

  /** A node whose choices are scalars checks containers of one kind alike, as far as their members go. */
  lemma ContainerChecks(s: Json, o: Json, w: Json)
    requires OffersScalars(s) && NodeChecks(s, o) && Canonical(w)
    requires (o.Obj? && w.Obj? && o.fields.Keys <= w.fields.Keys) || (o.Arr? && w.Arr? && |o.items| == |w.items|)
    ensures NodeChecks(s, w)
  {
    hide Canonical, Properties;
    assert !IsScalar(o);
    assert !Has(s, K_ENUM) && !Has(s, K_CONST);
    if o.Obj? {
      assert Fill(s, o.fields).Keys <= Fill(s, w.fields).Keys;
    }
  }

  /** One child of a normal container replaced by another that its schema keeps. */
  lemma ReplacedChildStaysNormal(sc: Schema, s: Json, o: Json, token: Text, c: Json, w: Json)
    requires Sound(sc) && s.Obj? && InScope(sc, s) && NormalizeNode(sc, s, o) == Some(o)
    requires (o.Obj? && w == Obj(o.fields[token := c])) || (o.Arr? && HasChild(o, token) && w == WithChild(o, token, c))
    requires InScope(sc, StepSchema(s, o, token)) && IsNormal(sc, StepSchema(s, o, token), c)
    requires Canonical(w) && (OffersScalars(s) || NormalizeNode(sc, s, w).Some?)
    ensures NormalizeNode(sc, s, w) == Some(w)
  {
    NodeIsRelation(sc, s, o, o);
    if NormalizeNode(sc, s, w).Some? {
      NodeIsRelation(sc, s, w, NormalizeNode(sc, s, w).value);
    } else {
      ContainerChecks(s, o, w);
    }
    NodeIsRelation(sc, s, w, w);
    hide NormalizeNode, NodeChecks, MemberSchema, ItemSchema, Fill, Normalize, Canonical, OffersScalars;
    if o.Obj? {
      NothingMissing(s, o.fields, w.fields);
      forall k | k in w.fields
        ensures NormalizeMember(sc, s, k, w.fields[k]) == Some(w.fields[k])
      {
        MemberIsNormalize(sc, s, k, w.fields[k]);
        assert k != token ==> NormalizeMember(sc, s, k, o.fields[k]) == Some(o.fields[k]);
      }
    } else {
      forall i | 0 <= i < |w.items|
        ensures NormalizeItem(sc, s, w.items[i]) == Some(w.items[i])
      {
        ItemIsNormalize(sc, s, w.items[i]);
        assert i != ArrayIndex(token).value ==> NormalizeItem(sc, s, o.items[i]) == Some(o.items[i]);
      }
    }
  }

  lemma NormalChild(sc: Schema, s: Json, v: Json, token: Text)
    requires Sound(sc) && s.Obj? && InScope(sc, s) && NormalizeNode(sc, s, v) == Some(v) && HasChild(v, token)
    ensures var schema := StepSchema(s, v, token);
            InScope(sc, schema) && IsNormal(sc, schema, Child(v, token)) && Canonical(Child(v, token)) && Canonical(v)
  {
    NodeIsRelation(sc, s, v, v);
    hide NormalizeNode, MemberSchema, ItemSchema, Fill, Normalize;
    StepFalls(sc, s, v, token);
    if v.Obj? {
      assert NormalizeMember(sc, s, token, v.fields[token]) == Some(v.fields[token]);
      MemberIsNormalize(sc, s, token, v.fields[token]);
    } else {
      var i := ArrayIndex(token).value;
      assert NormalizeItem(sc, s, v.items[i]) == Some(v.items[i]);
      ItemIsNormalize(sc, s, v.items[i]);
    }
  }

  lemma ReplacedChildIsCanonical(o: Json, fitted: Json, token: Text, c: Json, w: Json)
    requires Canonical(o) && Canonical(fitted) && Canonical(c) && HasChild(fitted, token) && o.Obj? == fitted.Obj?
    requires (o.Obj? && w == Obj(o.fields[token := c])) || (o.Arr? && HasChild(o, token) && w == WithChild(o, token, c))
    ensures Canonical(w)
  {
    hide WellFormed, DangerousKey;
  }

  /** A child that a schema normalizes at all, when the node does. */
  lemma ChildNormalizes(sc: Schema, s: Json, v: Json, token: Text)
    requires Sound(sc) && s.Obj? && InScope(sc, s) && NormalizeNode(sc, s, v).Some? && HasChild(v, token)
    ensures InScope(sc, StepSchema(s, v, token)) && Normalize(sc, StepSchema(s, v, token), Child(v, token)).Some?
  {
    var w := NormalizeNode(sc, s, v).value;
    NodeIsRelation(sc, s, v, w);
    hide NormalizeNode, MemberSchema, ItemSchema, Normalize;
    StepFalls(sc, s, v, token);
    if v.Obj? {
      assert NormalizeMember(sc, s, token, v.fields[token]).Some?;
      MemberIsNormalize(sc, s, token, v.fields[token]);
    } else {
      var i := ArrayIndex(token).value;
      assert NormalizeItem(sc, s, v.items[i]) == Some(w.items[i]);
      ItemIsNormalize(sc, s, v.items[i]);
    }
  }

  /**
   A value whose write into one normal base is normal can be written into every normal value
   with the same spine: the result is normal, always where choices are scalars, and otherwise
   wherever it is accepted at all.
   */
  lemma {:induction false} WriteStaysNormal(sc: Schema, s: Json, base: Json, o: Json, p: seq<Text>, y: Json)
    requires Sound(sc) && InScope(sc, s) && SameSpine(base, o, p)
    requires Set(base, p, y).Some? && IsNormal(sc, s, Set(base, p, y).value)
    requires IsNormal(sc, s, o) && Set(o, p, y).Some?
    requires ScalarChoices(sc) || Normalize(sc, s, Set(o, p, y).value).Some?
    ensures IsNormal(sc, s, Set(o, p, y).value)
    decreases |p|, if s.Obj? then Rank(sc, s) else 0
  {
    hide NormalizeNode, Resolve, ScalarChoices, SameSpine;
    var fitted, w := Set(base, p, y).value, Set(o, p, y).value;
    if !s.Obj? {
      WrittenIsCanonical(sc, s, base, o, p, y);
    } else if RefOf(s).Some? {
      LayersAreNormal(sc, s, o);
      LayersAreNormal(sc, s, fitted);
      WriteStaysNormal(sc, Resolve(sc.root, RefOf(s).value).value, base, o, p, y);
      if s.fields.Keys != {K_REF} {
        NodeWriteStaysNormal(sc, s, base, o, p, y);
      }
      NormalThroughReference(sc, s, w);
    } else {
      NodeWriteStaysNormal(sc, s, base, o, p, y);
    }
  }

  /** At a boolean schema normal just means canonical. */
  lemma {:induction false} WrittenIsCanonical(sc: Schema, s: Json, base: Json, o: Json, p: seq<Text>, y: Json)
    requires Sound(sc) && InScope(sc, s) && !s.Obj? && SameSpine(base, o, p)
    requires Set(base, p, y).Some? && IsNormal(sc, s, Set(base, p, y).value)
    requires IsNormal(sc, s, o) && Set(o, p, y).Some?
    ensures IsNormal(sc, s, Set(o, p, y).value)
  {
    CanonicalWrites(base, o, p, y);
    hide Canonical, Set;
  }

  lemma {:induction false} CanonicalWrites(base: Json, o: Json, p: seq<Text>, y: Json)
    requires SameSpine(base, o, p) && Set(base, p, y).Some? && Canonical(Set(base, p, y).value)
    requires Canonical(o) && Set(o, p, y).Some?
    ensures Canonical(Set(o, p, y).value)
    decreases p
  {
    if o.Obj? && |p| == 1 && IsProto(p[0]) {
      assert Set(o, p, y).value == o;
    } else {
      WriteShape(base, o, p, y);
      var fitted, w := Set(base, p, y).value, Set(o, p, y).value;
      ChildIsCanonical(fitted, p[0]);
      if |p| > 1 {
        ChildIsCanonical(o, p[0]);
        hide Set, Canonical, HasChild, SameSpine;
        CanonicalWrites(Child(base, p[0]), Child(o, p[0]), p[1..], y);
      }
      hide Set, Canonical, HasChild, SameSpine;
      ReplacedChildIsCanonical(o, fitted, p[0], Child(w, p[0]), w);
    }
  }

  lemma {:induction false} NodeWriteStaysNormal(sc: Schema, s: Json, base: Json, o: Json, p: seq<Text>, y: Json)
    requires Sound(sc) && s.Obj? && InScope(sc, s) && SameSpine(base, o, p)
    requires Set(base, p, y).Some? && NormalizeNode(sc, s, Set(base, p, y).value) == Some(Set(base, p, y).value)
    requires NormalizeNode(sc, s, o) == Some(o) && Set(o, p, y).Some?
    requires ScalarChoices(sc) || NormalizeNode(sc, s, Set(o, p, y).value).Some?
    ensures NormalizeNode(sc, s, Set(o, p, y).value) == Some(Set(o, p, y).value)
    decreases |p|, 0, 1
  {
    assert ScalarChoices(sc) ==> OffersScalars(s);
    var fitted, w := Set(base, p, y).value, Set(o, p, y).value;
    if o.Obj? && |p| == 1 && IsProto(p[0]) {
      PrototypeWriteKeeps(o, p, y);
    } else {
      ChildStaysNormal(sc, s, base, o, p, y);
      WriteShape(base, o, p, y);
      hide *;
      ReplacedInNormal(sc, s, o, fitted, p[0], Child(w, p[0]), w);
    }
  }

  lemma {:induction false} ChildStaysNormal(sc: Schema, s: Json, base: Json, o: Json, p: seq<Text>, y: Json)
    requires Sound(sc) && s.Obj? && InScope(sc, s) && SameSpine(base, o, p)
    requires Set(base, p, y).Some? && NormalizeNode(sc, s, Set(base, p, y).value) == Some(Set(base, p, y).value)
    requires NormalizeNode(sc, s, o) == Some(o) && Set(o, p, y).Some?
    requires ScalarChoices(sc) || NormalizeNode(sc, s, Set(o, p, y).value).Some?
    requires !(o.Obj? && |p| == 1 && IsProto(p[0]))
    ensures var w := Set(o, p, y).value;
            && p != [] && HasChild(w, p[0]) && InScope(sc, StepSchema(s, o, p[0]))
            && IsNormal(sc, StepSchema(s, o, p[0]), Child(w, p[0]))
    decreases |p|, 0, 0
  {
    hide NormalizeNode, StepSchema, ArrayIndex, IsProto, ScalarChoices, Normalize, Canonical;
    WriteShape(base, o, p, y);
    var token := p[0];
    var fitted, w := Set(base, p, y).value, Set(o, p, y).value;
    hide Set, HasChild, SameSpine, WithChild;
    NormalChild(sc, s, fitted, token);
    StepIsByKind(s, o, fitted, token);
    StepIsByKind(s, o, w, token);
    if |p| > 1 {
      NormalChild(sc, s, o, token);
      if !ScalarChoices(sc) {
        ChildNormalizes(sc, s, w, token);
      }
      WriteStaysNormal(sc, StepSchema(s, o, token), Child(base, token), Child(o, token), p[1..], y);
    }
  }

  lemma ReplacedInNormal(sc: Schema, s: Json, o: Json, fitted: Json, token: Text, c: Json, w: Json)
    requires Sound(sc) && s.Obj? && InScope(sc, s) && NormalizeNode(sc, s, o) == Some(o)
    requires NormalizeNode(sc, s, fitted) == Some(fitted)
    requires HasChild(fitted, token) && o.Obj? == fitted.Obj?
    requires (o.Obj? && w == Obj(o.fields[token := c])) || (o.Arr? && HasChild(o, token) && w == WithChild(o, token, c))
    requires InScope(sc, StepSchema(s, o, token)) && IsNormal(sc, StepSchema(s, o, token), c)
    requires OffersScalars(s) || NormalizeNode(sc, s, w).Some?
    ensures NormalizeNode(sc, s, w) == Some(w)
  {
    NodeIsRelation(sc, s, o, o);
    NodeIsRelation(sc, s, fitted, fitted);
    assert Canonical(o) && Canonical(fitted);
    hide NormalizeNode, MemberSchema, ItemSchema, OffersScalars, Canonical, Normalize;
    NormalizedIsCanonical(sc, StepSchema(s, o, token), c);
    ReplacedChildIsCanonical(o, fitted, token, c, w);
    ReplacedChildStaysNormal(sc, s, o, token, c, w);
  }

  /** Where the schema admits one write, it admits another at the same pointer of a value with the same spine. */
  lemma {:induction false} SchemaSetAlongSpine(sc: Schema, s: Json, base: Json, o: Json, p: seq<Text>, x: Json, y: Json)
    requires Sound(sc) && InScope(sc, s) && SameSpine(base, o, p)
    requires SchemaSet(sc, s, base, p, x).Some? && Set(o, p, y).Some?
    ensures SchemaSet(sc, s, o, p, y) == Set(o, p, y)
    decreases p
  {
    hide Dereference, ObjectChildSchema, ArrayChildSchema, IsProto, ArrayIndex;
    var d := Dereference(sc, s).value;
    assert ChildSchema(d, base, p[0]) == ChildSchema(d, o, p[0]);
    if |p| > 1 {
      ChildSchemaInScope(sc, d, base, p[0]);
      SchemaSetAlongSpine(sc, ChildSchema(d, base, p[0]).value, Child(base, p[0]), Child(o, p[0]), p[1..], x, y);
    }
  }
}
