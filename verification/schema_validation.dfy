/** `validateSchemaProfile`: the keyword walk, the reference check as it runs, and the defaults. */
module SchemaValidation {
  import opened CanonicalJson
  import opened JsonPointer
  import opened SchemaProfile
  import opened Normalization

  const K_SCHEMA: Text := Ascii("$schema")
  const K_ID: Text := Ascii("$id")
  const DIALECT_HOST: Text := Ascii("https://json-schema.")
  const DIALECT_PATH: Text := Ascii("org/draft/2020-12/schema")
  const DIALECT: Text := DIALECT_HOST + DIALECT_PATH

  const ALLOWED_KEYS: set<Text> := {
    K_SCHEMA, K_ID, K_DEFS, K_REF, K_TYPE, K_PROPERTIES, K_REQUIRED, K_ADDITIONAL, K_ITEMS,
    K_MIN_ITEMS, K_MAX_ITEMS, K_ENUM, K_CONST, K_DEFAULT, K_MINIMUM, K_MAXIMUM,
    K_EXCLUSIVE_MINIMUM, K_EXCLUSIVE_MAXIMUM, K_MIN_LENGTH, K_MAX_LENGTH }

  predicate IsCount(v: Json) {
    v.Num? && 0 <= v.n <= MAX_SAFE
  }

  predicate Distinct(items: seq<Json>) {
    forall i, j | 0 <= i < j < |items| :: items[i] != items[j]
  }

  /** The keywords of one node, children aside. */
  predicate KeywordsAllowed(s: Json, isRoot: bool, isProperty: bool)
    requires s.Obj?
  {
    var f, types := s.fields, SchemaTypes(s);
    && f.Keys <= ALLOWED_KEYS
    && (K_SCHEMA in f ==> f[K_SCHEMA] == Str(DIALECT))
    && (K_ID in f ==> f[K_ID].Str?)
    && (K_REF in f ==> f[K_REF].Str?)
    && types.Some?
    && (T_OBJECT in types.value || K_PROPERTIES in f || K_REQUIRED in f ==> K_ADDITIONAL in f)
    && (K_ADDITIONAL in f ==> f[K_ADDITIONAL] == Bool(false) || f[K_ADDITIONAL].Obj?)
    && (K_PROPERTIES in f ==> f[K_PROPERTIES].Obj?)
    && (K_DEFS in f ==> f[K_DEFS].Obj?)
    && (K_ITEMS in f ==> IsSchemaValue(f[K_ITEMS]))
    && (K_REQUIRED in f ==> f[K_REQUIRED].Arr? && Distinct(f[K_REQUIRED].items)
                            && forall i | 0 <= i < |f[K_REQUIRED].items| :: f[K_REQUIRED].items[i].Str?)
    && (forall k | k in {K_MIN_ITEMS, K_MAX_ITEMS, K_MIN_LENGTH, K_MAX_LENGTH} && k in f :: IsCount(f[k]))
    && (forall k | k in {K_MINIMUM, K_MAXIMUM, K_EXCLUSIVE_MINIMUM, K_EXCLUSIVE_MAXIMUM} && k in f :: f[k].Num?)
    && (K_ENUM in f ==> f[K_ENUM].Arr? && f[K_ENUM].items != [] && Distinct(f[K_ENUM].items))
    && (K_DEFAULT in f ==> isProperty)
    && (isRoot && types.value != {} ==> T_OBJECT in types.value)
  }

  /** `walkSchema` with `asSchema`. */
  predicate Walk(s: Json, isRoot: bool, isProperty: bool)
    decreases s
  {
    s.Bool? || (
      && s.Obj?
      && KeywordsAllowed(s, isRoot, isProperty)
      && (K_PROPERTIES in s.fields ==> forall k | k in s.fields[K_PROPERTIES].fields ::
         Walk(s.fields[K_PROPERTIES].fields[k], false, true))
      && (K_DEFS in s.fields ==> forall k | k in s.fields[K_DEFS].fields ::
         Walk(s.fields[K_DEFS].fields[k], false, false))
      && (K_ADDITIONAL in s.fields ==> Walk(s.fields[K_ADDITIONAL], false, false))
      && (K_ITEMS in s.fields ==> Walk(s.fields[K_ITEMS], false, false)))
  }

  /** Every default in the tree of child nodes is accepted by its own node. */
  predicate DefaultsAccepted(sc: Schema, s: Json)
    requires Sound(sc) && InScope(sc, s)
    decreases Rank(sc, s)
  {
    s.Obj? ==>
      && (HasDefault(s) ==> Normalize(sc, s, s.fields[K_DEFAULT]).Some?)
      && forall c | c in Children(s) ::
           assert c in Successors(sc.root, s);
           EdgesFall(sc, s, c);
           DefaultsAccepted(sc, c)
  }

  datatype Verdict = Unsupported | BadDefault | Valid(schema: Schema)

  lemma AcceptedIsSound(root: Json)
    requires Canonical(root) && root.Obj? && FinishingOrder(root).Some?
    ensures Sound(Schema(root, FinishingOrder(root).value))
    ensures InScope(Schema(root, FinishingOrder(root).value), root)
  {
    var order := FinishingOrder(root).value;
    AcceptsExactlyRanked(root);
    VisitStaysInside(root, root, {}, []);
    forall s | s in order
      ensures Canonical(s)
    {
      SubtermsAreCanonical(root, s);
    }
  }

  function ValidateSchemaProfile(value: Json): (v: Verdict)
    ensures v.Valid? ==> v.schema.root == value && Sound(v.schema) && InScope(v.schema, value)
  {
    if !Canonical(value) || !value.Obj? || !Has(value, K_SCHEMA)
        || value.fields[K_SCHEMA] != Str(DIALECT) then Unsupported
    else if !Walk(value, true, false) then Unsupported
    else
      match FinishingOrder(value)
      case None => Unsupported
      case Some(order) =>
        AcceptedIsSound(value);
        var sc := Schema(value, order);
        if DefaultsAccepted(sc, value) then Valid(sc) else BadDefault
  }

  /**
   The reference check with its two mutable sets. `visited` keeps insertion order, as an
   ECMAScript set does.
   */
  class ReferenceCheck {
    const root: Json
    var visiting: set<Json>
    var visited: seq<Json>

    constructor (root: Json)
      ensures this.root == root && visiting == {} && visited == []
    {
      this.root, visiting, visited := root, {}, [];
    }

    /** The source throws where this returns false, and then the two sets are discarded. */
    method VisitReferences(s: Json) returns (ok: bool)
      requires s in Subterms(root) && visiting <= Subterms(root)
      modifies this
      ensures ok <==> Visit(root, s, old(visiting), old(visited)).Some?
      ensures ok ==> visiting == old(visiting) && visited == Visit(root, s, old(visiting), old(visited)).value
      decreases Subterms(root) - visiting
    {
      hide Children, Resolve;
      if s.Null? {
        return false;
      }
      if !s.Obj? || s in visited {
        return true;
      }
      if s in visiting {
        return false;
      }
      visiting := visiting + {s};
      if RefOf(s).Some? && Resolve(root, RefOf(s).value).None? {
        return false;
      }
      var next := Successors(root, s);
      forall c | c in next ensures c in Subterms(root) { SuccessorsAreSubterms(root, s, c); }
      assert next[0..] == next;
      var i := 0;
      while i < |next|
        invariant i <= |next|
        invariant visiting == old(visiting) + {s}
        invariant VisitAll(root, next, visiting, old(visited)) == VisitAll(root, next[i..], visiting, visited)
      {
        assert next[i..][1..] == next[i + 1..];
        assert next[i] in next;
        var child := VisitReferences(next[i]);
        if !child {
          return false;
        }
        i := i + 1;
      }
      visiting := visiting - {s};
      visited := visited + [s];
      return true;
    }
  }

  method CheckReferences(root: Json) returns (r: Option<seq<Json>>)
    ensures r == FinishingOrder(root)
  {
    var check := new ReferenceCheck(root);
    var ok := check.VisitReferences(root);
    return if ok then Some(check.visited) else None;
  }
}
