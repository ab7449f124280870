/**
 The closed JSON-Schema profile: nodes and their edges, and the depth-first reference check.
 A node is the JSON value itself; two nodes with equal values have equal edges, so checking
 cycles by value and by object identity accept the same schemas.
 */
module SchemaProfile {
  import opened CanonicalJson
  import opened JsonPointer

  const K_REF: Text := Ascii("$ref")
  const K_DEFS: Text := Ascii("$defs")
  const K_PROPERTIES: Text := Ascii("properties")
  const K_ADDITIONAL: Text := Ascii("additionalProperties")
  const K_ITEMS: Text := Ascii("items")

  predicate Has(s: Json, key: Text) {
    s.Obj? && key in s.fields
  }

  function RefOf(s: Json): Option<Text> {
    if Has(s, K_REF) && s.fields[K_REF].Str? then Some(s.fields[K_REF].s) else None
  }

  /** The members of an object-valued keyword; empty when the keyword is absent or not an object. */
  function MembersOf(s: Json, key: Text): map<Text, Json> {
    if Has(s, key) && s.fields[key].Obj? then s.fields[key].fields else map[]
  }

  function Properties(s: Json): map<Text, Json> {
    MembersOf(s, K_PROPERTIES)
  }

  predicate IsSchemaValue(v: Json) {
    v.Bool? || v.Obj?
  }

  /** Down through own members of plain objects. */
  function Descend(v: Json, tokens: seq<Text>): Option<Json>
    decreases tokens
  {
    if tokens == [] then Some(v)
    else if v.Obj? && tokens[0] in v.fields then Descend(v.fields[tokens[0]], tokens[1..])
    else None
  }

  /** `resolveReference`: only `#/$defs/...`, and only onto a boolean or an object. */
  function Resolve(root: Json, reference: Text): (r: Option<Json>)
    ensures r.Some? ==> IsSchemaValue(r.value)
  {
    if !(Ascii("#/$defs/") <= reference) then None
    else
      match ParsePointer(reference[1..], true)
      case None => None
      case Some(tokens) =>
        match Descend(root, tokens)
        case None => None
        case Some(v) => if IsSchemaValue(v) then Some(v) else None
  }

  ghost function Subterms(j: Json): set<Json>
    ensures j in Subterms(j)
  {
    match j
    case Arr(items) => {j} + set i, x | 0 <= i < |items| && x in Subterms(items[i]) :: x
    case Obj(fields) => {j} + set k, x | k in fields.Keys && x in Subterms(fields[k]) :: x
    case _ => {j}
  }

  lemma {:induction false} SubtermsOfSubterm(j: Json, x: Json)
    requires x in Subterms(j)
    ensures Subterms(x) <= Subterms(j)
  {
    if x != j {
      match j
      case Arr(items) =>
        var i :| 0 <= i < |items| && x in Subterms(items[i]);
        SubtermsOfSubterm(items[i], x);
      case Obj(fields) =>
        var k :| k in fields.Keys && x in Subterms(fields[k]);
        SubtermsOfSubterm(fields[k], x);
    }
  }

  lemma MemberIsSubterm(j: Json, k: Text)
    requires j.Obj? && k in j.fields
    ensures j.fields[k] in Subterms(j)
  {
    assert j.fields[k] in Subterms(j.fields[k]);
  }

  lemma {:induction false} DescendStaysInside(v: Json, tokens: seq<Text>)
    requires Descend(v, tokens).Some?
    ensures Descend(v, tokens).value in Subterms(v)
    decreases tokens
  {
    if tokens != [] {
      MemberIsSubterm(v, tokens[0]);
      SubtermsOfSubterm(v, v.fields[tokens[0]]);
      DescendStaysInside(v.fields[tokens[0]], tokens[1..]);
    }
  }

  lemma {:induction false} SubtermsAreCanonical(j: Json, x: Json)
    requires Canonical(j) && x in Subterms(j)
    ensures Canonical(x)
  {
    if x != j {
      match j
      case Arr(items) =>
        var i :| 0 <= i < |items| && x in Subterms(items[i]);
        SubtermsAreCanonical(items[i], x);
      case Obj(fields) =>
        var k :| k in fields.Keys && x in Subterms(fields[k]);
        SubtermsAreCanonical(fields[k], x);
    }
  }

  // Edges.

  function Values(m: map<Text, Json>, keys: seq<Text>): (r: seq<Json>)
    requires forall k | k in keys :: k in m
    ensures |r| == |keys|
    ensures forall i | 0 <= i < |keys| :: r[i] == m[keys[i]]
  {
    seq(|keys|, i requires 0 <= i < |keys| => m[keys[i]])
  }

  function Single(s: Json, key: Text): seq<Json> {
    if Has(s, key) && IsSchemaValue(s.fields[key]) then [s.fields[key]] else []
  }

  /** `schemaChildren`. */
  function Children(s: Json): seq<Json> {
    var defs, properties := MembersOf(s, K_DEFS), Properties(s);
    Values(defs, SortedKeys(defs.Keys)) + Values(properties, SortedKeys(properties.Keys))
    + Single(s, K_ADDITIONAL) + Single(s, K_ITEMS)
  }

  predicate Resolves(root: Json, s: Json) {
    RefOf(s).Some? ==> Resolve(root, RefOf(s).value).Some?
  }

  /** The nodes a node leads to: its reference target, then its children. */
  function Successors(root: Json, s: Json): seq<Json> {
    (if RefOf(s).Some? && Resolves(root, s) then [Resolve(root, RefOf(s).value).value] else []) + Children(s)
  }

  lemma ValuesAreSubterms(s: Json, key: Text, i: nat)
    requires i < |MembersOf(s, key)|
    ensures var m := MembersOf(s, key); Values(m, SortedKeys(m.Keys))[i] in Subterms(s)
  {
    var m := MembersOf(s, key);
    var k := SortedKeys(m.Keys)[i];
    assert k in SortedKeys(m.Keys);
    MemberIsSubterm(s.fields[key], k);
    MemberIsSubterm(s, key);
    SubtermsOfSubterm(s, s.fields[key]);
  }

  lemma SuccessorsAreSubterms(root: Json, s: Json, c: Json)
    requires s in Subterms(root) && c in Successors(root, s)
    ensures c in Subterms(root)
  {
    hide Resolve, Subterms, SortedKeys;
    SubtermsOfSubterm(root, s);
    var defs, properties := MembersOf(s, K_DEFS), Properties(s);
    var vd, vp := Values(defs, SortedKeys(defs.Keys)), Values(properties, SortedKeys(properties.Keys));
    if RefOf(s).Some? && Resolves(root, s) && c == Resolve(root, RefOf(s).value).value {
      ResolveStaysInside(root, RefOf(s).value);
    } else if c in vd {
      var i :| 0 <= i < |vd| && vd[i] == c;
      ValuesAreSubterms(s, K_DEFS, i);
    } else if c in vp {
      var i :| 0 <= i < |vp| && vp[i] == c;
      ValuesAreSubterms(s, K_PROPERTIES, i);
    } else if c in Single(s, K_ADDITIONAL) {
      MemberIsSubterm(s, K_ADDITIONAL);
    } else {
      assert c in Single(s, K_ITEMS);
      MemberIsSubterm(s, K_ITEMS);
    }
  }

  lemma ResolveStaysInside(root: Json, reference: Text)
    requires Resolve(root, reference).Some?
    ensures Resolve(root, reference).value in Subterms(root)
  {
    DescendStaysInside(root, ParsePointer(reference[1..], true).value);
  }

  // The depth-first check.

  /**
   `visitReferences`: `visiting` is the current path, `visited` the finished nodes in the
   order they finished. A null node makes the property access throw; other scalars and arrays
   have no keywords and no edges.
   */
  function Visit(root: Json, s: Json, visiting: set<Json>, visited: seq<Json>): Option<seq<Json>>
    requires s in Subterms(root) && visiting <= Subterms(root)
    decreases Subterms(root) - visiting, 1, 0
  {
    if s.Null? then None
    else if !s.Obj? || s in visited then Some(visited)
    else if s in visiting || !Resolves(root, s) then None
    else
      forall c | c in Successors(root, s) ensures c in Subterms(root) { SuccessorsAreSubterms(root, s, c); }
      match VisitAll(root, Successors(root, s), visiting + {s}, visited)
      case None => None
      case Some(finished) => Some(finished + [s])
  }

  function VisitAll(root: Json, nodes: seq<Json>, visiting: set<Json>, visited: seq<Json>): Option<seq<Json>>
    requires visiting <= Subterms(root) && forall c | c in nodes :: c in Subterms(root)
    decreases Subterms(root) - visiting, 2, |nodes|
  {
    if nodes == [] then Some(visited)
    else
      match Visit(root, nodes[0], visiting, visited)
      case None => None
      case Some(finished) => VisitAll(root, nodes[1..], visiting, finished)
  }

  /** The finishing order of a reference check that succeeds. */
  function FinishingOrder(root: Json): Option<seq<Json>> {
    Visit(root, root, {}, [])
  }

  /** A node whose edges are in order: references resolve, and every node it leads to comes before. */
  ghost predicate Placed(root: Json, s: Json, before: seq<Json>) {
    && s.Obj?
    && Resolves(root, s)
    && forall c | c in Successors(root, s) :: !c.Null? && (c.Obj? ==> c in before)
  }

  /** A topological order of the schema graph. */
  ghost predicate Topological(root: Json, order: seq<Json>) {
    forall i | 0 <= i < |order| :: Placed(root, order[i], order[..i])
  }

  lemma TopologicalGrows(root: Json, order: seq<Json>, s: Json)
    requires Topological(root, order) && Placed(root, s, order)
    ensures Topological(root, order + [s])
  {
    var more := order + [s];
    forall i | 0 <= i < |more|
      ensures Placed(root, more[i], more[..i])
    {
      assert more[..i] == order[..i];
      assert i == |order| ==> order[..i] == order;
    }
  }

  lemma {:induction false} VisitIsTopological(root: Json, s: Json, visiting: set<Json>, visited: seq<Json>)
    requires s in Subterms(root) && visiting <= Subterms(root)
    requires Topological(root, visited) && Visit(root, s, visiting, visited).Some?
    ensures var r := Visit(root, s, visiting, visited).value;
            visited <= r && Topological(root, r) && !s.Null? && (s.Obj? ==> s in r)
    decreases Subterms(root) - visiting, 1, 0
  {
    hide Subterms, Children, Placed;
    if s.Obj? && s !in visited {
      forall c | c in Successors(root, s) ensures c in Subterms(root) { SuccessorsAreSubterms(root, s, c); }
      VisitAllIsTopological(root, Successors(root, s), visiting + {s}, visited);
      var finished := VisitAll(root, Successors(root, s), visiting + {s}, visited).value;
      assert Placed(root, s, finished) by { PlacedAfter(root, s, finished); }
      TopologicalGrows(root, finished, s);
    }
  }

  lemma PlacedAfter(root: Json, s: Json, before: seq<Json>)
    requires s.Obj? && Resolves(root, s)
    requires forall c | c in Successors(root, s) :: !c.Null? && (c.Obj? ==> c in before)
    ensures Placed(root, s, before)
  {
  }

  lemma {:induction false} VisitAllIsTopological(root: Json, nodes: seq<Json>, visiting: set<Json>, visited: seq<Json>)
    requires visiting <= Subterms(root) && forall c | c in nodes :: c in Subterms(root)
    requires Topological(root, visited) && VisitAll(root, nodes, visiting, visited).Some?
    ensures var r := VisitAll(root, nodes, visiting, visited).value;
            && visited <= r && Topological(root, r)
            && forall c | c in nodes :: !c.Null? && (c.Obj? ==> c in r)
    decreases Subterms(root) - visiting, 2, |nodes|
  {
    hide Subterms, Successors, Topological;
    if nodes != [] {
      VisitIsTopological(root, nodes[0], visiting, visited);
      VisitAllIsTopological(root, nodes[1..], visiting, Visit(root, nodes[0], visiting, visited).value);
      assert nodes == [nodes[0]] + nodes[1..];
    }
  }

  /** A rank that falls along every edge of the graph reachable from the root. */
  ghost predicate Ranks(root: Json, rank: map<Json, nat>) {
    && root in rank
    && forall s | s in rank ::
         && s.Obj? && s in Subterms(root) && Resolves(root, s)
         && forall c | c in Successors(root, s) :: !c.Null? && (c.Obj? ==> c in rank && rank[c] < rank[s])
  }

  /** The position of a finished node. */
  function Position(order: seq<Json>, s: Json): (i: nat)
    requires s in order
    ensures i < |order| && order[i] == s && s !in order[..i]
  {
    if order[0] == s then 0 else 1 + Position(order[1..], s)
  }

  lemma {:induction false} VisitAcceptsRanked(root: Json, s: Json, visiting: set<Json>, visited: seq<Json>,
      rank: map<Json, nat>)
    requires s in Subterms(root) && visiting <= Subterms(root)
    requires Ranks(root, rank) && !s.Null?
    requires s.Obj? ==> s in rank && forall a | a in visiting :: a in rank && rank[s] < rank[a]
    ensures Visit(root, s, visiting, visited).Some?
    decreases Subterms(root) - visiting, 1, 0
  {
    hide Subterms, Children;
    if s.Obj? && s !in visited {
      forall c | c in Successors(root, s) ensures c in Subterms(root) { SuccessorsAreSubterms(root, s, c); }
      VisitAllAcceptsRanked(root, Successors(root, s), visiting + {s}, visited, rank);
    }
  }

  lemma {:induction false} VisitAllAcceptsRanked(root: Json, nodes: seq<Json>, visiting: set<Json>, visited: seq<Json>,
      rank: map<Json, nat>)
    requires visiting <= Subterms(root) && forall c | c in nodes :: c in Subterms(root)
    requires Ranks(root, rank)
    requires forall c | c in nodes ::
             !c.Null? && (c.Obj? ==> c in rank && forall a | a in visiting :: a in rank && rank[c] < rank[a])
    ensures VisitAll(root, nodes, visiting, visited).Some?
    decreases Subterms(root) - visiting, 2, |nodes|
  {
    hide Subterms, Successors, Ranks;
    if nodes != [] {
      VisitAcceptsRanked(root, nodes[0], visiting, visited, rank);
      VisitAllAcceptsRanked(root, nodes[1..], visiting, Visit(root, nodes[0], visiting, visited).value, rank);
    }
  }

  ghost function PositionRank(order: seq<Json>): map<Json, nat> {
    map s | s in order :: Position(order, s)
  }

  /** The check accepts exactly the schemas whose reference and child edges can be ranked. */
  lemma AcceptsExactlyRanked(root: Json)
    requires root.Obj?
    ensures FinishingOrder(root).Some? <==> exists rank :: Ranks(root, rank)
    ensures FinishingOrder(root).Some? ==>
            Topological(root, FinishingOrder(root).value) && root in FinishingOrder(root).value
  {
    hide Successors;
    if FinishingOrder(root).Some? {
      var order := FinishingOrder(root).value;
      VisitIsTopological(root, root, {}, []);
      VisitStaysInside(root, root, {}, []);
      var rank := PositionRank(order);
      forall s | s in rank
        ensures s.Obj? && s in Subterms(root) && Resolves(root, s)
        ensures forall c | c in Successors(root, s) :: !c.Null? && (c.Obj? ==> c in rank && rank[c] < rank[s])
      {
        var i := Position(order, s);
        assert Placed(root, order[i], order[..i]);
        forall c | c in Successors(root, s) && c.Obj?
          ensures c in rank && rank[c] < rank[s]
        {
          EarlierPosition(order, c, i);
        }
      }
      assert Ranks(root, rank);
    }
    if exists rank :: Ranks(root, rank) {
      var rank :| Ranks(root, rank);
      VisitAcceptsRanked(root, root, {}, [], rank);
    }
  }

  lemma EarlierPosition(order: seq<Json>, c: Json, i: nat)
    requires i <= |order| && c in order[..i]
    ensures c in order && Position(order, c) < i
  {
    var j :| 0 <= j < i && order[..i][j] == c;
    assert order[j] == c;
    var first := Position(order, c);
    assert forall k | 0 <= k < first :: order[..first][k] == order[k];
  }

  lemma {:induction false} VisitStaysInside(root: Json, s: Json, visiting: set<Json>, visited: seq<Json>)
    requires s in Subterms(root) && visiting <= Subterms(root)
    requires forall x | x in visited :: x in Subterms(root)
    ensures var r := Visit(root, s, visiting, visited); r.Some? ==> forall x | x in r.value :: x in Subterms(root)
    decreases Subterms(root) - visiting, 1, 0
  {
    hide Subterms, Successors;
    if s.Obj? && s !in visited && s !in visiting && Resolves(root, s) {
      forall c | c in Successors(root, s) ensures c in Subterms(root) { SuccessorsAreSubterms(root, s, c); }
      VisitAllStaysInside(root, Successors(root, s), visiting + {s}, visited);
    }
  }

  lemma {:induction false} VisitAllStaysInside(root: Json, nodes: seq<Json>, visiting: set<Json>, visited: seq<Json>)
    requires visiting <= Subterms(root) && forall c | c in nodes :: c in Subterms(root)
    requires forall x | x in visited :: x in Subterms(root)
    ensures var r := VisitAll(root, nodes, visiting, visited);
            r.Some? ==> forall x | x in r.value :: x in Subterms(root)
    decreases Subterms(root) - visiting, 2, |nodes|
  {
    hide Subterms, Successors;
    if nodes != [] {
      VisitStaysInside(root, nodes[0], visiting, visited);
      var r := Visit(root, nodes[0], visiting, visited);
      if r.Some? {
        VisitAllStaysInside(root, nodes[1..], visiting, r.value);
      }
    }
  }
}
