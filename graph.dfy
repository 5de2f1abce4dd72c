/** The property graph the loader writes into, and what each of the three
    Cypher statement shapes the loader issues does to it:

      CREATE CONSTRAINT IF NOT EXISTS FOR (n:L) REQUIRE n.id IS UNIQUE
      MERGE (n:L {id: .., p1: .., ...})
      MATCH (a:A {id: ..}) MATCH (b:B {id: ..}) MERGE (a)-[r:R]->(b) [ON CREATE SET r.x = .., ...]

    A statement either succeeds with a new graph or fails and leaves the
    graph as it was (each statement runs in its own transaction). */
module GraphDb {
  import opened Wrappers

  /** The node labels of the hospital ontology. */
  datatype Label = Hospital | Payer | Physician | Patient | Visit | Review

  /** The relationship types of the hospital ontology. */
  datatype RelType = At | Writes | Treats | CoveredBy | Has | Employs

  /** The labels a relationship of each type runs from and to, in the
      direction its MERGE pattern is written. */
  function Ends(rel: RelType): (Label, Label) {
    match rel
    case At => (Visit, Hospital)
    case Writes => (Visit, Review)
    case Treats => (Physician, Visit)
    case CoveredBy => (Visit, Payer)
    case Has => (Patient, Visit)
    case Employs => (Hospital, Physician)
  }

  /** A Cypher value. A float is kept as its 64-bit pattern: nothing here
      computes with it, and two floats are equal exactly when their
      patterns are. */
  datatype Value = Null | Str(s: string) | Int(i: int) | Float(bits: bv64)

  type Props = map<string, Value>

  /** A node: its label, its integer `id` and its other properties. */
  datatype Node = Node(nodeLabel: Label, id: int, props: Props)

  /** The identity of a relationship: its type and its two endpoints. */
  datatype EdgeKey = EdgeKey(rel: RelType, from: Node, to: Node)

  /** The store: the labels carrying an `id` uniqueness constraint, the
      nodes, and the relationships with their property maps. */
  datatype Graph = Graph(constraints: set<Label>, nodes: set<Node>, edges: map<EdgeKey, Props>)

  datatype StoreError =
    | NullInMerge(l: Label)                  // a MERGE pattern holds a null property value
    | ConstraintViolation(l: Label, id: int)  // the id is taken by a node the pattern does not match
    | ConstraintCreationFailed(l: Label)      // nodes already present share an id

  /** The three statement shapes, with their parameters already evaluated. */
  datatype Stmt =
    | CreateUniqueIdConstraint(l: Label)
    | MergeNodePattern(l: Label, id: Option<int>, props: Props)
    | MergeEdgePattern(rel: RelType, from: Label, fromId: Option<int>, to: Label, toId: Option<int>, onCreate: Props)

  predicate NoNulls(props: Props) {
    forall k :: k in props ==> props[k] != Null
  }

  /** Some node of label `l` has this `id`. */
  predicate IdTaken(nodes: set<Node>, l: Label, id: int) {
    exists n :: n in nodes && n.nodeLabel == l && n.id == id
  }

  /** Two different nodes of label `l` share an `id`. */
  predicate SharedId(nodes: set<Node>, l: Label) {
    exists a, b :: a in nodes && b in nodes && a != b && a.nodeLabel == l && b.nodeLabel == l && a.id == b.id
  }

  /** The uniqueness constraints hold of the data. */
  ghost predicate KeysUnique(g: Graph) {
    forall a, b :: a in g.nodes && b in g.nodes && a.nodeLabel in g.constraints && a.nodeLabel == b.nodeLabel && a.id == b.id ==> a == b
  }

  /** No stored property is null, and every relationship joins two stored nodes. */
  ghost predicate WellFormed(g: Graph) {
    && (forall n :: n in g.nodes ==> NoNulls(n.props))
    && (forall k :: k in g.edges ==> k.from in g.nodes && k.to in g.nodes && NoNulls(g.edges[k]))
  }

  ghost predicate Consistent(g: Graph) {
    KeysUnique(g) && WellFormed(g)
  }

  // ---------------------------------------------------------------------
  // CREATE CONSTRAINT IF NOT EXISTS FOR (n:L) REQUIRE n.id IS UNIQUE

  function CreateConstraint(g: Graph, l: Label): (r: Result<Graph, StoreError>)
    ensures r.Ok? ==> r.value == g.(constraints := g.constraints + {l})
    ensures r.Err? <==> l !in g.constraints && SharedId(g.nodes, l)
  {
    if l in g.constraints then Ok(g)
    else if SharedId(g.nodes, l) then Err(ConstraintCreationFailed(l))
    else Ok(g.(constraints := g.constraints + {l}))
  }

  /** Issuing the constraint again leaves the graph unchanged. */
  lemma CreateConstraintIdempotent(g: Graph, l: Label)
    requires CreateConstraint(g, l).Ok?
    ensures CreateConstraint(CreateConstraint(g, l).value, l) == CreateConstraint(g, l)
  {
  }

  /** Once the constraint exists, no two nodes of the label share an id:
      creating it checks the data already present. */
  lemma CreateConstraintHoldsOfData(g: Graph, l: Label)
    requires KeysUnique(g)
    requires CreateConstraint(g, l).Ok?
    ensures KeysUnique(CreateConstraint(g, l).value)
    ensures forall a, b :: a in g.nodes && b in g.nodes && a.nodeLabel == l == b.nodeLabel && a.id == b.id ==> a == b
  {
    var h := CreateConstraint(g, l).value;
    forall a, b | a in h.nodes && b in h.nodes && a.nodeLabel in h.constraints && a.nodeLabel == b.nodeLabel && a.id == b.id
      ensures a == b
    {
      if a.nodeLabel == l && l !in g.constraints {
        assert !SharedId(g.nodes, l);
      }
    }
  }

  // ---------------------------------------------------------------------
  // MERGE (n:L {id: .., p1: .., ...})

  /** The node a MERGE pattern creates, when it has an id. */
  function PatternNode(l: Label, id: Option<int>, props: Props): Node
    requires id.Some?
  {
    Node(l, id.value, props)
  }

  /** Node `n` matches the pattern `(:l {id: id, p1: v1, ...})`: it has the
      label, the id, and each property of the pattern with that value. It
      may have more properties than the pattern names. */
  predicate MatchesPattern(n: Node, l: Label, id: int, props: Props) {
    && n.nodeLabel == l && n.id == id
    && forall k :: k in props ==> k in n.props && n.props[k] == props[k]
  }

  /** Some stored node matches the pattern. */
  predicate PatternPresent(nodes: set<Node>, l: Label, id: int, props: Props) {
    exists n :: n in nodes && MatchesPattern(n, l, id, props)
  }

  /** MERGE of a node pattern: a stored node that matches the pattern is
      reused and nothing changes; otherwise the pattern's node is created,
      unless the label's uniqueness constraint already has a node with
      that id, which is a constraint violation. A null anywhere in the
      pattern is an error. */
  function MergeNode(g: Graph, l: Label, id: Option<int>, props: Props): (r: Result<Graph, StoreError>)
    ensures r.Ok? <==>
      && id.Some? && NoNulls(props)
      && (PatternPresent(g.nodes, l, id.value, props) || l !in g.constraints || !IdTaken(g.nodes, l, id.value))
    ensures r.Ok? ==> PatternPresent(r.value.nodes, l, id.value, props)
    ensures r.Ok? ==>
      r.value == (if PatternPresent(g.nodes, l, id.value, props) then g
                  else g.(nodes := g.nodes + {PatternNode(l, id, props)}))
  {
    if id.None? || !NoNulls(props) then Err(NullInMerge(l))
    else if PatternPresent(g.nodes, l, id.value, props) then Ok(g)
    else if l in g.constraints && IdTaken(g.nodes, l, id.value) then Err(ConstraintViolation(l, id.value))
    else
      var n := Node(l, id.value, props);
      assert MatchesPattern(n, l, id.value, props);
      Ok(g.(nodes := g.nodes + {n}))
  }

  /** MERGE of a pattern some stored node matches changes nothing;
      otherwise a MERGE that succeeds adds exactly the pattern's node and
      touches nothing else. */
  lemma MergeNodeOutcome(g: Graph, l: Label, id: int, props: Props)
    requires NoNulls(props)
    ensures PatternPresent(g.nodes, l, id, props) ==> MergeNode(g, l, Some(id), props) == Ok(g)
    ensures !PatternPresent(g.nodes, l, id, props) && MergeNode(g, l, Some(id), props).Ok? ==>
      var h := MergeNode(g, l, Some(id), props).value;
      && |h.nodes| == |g.nodes| + 1
      && h.nodes - g.nodes == {Node(l, id, props)}
      && h.edges == g.edges && h.constraints == g.constraints
  {
    if !PatternPresent(g.nodes, l, id, props) {
      var n := Node(l, id, props);
      assert MatchesPattern(n, l, id, props);
      assert n !in g.nodes;
    }
  }

  /** Issuing the same node MERGE again after it succeeded changes nothing. */
  lemma MergeNodeIdempotent(g: Graph, l: Label, id: Option<int>, props: Props)
    requires MergeNode(g, l, id, props).Ok?
    ensures MergeNode(MergeNode(g, l, id, props).value, l, id, props) == MergeNode(g, l, id, props)
  {
  }

  /** Under the constraint, a MERGE whose id is held by a node that does
      not match the pattern fails instead of adding a second node. */
  lemma MergeNodeRejectsClash(g: Graph, m: Node, props: Props)
    requires KeysUnique(g)
    requires m in g.nodes && m.nodeLabel in g.constraints
    requires NoNulls(props) && !MatchesPattern(m, m.nodeLabel, m.id, props)
    ensures MergeNode(g, m.nodeLabel, Some(m.id), props) == Err(ConstraintViolation(m.nodeLabel, m.id))
  {
    assert IdTaken(g.nodes, m.nodeLabel, m.id);
  }

  // ---------------------------------------------------------------------
  // MATCH (a:A {id: ..}) MATCH (b:B {id: ..}) MERGE (a)-[r:R]->(b) ON CREATE SET ..

  /** The nodes `MATCH (n:label {id: id})` yields; a null id matches nothing. */
  function Matching(nodes: set<Node>, l: Label, id: Option<int>): (r: set<Node>)
    ensures forall n :: n in r <==> n in nodes && n.nodeLabel == l && id == Some(n.id)
  {
    set n | n in nodes && n.nodeLabel == l && id == Some(n.id)
  }

  /** The relationships the MERGE clause stands for: one per pair of matched endpoints. */
  function MatchedKeys(nodes: set<Node>, rel: RelType, from: Label, fromId: Option<int>, to: Label, toId: Option<int>): (r: set<EdgeKey>)
    ensures forall k :: k in r <==>
      k.rel == rel && k.from in Matching(nodes, from, fromId) && k.to in Matching(nodes, to, toId)
  {
    set a, b | a in Matching(nodes, from, fromId) && b in Matching(nodes, to, toId) :: EdgeKey(rel, a, b)
  }

  /** `SET r.k = null` stores nothing; the other assignments are stored. */
  function SetProps(assignments: Props): (r: Props)
    ensures NoNulls(r)
    ensures forall k :: k in r <==> k in assignments && assignments[k] != Null
    ensures forall k :: k in r ==> r[k] == assignments[k]
  {
    map k | k in assignments && assignments[k] != Null :: assignments[k]
  }

  /** Under the label's uniqueness constraint, a MATCH by id yields at
      most one node. */
  lemma MatchingAtMostOne(g: Graph, l: Label, id: Option<int>)
    requires KeysUnique(g) && l in g.constraints
    ensures |Matching(g.nodes, l, id)| <= 1
  {
    var r := Matching(g.nodes, l, id);
    if r != {} {
      var a :| a in r;
      assert r == {a};
    }
  }

  /** The MERGE clause stands for no relationship exactly when one of the
      two MATCHes yields no node. */
  lemma MatchedKeysEmpty(nodes: set<Node>, rel: RelType, from: Label, fromId: Option<int>, to: Label, toId: Option<int>)
    ensures MatchedKeys(nodes, rel, from, fromId, to, toId) == {}
        <==> Matching(nodes, from, fromId) == {} || Matching(nodes, to, toId) == {}
  {
    if Matching(nodes, from, fromId) != {} && Matching(nodes, to, toId) != {} {
      var a :| a in Matching(nodes, from, fromId);
      var b :| b in Matching(nodes, to, toId);
      assert EdgeKey(rel, a, b) in MatchedKeys(nodes, rel, from, fromId, to, toId);
    }
  }

  /** Assignments without nulls are stored as they are, so setting what
      was stored again stores the same. */
  lemma SetPropsNullFree(assignments: Props)
    ensures NoNulls(assignments) ==> SetProps(assignments) == assignments
    ensures SetProps(SetProps(assignments)) == SetProps(assignments)
  {
  }

  /** Every matched endpoint pair that has no relationship of this type
      gains one, carrying the ON CREATE properties; relationships that
      already exist keep the properties they had. */
  function MergeEdge(g: Graph, rel: RelType, from: Label, fromId: Option<int>, to: Label, toId: Option<int>, onCreate: Props): (r: Graph)
    ensures r.nodes == g.nodes && r.constraints == g.constraints
    ensures MatchedKeys(g.nodes, rel, from, fromId, to, toId) <= r.edges.Keys
    ensures forall k :: k in g.edges ==> k in r.edges && r.edges[k] == g.edges[k]
    ensures forall k :: k in r.edges && k !in g.edges ==>
      k in MatchedKeys(g.nodes, rel, from, fromId, to, toId) && r.edges[k] == SetProps(onCreate)
  {
    var created := MatchedKeys(g.nodes, rel, from, fromId, to, toId);
    g.(edges := map k | k in g.edges.Keys + created :: if k in g.edges then g.edges[k] else SetProps(onCreate))
  }

  /** MERGE adds the matched relationships that do not exist yet, each
      with the ON CREATE SET properties, and keeps every other one. */
  lemma MergeEdgeAddsMissing(g: Graph, rel: RelType, from: Label, fromId: Option<int>, to: Label, toId: Option<int>, onCreate: Props)
    ensures MergeEdge(g, rel, from, fromId, to, toId, onCreate).edges
      == g.edges + map k | k in MatchedKeys(g.nodes, rel, from, fromId, to, toId) - g.edges.Keys :: SetProps(onCreate)
  {
    var r := MergeEdge(g, rel, from, fromId, to, toId, onCreate).edges;
    var created := MatchedKeys(g.nodes, rel, from, fromId, to, toId) - g.edges.Keys;
    var u := g.edges + map k | k in created :: SetProps(onCreate);
    assert r.Keys == u.Keys;
    forall k | k in r ensures r[k] == u[k] {
      if k in g.edges {
        assert u[k] == g.edges[k];
      }
    }
  }

  /** A MERGE whose matched relationships all exist already changes nothing. */
  lemma MergeEdgeNoopWhenPresent(g: Graph, rel: RelType, from: Label, fromId: Option<int>, to: Label, toId: Option<int>, onCreate: Props)
    requires MatchedKeys(g.nodes, rel, from, fromId, to, toId) <= g.edges.Keys
    ensures MergeEdge(g, rel, from, fromId, to, toId, onCreate) == g
  {
    var r := MergeEdge(g, rel, from, fromId, to, toId, onCreate);
    assert r.edges == g.edges;
  }

  /** Merging the same relationship row a second time adds nothing. */
  lemma MergeEdgeIdempotent(g: Graph, rel: RelType, from: Label, fromId: Option<int>, to: Label, toId: Option<int>, onCreate: Props)
    ensures var h := MergeEdge(g, rel, from, fromId, to, toId, onCreate);
      MergeEdge(h, rel, from, fromId, to, toId, onCreate) == h
  {
    var h := MergeEdge(g, rel, from, fromId, to, toId, onCreate);
    MergeEdgeNoopWhenPresent(h, rel, from, fromId, to, toId, onCreate);
  }

  /** When no node of the required label has the endpoint id, MATCH yields
      no rows: nothing is created and no error is raised. */
  lemma MergeEdgeMissingEndpoint(g: Graph, rel: RelType, from: Label, fromId: Option<int>, to: Label, toId: Option<int>, onCreate: Props)
    requires !(exists n :: n in g.nodes && n.nodeLabel == from && fromId == Some(n.id))
          || !(exists n :: n in g.nodes && n.nodeLabel == to && toId == Some(n.id))
    ensures MergeEdge(g, rel, from, fromId, to, toId, onCreate) == g
  {
    assert MatchedKeys(g.nodes, rel, from, fromId, to, toId) == {};
    MergeEdgeNoopWhenPresent(g, rel, from, fromId, to, toId, onCreate);
  }

  /** ON CREATE SET is create-only: a relationship that already exists
      keeps the properties it was created with. */
  lemma MergeEdgeKeepsFirstProps(g: Graph, k: EdgeKey, rel: RelType, from: Label, fromId: Option<int>, to: Label, toId: Option<int>, onCreate: Props)
    requires k in g.edges
    ensures MergeEdge(g, rel, from, fromId, to, toId, onCreate).edges[k] == g.edges[k]
  {
  }

  /** With both endpoint labels under the uniqueness constraint, one MERGE
      creates at most one relationship. */
  lemma MergeEdgeCreatesAtMostOne(g: Graph, rel: RelType, from: Label, fromId: Option<int>, to: Label, toId: Option<int>, onCreate: Props)
    requires KeysUnique(g) && from in g.constraints && to in g.constraints
    ensures var h := MergeEdge(g, rel, from, fromId, to, toId, onCreate);
      forall k1, k2 :: k1 in h.edges && k2 in h.edges && k1 !in g.edges && k2 !in g.edges ==> k1 == k2
  {
  }

  /** Under the constraints on both end labels, a consistent graph has at
      most one relationship of a type between two given (label, id) pairs. */
  lemma EdgeUniquePerEndpointIds(g: Graph, k1: EdgeKey, k2: EdgeKey)
    requires Consistent(g)
    requires k1 in g.edges && k2 in g.edges
    requires k1.from.nodeLabel in g.constraints && k1.to.nodeLabel in g.constraints
    requires k1.rel == k2.rel
    requires k1.from.nodeLabel == k2.from.nodeLabel && k1.from.id == k2.from.id
    requires k1.to.nodeLabel == k2.to.nodeLabel && k1.to.id == k2.to.id
    ensures k1 == k2
  {
  }

  // ---------------------------------------------------------------------
  // Statements

  /** One statement against the store. A relationship statement never
      fails; a failing statement names the label it was about, and a node
      MERGE reports a null exactly when its pattern holds one. */
  function Apply(g: Graph, s: Stmt): (r: Result<Graph, StoreError>)
    ensures s.MergeEdgePattern? ==> r.Ok?
    ensures r.Err? && s.CreateUniqueIdConstraint? ==> r.error == ConstraintCreationFailed(s.l)
    ensures r.Err? && s.MergeNodePattern? ==>
      && (r.error.NullInMerge? || r.error.ConstraintViolation?) && r.error.l == s.l
      && (r.error.NullInMerge? <==> s.id.None? || !NoNulls(s.props))
  {
    match s
    case CreateUniqueIdConstraint(l) => CreateConstraint(g, l)
    case MergeNodePattern(l, id, props) => MergeNode(g, l, id, props)
    case MergeEdgePattern(rel, from, fromId, to, toId, onCreate) => Ok(MergeEdge(g, rel, from, fromId, to, toId, onCreate))
  }

  /** `h` holds everything `g` holds: constraints, nodes, and relationships
      with unchanged properties. */
  ghost predicate Grows(g: Graph, h: Graph) {
    && g.constraints <= h.constraints
    && g.nodes <= h.nodes
    && forall k :: k in g.edges ==> k in h.edges && h.edges[k] == g.edges[k]
  }

  lemma GrowsTransitive(a: Graph, b: Graph, c: Graph)
    requires Grows(a, b) && Grows(b, c)
    ensures Grows(a, c)
  {
  }

  /** No statement removes or alters anything: the store only grows. */
  lemma ApplyGrows(g: Graph, s: Stmt)
    requires Apply(g, s).Ok?
    ensures Grows(g, Apply(g, s).value)
    ensures s.MergeEdgePattern? ==> Apply(g, s).value.nodes == g.nodes
  {
  }

  /** Every statement keeps the constraints true of the data and keeps the
      graph well formed. */
  lemma ApplyPreservesConsistency(g: Graph, s: Stmt)
    requires Consistent(g)
    requires Apply(g, s).Ok?
    ensures Consistent(Apply(g, s).value)
  {
    var h := Apply(g, s).value;
    match s
    case CreateUniqueIdConstraint(l) =>
      CreateConstraintHoldsOfData(g, l);
    case MergeNodePattern(l, id, props) =>
      forall a, b | a in h.nodes && b in h.nodes && a.nodeLabel in h.constraints && a.nodeLabel == b.nodeLabel && a.id == b.id
        ensures a == b
      {
        if a != b && (a !in g.nodes || b !in g.nodes) {
          assert IdTaken(g.nodes, l, id.value);
        }
      }
    case MergeEdgePattern(rel, from, fromId, to, toId, onCreate) =>
  }
}
