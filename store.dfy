/** The graph database the loader talks to, as an object whose state the
    three statement shapes update in place. Each method is one statement
    run in its own transaction: on success the state becomes what module
    GraphDb says, on failure it stays as it was. */
module Store {
  import opened Wrappers
  import opened GraphDb

  class GraphStore {
    var constraints: set<Label>
    var nodes: set<Node>
    var edges: map<EdgeKey, Props>

    /** The whole database state as a value. */
    function State(): Graph
      reads this
    {
      Graph(constraints, nodes, edges)
    }

    /** CREATE CONSTRAINT IF NOT EXISTS FOR (n:L) REQUIRE n.id IS UNIQUE */
    method CreateUniqueConstraint(l: Label) returns (err: Option<StoreError>)
      modifies this
      ensures var r := CreateConstraint(old(State()), l);
        if r.Ok? then err.None? && State() == r.value
        else err == Some(r.error) && State() == old(State())
    {
      if l in constraints {
        return None;
      }
      if SharedId(nodes, l) {
        return Some(ConstraintCreationFailed(l));
      }
      constraints := constraints + {l};
      return None;
    }

    /** MERGE (n:L {id: id, p1: v1, ...}) */
    method MergeNode(l: Label, id: Option<int>, props: Props) returns (err: Option<StoreError>)
      modifies this
      ensures var r := GraphDb.MergeNode(old(State()), l, id, props);
        if r.Ok? then err.None? && State() == r.value
        else err == Some(r.error) && State() == old(State())
    {
      if id.None? || !NoNulls(props) {
        return Some(NullInMerge(l));
      }
      if PatternPresent(nodes, l, id.value, props) {
        return None;
      }
      if l in constraints && IdTaken(nodes, l, id.value) {
        return Some(ConstraintViolation(l, id.value));
      }
      nodes := nodes + {Node(l, id.value, props)};
      return None;
    }

    /** MATCH (a:A {id: fromId}) MATCH (b:B {id: toId}) MERGE (a)-[r:R]->(b)
        ON CREATE SET r += onCreate. This statement cannot fail. */
    method MergeEdge(rel: RelType, from: Label, fromId: Option<int>, to: Label, toId: Option<int>, onCreate: Props)
      modifies this
      ensures State() == GraphDb.MergeEdge(old(State()), rel, from, fromId, to, toId, onCreate)
    {
      MergeEdgeAddsMissing(State(), rel, from, fromId, to, toId, onCreate);
      var created := MatchedKeys(nodes, rel, from, fromId, to, toId) - edges.Keys;
      edges := edges + map k | k in created :: SetProps(onCreate);
    }
  }
}
