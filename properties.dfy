/** What the load promises, stated about the statement list one call of
    the loader issues (module Load). Module Loader proves that its methods
    run exactly that list, and the retry loop exactly `RetryFrom`, so each
    lemma here is a statement about those methods too. */
module LoadProperties {
  import opened Wrappers
  import opened GraphDb
  import opened Rows
  import opened Load
  import opened Replay

  // ---------------------------------------------------------------------
  // The order of the statements

  datatype Kind = ConstraintKind | NodeKind | EdgeKind | Raises

  function KindOf(s: Step): (k: Kind)
    ensures k == EdgeKind <==> IsEdgeStep(s)
    ensures k == Raises <==> s.Err?
  {
    match s
    case Err(_) => Raises
    case Ok(CreateUniqueIdConstraint(_)) => ConstraintKind
    case Ok(MergeNodePattern(_, _, _)) => NodeKind
    case Ok(MergeEdgePattern(_, _, _, _, _, _)) => EdgeKind
  }

  /** A relationship statement runs from and to the labels its type names. */
  predicate Directed(s: Step) {
    IsEdgeStep(s) ==> (s.value.from, s.value.to) == Ends(s.value.rel)
  }

  /** Positions `lo` up to `hi` hold directed steps of the given kinds. */
  predicate KindsBetween(s: seq<Step>, lo: nat, hi: nat, ks: set<Kind>)
    requires lo <= hi <= |s|
  {
    forall i :: lo <= i < hi ==> KindOf(s[i]) in ks && Directed(s[i])
  }

  lemma AppendKinds(a: seq<Step>, b: seq<Step>, lo: nat, ks: set<Kind>)
    requires lo <= |a|
    requires KindsBetween(a, lo, |a|, ks) && KindsBetween(b, 0, |b|, ks)
    ensures KindsBetween(a + b, lo, |a + b|, ks)
  {
    forall i | lo <= i < |a + b| ensures KindOf((a + b)[i]) in ks && Directed((a + b)[i]) {
      if i >= |a| {
        assert (a + b)[i] == b[i - |a|];
      }
    }
  }

  lemma NodeStepsKinds(conv: Conversions, shape: NodeShape, rows: seq<Row>)
    ensures KindsBetween(NodeSteps(conv, shape, rows), 0, |rows|, {NodeKind, Raises})
  {
  }

  /** A relationship load runs from and to the labels its type names. */
  predicate ShapeDirected(shape: EdgeShape) {
    (shape.from, shape.to) == Ends(shape.rel)
  }

  lemma EdgeStepsKinds(conv: Conversions, shape: EdgeShape, rows: seq<Row>)
    requires ShapeDirected(shape)
    ensures KindsBetween(EdgeSteps(conv, shape, rows), 0, |rows|, {EdgeKind, Raises})
  {
  }

  /** What the loader's order promises of a statement list: one
      constraint per label of NODES, in that order; then, up to `nb`, node
      statements only; after `nb`, relationship statements only. Steps that
      raise may sit anywhere after the constraints. */
  predicate Layout(p: seq<Step>, nb: nat) {
    && |NODES| <= nb <= |p|
    && (forall i :: 0 <= i < |NODES| ==> p[i] == Ok(CreateUniqueIdConstraint(NODES[i])))
    && KindsBetween(p, |NODES|, nb, {NodeKind, Raises})
    && KindsBetween(p, nb, |p|, {EdgeKind, Raises})
  }

  /** A list in that order issues no node or constraint statement after a
      relationship statement. */
  lemma LayoutPhaseOrdered(p: seq<Step>, nb: nat)
    requires Layout(p, nb)
    ensures PhaseOrdered(p)
  {
    assert forall i :: 0 <= i < nb ==> !IsEdgeStep(p[i]);
  }

  /** Six loads appended to a list `b`: the list keeps `b` as its start,
      and the kinds the loads hold continue past it. */
  lemma SixLoadsLayout(p: seq<Step>, b: seq<Step>, lo: nat, ks: set<Kind>,
                       e1: seq<Step>, e2: seq<Step>, e3: seq<Step>, e4: seq<Step>, e5: seq<Step>, e6: seq<Step>)
    requires p == b + e1 + e2 + e3 + e4 + e5 + e6
    requires lo <= |b| && KindsBetween(b, lo, |b|, ks)
    requires KindsBetween(e1, 0, |e1|, ks) && KindsBetween(e2, 0, |e2|, ks) && KindsBetween(e3, 0, |e3|, ks)
    requires KindsBetween(e4, 0, |e4|, ks) && KindsBetween(e5, 0, |e5|, ks) && KindsBetween(e6, 0, |e6|, ks)
    ensures |p| == |b| + |e1| + |e2| + |e3| + |e4| + |e5| + |e6|
    ensures forall i :: 0 <= i < |b| ==> p[i] == b[i]
    ensures KindsBetween(p, lo, |p|, ks)
  {
    AppendKinds(b, e1, lo, ks);
    AppendKinds(b + e1, e2, lo, ks);
    AppendKinds(b + e1 + e2, e3, lo, ks);
    AppendKinds(b + e1 + e2 + e3, e4, lo, ks);
    AppendKinds(b + e1 + e2 + e3 + e4, e5, lo, ks);
    AppendKinds(b + e1 + e2 + e3 + e4 + e5, e6, lo, ks);
  }

  /** Six node loads after the constraints. */
  lemma NodePhaseLayout(conv: Conversions, c: seq<Step>, b: seq<Step>,
                        s1: NodeShape, s2: NodeShape, s3: NodeShape, s4: NodeShape, s5: NodeShape, s6: NodeShape,
                        r1: seq<Row>, r2: seq<Row>, r3: seq<Row>, r4: seq<Row>, r5: seq<Row>, r6: seq<Row>)
    requires c == ConstraintSteps()
    requires b == c + NodeSteps(conv, s1, r1) + NodeSteps(conv, s2, r2) + NodeSteps(conv, s3, r3)
                  + NodeSteps(conv, s4, r4) + NodeSteps(conv, s5, r5) + NodeSteps(conv, s6, r6)
    ensures |b| == |NODES| + |r1| + |r2| + |r3| + |r4| + |r5| + |r6|
    ensures forall i :: 0 <= i < |NODES| ==> b[i] == Ok(CreateUniqueIdConstraint(NODES[i]))
    ensures KindsBetween(b, |NODES|, |b|, {NodeKind, Raises})
  {
    NodeStepsKinds(conv, s1, r1);
    NodeStepsKinds(conv, s2, r2);
    NodeStepsKinds(conv, s3, r3);
    NodeStepsKinds(conv, s4, r4);
    NodeStepsKinds(conv, s5, r5);
    NodeStepsKinds(conv, s6, r6);
    SixLoadsLayout(b, c, |NODES|, {NodeKind, Raises},
                   NodeSteps(conv, s1, r1), NodeSteps(conv, s2, r2), NodeSteps(conv, s3, r3),
                   NodeSteps(conv, s4, r4), NodeSteps(conv, s5, r5), NodeSteps(conv, s6, r6));
  }

  /** Six relationship loads after the node loads, each running in the
      direction its type is written in. */
  lemma EdgePhaseLayout(conv: Conversions, b: seq<Step>, p: seq<Step>,
                        s1: EdgeShape, s2: EdgeShape, s3: EdgeShape, s4: EdgeShape, s5: EdgeShape, s6: EdgeShape,
                        r1: seq<Row>, r2: seq<Row>, r3: seq<Row>, r4: seq<Row>, r5: seq<Row>, r6: seq<Row>)
    requires p == b + EdgeSteps(conv, s1, r1) + EdgeSteps(conv, s2, r2) + EdgeSteps(conv, s3, r3)
                  + EdgeSteps(conv, s4, r4) + EdgeSteps(conv, s5, r5) + EdgeSteps(conv, s6, r6)
    requires ShapeDirected(s1) && ShapeDirected(s2) && ShapeDirected(s3)
    requires ShapeDirected(s4) && ShapeDirected(s5) && ShapeDirected(s6)
    ensures |p| == |b| + |r1| + |r2| + |r3| + |r4| + |r5| + |r6|
    ensures forall i :: 0 <= i < |b| ==> p[i] == b[i]
    ensures KindsBetween(p, |b|, |p|, {EdgeKind, Raises})
  {
    EdgeStepsKinds(conv, s1, r1);
    EdgeStepsKinds(conv, s2, r2);
    EdgeStepsKinds(conv, s3, r3);
    EdgeStepsKinds(conv, s4, r4);
    EdgeStepsKinds(conv, s5, r5);
    EdgeStepsKinds(conv, s6, r6);
    SixLoadsLayout(p, b, |b|, {EdgeKind, Raises},
                   EdgeSteps(conv, s1, r1), EdgeSteps(conv, s2, r2), EdgeSteps(conv, s3, r3),
                   EdgeSteps(conv, s4, r4), EdgeSteps(conv, s5, r5), EdgeSteps(conv, s6, r6));
  }

  /** The node part and the relationship part together. */
  lemma JoinLayout(b: seq<Step>, p: seq<Step>)
    requires |NODES| <= |b| <= |p|
    requires forall i :: 0 <= i < |NODES| ==> b[i] == Ok(CreateUniqueIdConstraint(NODES[i]))
    requires KindsBetween(b, |NODES|, |b|, {NodeKind, Raises})
    requires forall i :: 0 <= i < |b| ==> p[i] == b[i]
    requires KindsBetween(p, |b|, |p|, {EdgeKind, Raises})
    ensures Layout(p, |b|)
  {
  }

  /** One call of the loader: the constraints first, one per label, then
      the six node loads, then the six relationship loads, each running in
      the direction its type is written in. */
  lemma ProgramLayout(conv: Conversions, csvs: Csvs)
    ensures |BeforeEdges(conv, csvs)| == |NODES| + |csvs.hospitals| + |csvs.payers| + |csvs.physicians|
                                         + |csvs.patients| + |csvs.visits| + |csvs.reviews|
    ensures |Program(conv, csvs)| == |BeforeEdges(conv, csvs)| + 5 * |csvs.visits| + |csvs.reviews|
    ensures Layout(Program(conv, csvs), |BeforeEdges(conv, csvs)|)
  {
    var b, p := BeforeEdges(conv, csvs), Program(conv, csvs);
    NodePhaseLayout(conv, ConstraintSteps(), b, HOSPITAL_NODES, PAYER_NODES, PHYSICIAN_NODES, PATIENT_NODES, VISIT_NODES, REVIEW_NODES,
                    csvs.hospitals, csvs.payers, csvs.physicians, csvs.patients, csvs.visits, csvs.reviews);
    EdgePhaseLayout(conv, b, p, AT_EDGES, WRITES_EDGES, TREATS_EDGES, COVERED_BY_EDGES, HAS_EDGES, EMPLOYS_EDGES,
                    csvs.visits, csvs.reviews, csvs.visits, csvs.visits, csvs.visits, csvs.visits);
    JoinLayout(b, p);
  }

  /** No node or constraint statement of the call follows a relationship statement. */
  lemma ProgramPhaseOrdered(conv: Conversions, csvs: Csvs)
    ensures PhaseOrdered(Program(conv, csvs))
  {
    ProgramLayout(conv, csvs);
    LayoutPhaseOrdered(Program(conv, csvs), |BeforeEdges(conv, csvs)|);
  }

  /** Every relationship statement of the call is directed. */
  lemma ProgramDirected(conv: Conversions, csvs: Csvs)
    ensures forall i :: 0 <= i < |Program(conv, csvs)| ==> Directed(Program(conv, csvs)[i])
  {
    ProgramLayout(conv, csvs);
  }

  // ---------------------------------------------------------------------
  // What a load that goes through leaves behind

  /** From the first relationship statement to the end of a prefix that
      went through, the nodes stay as they were. */
  lemma {:induction false} NodesFixedAfter(g: Graph, p: seq<Step>, lo: nat, k: nat)
    requires lo <= k <= |p|
    requires KindsBetween(p, lo, |p|, {EdgeKind, Raises})
    requires Exec(g, p[..k], 0, None).Done?
    ensures PrefixState(g, p, lo).nodes == PrefixState(g, p, k).nodes
    decreases k
  {
    if lo < k {
      AppliedIn(g, p, k - 1, k);
      ApplyGrows(PrefixState(g, p, k - 1), p[k - 1].value);
      DonePrefix(g, p[..k], 0, None, k - 1);
      assert p[..k][..k - 1] == p[..k - 1];
      NodesFixedAfter(g, p, lo, k - 1);
    }
  }

  /** When only relationship statements (or raising steps) follow step
      `b` of a list that goes through, the nodes are final from step `b` on. */
  lemma NodesFinalFrom(g: Graph, p: seq<Step>, b: nat)
    requires b <= |p|
    requires KindsBetween(p, b, |p|, {EdgeKind, Raises})
    requires Exec(g, p, 0, None).Done?
    ensures forall i :: b <= i <= |p| ==> PrefixState(g, p, i).nodes == Exec(g, p, 0, None).graph.nodes
  {
    assert p[..|p|] == p;
    forall i | b <= i <= |p| ensures PrefixState(g, p, i).nodes == Exec(g, p, 0, None).graph.nodes {
      NodesFixedAfter(g, p, i, |p|);
    }
  }

  /** In a load that goes through, every relationship statement matches
      its endpoints against all the nodes the load leaves: the node files
      are all loaded before the first relationship statement. */
  lemma EdgesSeeAllNodes(g: Graph, conv: Conversions, csvs: Csvs, dropsAt: Option<nat>)
    requires Exec(g, Program(conv, csvs), 0, dropsAt).Done?
    ensures var p, b := Program(conv, csvs), |BeforeEdges(conv, csvs)|;
      b <= |p| &&
      forall i :: b <= i <= |p| ==> PrefixState(g, p, i).nodes == Exec(g, p, 0, dropsAt).graph.nodes
  {
    var p, b := Program(conv, csvs), |BeforeEdges(conv, csvs)|;
    ProgramLayout(conv, csvs);
    DoneIgnoresDrop(g, p, 0, dropsAt);
    NodesFinalFrom(g, p, b);
  }

  /** A list of statements that starts with one CREATE CONSTRAINT per
      label and goes through leaves every label constrained. */
  lemma ConstraintsFirstHold(g: Graph, p: seq<Step>)
    requires |NODES| <= |p|
    requires forall i :: 0 <= i < |NODES| ==> p[i] == Ok(CreateUniqueIdConstraint(NODES[i]))
    requires Exec(g, p, 0, None).Done?
    ensures forall l: Label :: l in Exec(g, p, 0, None).graph.constraints
  {
    assert p[..|p|] == p;
    var h := Exec(g, p, 0, None).graph;
    assert h == PrefixState(g, p, |p|);
    forall i | 0 <= i < |NODES| ensures NODES[i] in h.constraints {
      AppliedIn(g, p, i, |p|);
      assert NODES[i] in PrefixState(g, p, i + 1).constraints;
    }
    NodesCoverLabels();
    forall l: Label ensures l in h.constraints {
      assert l in NODES;
      var i :| 0 <= i < |NODES| && NODES[i] == l;
    }
  }

  /** A load that goes through leaves every label under its uniqueness
      constraint. */
  lemma LoadConstrainsAllLabels(g: Graph, conv: Conversions, csvs: Csvs, dropsAt: Option<nat>)
    requires Exec(g, Program(conv, csvs), 0, dropsAt).Done?
    ensures forall l: Label :: l in Exec(g, Program(conv, csvs), 0, dropsAt).graph.constraints
  {
    var p := Program(conv, csvs);
    ProgramLayout(conv, csvs);
    DoneIgnoresDrop(g, p, 0, dropsAt);
    ConstraintsFirstHold(g, p);
  }

  /** Statements that go through keep the store consistent; those that
      fail change nothing. */
  lemma {:induction false} ExecPreservesConsistency(g: Graph, steps: seq<Step>, base: nat, dropsAt: Option<nat>)
    requires Consistent(g)
    ensures Consistent(Exec(g, steps, base, dropsAt).graph)
    decreases |steps|
  {
    if steps != [] {
      var n := |steps| - 1;
      ExecPreservesConsistency(g, steps[..n], base, dropsAt);
      var h := Exec(g, steps[..n], base, dropsAt).graph;
      if steps[n].Ok? && Apply(h, steps[n].value).Ok? {
        ApplyPreservesConsistency(h, steps[n].value);
      }
    }
  }

  /** After a load that goes through, from a consistent store such as an
      empty one: no two nodes of a label share an id, and two
      relationships of one type between the same (label, id) pairs are
      the same relationship. */
  lemma LoadedKeysUnique(g: Graph, conv: Conversions, csvs: Csvs, dropsAt: Option<nat>)
    requires Consistent(g)
    requires Exec(g, Program(conv, csvs), 0, dropsAt).Done?
    ensures var h := Exec(g, Program(conv, csvs), 0, dropsAt).graph;
      && Consistent(h)
      && (forall a, b :: a in h.nodes && b in h.nodes && a.nodeLabel == b.nodeLabel && a.id == b.id ==> a == b)
      && (forall k1, k2 :: k1 in h.edges && k2 in h.edges && k1.rel == k2.rel
            && k1.from.nodeLabel == k2.from.nodeLabel && k1.from.id == k2.from.id
            && k1.to.nodeLabel == k2.to.nodeLabel && k1.to.id == k2.to.id
            ==> k1 == k2)
  {
    var h := Exec(g, Program(conv, csvs), 0, dropsAt).graph;
    ExecPreservesConsistency(g, Program(conv, csvs), 0, dropsAt);
    LoadConstrainsAllLabels(g, conv, csvs, dropsAt);
    forall k1, k2 | k1 in h.edges && k2 in h.edges && k1.rel == k2.rel
            && k1.from.nodeLabel == k2.from.nodeLabel && k1.from.id == k2.from.id
            && k1.to.nodeLabel == k2.to.nodeLabel && k1.to.id == k2.to.id
      ensures k1 == k2
    {
      EdgeUniquePerEndpointIds(h, k1, k2);
    }
  }

  /** Every stored relationship runs from and to the labels its type names. */
  ghost predicate GraphDirected(g: Graph) {
    forall k :: k in g.edges ==> (k.from.nodeLabel, k.to.nodeLabel) == Ends(k.rel)
  }

  lemma {:induction false} ExecKeepsDirected(g: Graph, steps: seq<Step>, base: nat, dropsAt: Option<nat>)
    requires GraphDirected(g)
    requires forall i :: 0 <= i < |steps| ==> Directed(steps[i])
    ensures GraphDirected(Exec(g, steps, base, dropsAt).graph)
    decreases |steps|
  {
    if steps != [] {
      var n := |steps| - 1;
      ExecKeepsDirected(g, steps[..n], base, dropsAt);
      var h := Exec(g, steps[..n], base, dropsAt).graph;
      if steps[n].Ok? && steps[n].value.MergeEdgePattern? {
        assert Directed(steps[n]);
      }
    }
  }

  /** The load, whether it goes through or not, stores relationships only
      in the directions the statements are written in. */
  lemma LoadedEdgesDirected(g: Graph, conv: Conversions, csvs: Csvs, dropsAt: Option<nat>)
    requires GraphDirected(g)
    ensures GraphDirected(Exec(g, Program(conv, csvs), 0, dropsAt).graph)
  {
    ProgramDirected(conv, csvs);
    ExecKeepsDirected(g, Program(conv, csvs), 0, dropsAt);
  }

  // ---------------------------------------------------------------------
  // Running the load again, and the retry decorator

  lemma StartIsPrefix(g: Graph, prog: seq<Step>)
    ensures Exec(g, prog[..0], 0, None) == Done(g)
    ensures PrefixState(g, prog, 0) == g
  {
    assert prog[..0] == [];
  }

  /** Loading unchanged files again after a load that went through
      changes nothing. */
  lemma LoadIdempotent(g: Graph, conv: Conversions, csvs: Csvs)
    requires Exec(g, Program(conv, csvs), 0, None).Done?
    ensures var h := Exec(g, Program(conv, csvs), 0, None).graph;
      Exec(h, Program(conv, csvs), 0, None) == Done(h)
  {
    ProgramPhaseOrdered(conv, csvs);
    RunIdempotent(g, Program(conv, csvs));
  }

  /** A load that raised part-way, for whatever reason, followed by a load
      without interruption, ends exactly as one load without interruption. */
  lemma RerunAfterInterruption(g: Graph, conv: Conversions, csvs: Csvs, dropsAt: Option<nat>)
    requires Exec(g, Program(conv, csvs), 0, dropsAt).Failed?
    ensures Exec(Exec(g, Program(conv, csvs), 0, dropsAt).graph, Program(conv, csvs), 0, None)
         == Exec(g, Program(conv, csvs), 0, None)
  {
    ProgramPhaseOrdered(conv, csvs);
    InterruptedRunConverges(g, Program(conv, csvs), dropsAt);
  }

  /** However the connection behaves in the hundred attempts, a retried
      load that ends well leaves exactly what one uninterrupted load
      leaves. */
  lemma RetryEndsAsOneRun(g: Graph, conv: Conversions, csvs: Csvs, drops: seq<Option<nat>>)
    ensures var r := RetryFrom(g, Program(conv, csvs), drops, 0);
      r.0.Done? ==> r.0 == Exec(g, Program(conv, csvs), 0, None)
  {
    ProgramPhaseOrdered(conv, csvs);
    StartIsPrefix(g, Program(conv, csvs));
    RetryFromPrefix(g, Program(conv, csvs), drops, 0, 0, 0);
  }

  /** When an uninterrupted load would go through, the retried load goes
      through by the first attempt `f` whose connection stays up. */
  lemma RetrySucceedsByCleanAttempt(g: Graph, conv: Conversions, csvs: Csvs, drops: seq<Option<nat>>, f: nat)
    requires Exec(g, Program(conv, csvs), 0, None).Done?
    requires f < TRIES && AttemptDrop(drops, f) == None
    ensures RetryFrom(g, Program(conv, csvs), drops, 0).0 == Exec(g, Program(conv, csvs), 0, None)
    ensures RetryFrom(g, Program(conv, csvs), drops, 0).1 <= f + 1
  {
    ProgramPhaseOrdered(conv, csvs);
    StartIsPrefix(g, Program(conv, csvs));
    RetryFromPrefix(g, Program(conv, csvs), drops, 0, 0, f);
  }

  /** When an uninterrupted load would raise (a missing column, a null id,
      a clashing id), retrying does not help: all hundred attempts are
      made and the last one raises; undisturbed, it raises exactly what
      the uninterrupted load raises, from the same store. */
  lemma RetryGivesUp(g: Graph, conv: Conversions, csvs: Csvs, drops: seq<Option<nat>>)
    requires Exec(g, Program(conv, csvs), 0, None).Failed?
    ensures RetryFrom(g, Program(conv, csvs), drops, 0).0.Failed?
    ensures RetryFrom(g, Program(conv, csvs), drops, 0).1 == TRIES
    ensures AttemptDrop(drops, TRIES - 1) == None ==>
      RetryFrom(g, Program(conv, csvs), drops, 0).0 == Exec(g, Program(conv, csvs), 0, None)
  {
    ProgramPhaseOrdered(conv, csvs);
    StartIsPrefix(g, Program(conv, csvs));
    RetryFromPrefix(g, Program(conv, csvs), drops, 0, 0, 0);
  }

  // ---------------------------------------------------------------------
  // From a record to a statement

  /** The column a keyword argument reads. */
  function ColumnFor(cols: seq<Column>, param: string): (c: string)
    requires param in ParamNames(cols)
    ensures exists i :: 0 <= i < |cols| && cols[i].param == param && cols[i].column == c
  {
    assert cols == [cols[0]] + cols[1..];
    if cols[0].param == param then cols[0].column
    else
      assert param in ParamNames(cols[1..]);
      var c := ColumnFor(cols[1..], param);
      assert exists i :: 0 <= i < |cols[1..]| && cols[1..][i].param == param && cols[1..][i].column == c;
      c
  }

  /** A parameter holds the text of the column it is read from. */
  lemma {:induction false} ExtractReads(row: Row, cols: seq<Column>, param: string)
    requires Extract(row, cols).Ok?
    requires param in ParamNames(cols)
    ensures ColumnFor(cols, param) in row
    ensures Extract(row, cols).value[param] == row[ColumnFor(cols, param)]
    decreases |cols|
  {
    assert cols == [cols[0]] + cols[1..];
    if cols[0].param != param {
      assert param in ParamNames(cols[1..]);
      ExtractReads(row, cols[1..], param);
    }
  }

  /** The statement a node load issues for a record: KeyError exactly when
      the record lacks one of the load's columns; otherwise a MERGE of a
      node of the load's label, whose id is `toInteger` of the id column
      and whose properties are the load's bindings, each read from its
      column. A node load never names a parameter it does not pass. */
  lemma NodeStepMeaning(conv: Conversions, shape: NodeShape, row: Row)
    requires NodeShapeOk(shape)
    ensures var s := NodeStep(conv, shape, row);
      && (s.Ok? <==> forall i :: 0 <= i < |shape.columns| ==> shape.columns[i].column in row)
      && (s.Err? ==> s.error.MissingColumn? && s.error.column !in row)
      && (s.Ok? ==>
            && s.value.MergeNodePattern? && s.value.l == shape.nodeLabel
            && s.value.id == conv.toInteger(row[ColumnFor(shape.columns, "id")])
            && s.value.props.Keys == PropertyNames(shape.props)
            && forall j :: 0 <= j < |shape.props| ==>
                 s.value.props[shape.props[j].property]
                 == Coerce(conv, shape.props[j].coercion, row[ColumnFor(shape.columns, shape.props[j].param)]))
  {
    var cols := shape.columns;
    match Extract(row, cols)
    case Err(c) =>
    case Ok(p) =>
      ExtractReads(row, cols, "id");
      forall j | 0 <= j < |shape.props|
        ensures ColumnFor(cols, shape.props[j].param) in row
        ensures p[shape.props[j].param] == row[ColumnFor(cols, shape.props[j].param)]
      {
        ExtractReads(row, cols, shape.props[j].param);
      }
  }

  /** The statement a relationship load issues for a record: KeyError
      exactly when the record lacks one of the load's columns; otherwise a
      MERGE between the node of the first label whose id is `toInteger` of
      its column and the node of the second, in that direction, with the
      ON CREATE SET properties each read from its column. */
  lemma EdgeStepMeaning(conv: Conversions, shape: EdgeShape, row: Row)
    requires EdgeShapeOk(shape)
    ensures var s := EdgeStep(conv, shape, row);
      && (s.Ok? <==> forall i :: 0 <= i < |shape.columns| ==> shape.columns[i].column in row)
      && (s.Err? ==> s.error.MissingColumn? && s.error.column !in row)
      && (s.Ok? ==>
            && s.value.MergeEdgePattern? && s.value.rel == shape.rel
            && s.value.from == shape.from && s.value.to == shape.to
            && s.value.fromId == conv.toInteger(row[ColumnFor(shape.columns, shape.fromParam)])
            && s.value.toId == conv.toInteger(row[ColumnFor(shape.columns, shape.toParam)])
            && s.value.onCreate.Keys == PropertyNames(shape.onCreate)
            && forall j :: 0 <= j < |shape.onCreate| ==>
                 s.value.onCreate[shape.onCreate[j].property]
                 == Coerce(conv, shape.onCreate[j].coercion, row[ColumnFor(shape.columns, shape.onCreate[j].param)]))
  {
    var cols := shape.columns;
    match Extract(row, cols)
    case Err(c) =>
    case Ok(p) =>
      ExtractReads(row, cols, shape.fromParam);
      ExtractReads(row, cols, shape.toParam);
      forall j | 0 <= j < |shape.onCreate|
        ensures ColumnFor(cols, shape.onCreate[j].param) in row
        ensures p[shape.onCreate[j].param] == row[ColumnFor(cols, shape.onCreate[j].param)]
      {
        ExtractReads(row, cols, shape.onCreate[j].param);
      }
  }

  /** With distinct parameter names, a column's parameter is read from
      that column. */
  lemma ColumnForAt(cols: seq<Column>, i: int)
    requires DistinctParams(cols) && 0 <= i < |cols|
    ensures cols[i].param in ParamNames(cols)
    ensures ColumnFor(cols, cols[i].param) == cols[i].column
  {
    assert cols[i] in cols;
    var c := ColumnFor(cols, cols[i].param);
    var k :| 0 <= k < |cols| && cols[k].param == cols[i].param && cols[k].column == c;
    assert k == i;
  }

  /** Where a property of a pattern or an ON CREATE SET comes from: the
      property, its coercion, and the CSV column its parameter is read from. */
  datatype Source = Source(property: string, coercion: Coercion, column: string)

  /** The bindings of a load, each traced back through its parameter to a column. */
  function Sources(cols: seq<Column>, bs: seq<Binding>): (r: seq<Source>)
    requires BindsFrom(bs, ParamNames(cols))
    ensures |r| == |bs|
  {
    seq(|bs|, j requires 0 <= j < |bs| => Source(bs[j].property, bs[j].coercion, ColumnFor(cols, bs[j].param)))
  }

  /** With distinct parameter names, the bindings trace to `expected`
      when binding `j` passes the parameter of column `j + skip` and
      `expected[j]` names that column. */
  lemma SourcesThrough(cols: seq<Column>, bs: seq<Binding>, skip: nat, expected: seq<Source>)
    requires DistinctParams(cols) && BindsFrom(bs, ParamNames(cols)) && |bs| == |expected|
    requires |bs| + skip <= |cols|
    requires forall j :: 0 <= j < |bs| ==> bs[j].param == cols[j + skip].param
    requires forall j :: 0 <= j < |bs| ==>
      expected[j] == Source(bs[j].property, bs[j].coercion, cols[j + skip].column)
    ensures Sources(cols, bs) == expected
  {
    forall j | 0 <= j < |bs|
      ensures Sources(cols, bs)[j] == expected[j]
    {
      ColumnForAt(cols, j + skip);
    }
  }

  /** The Hospital load: the id from hospital_id; `name` from hospital_name and
      `state_name` from hospital_state, as they are. */
  lemma HospitalMapping()
    ensures NodeShapeOk(HOSPITAL_NODES)
    ensures ColumnFor(HOSPITAL_NODES.columns, "id") == "hospital_id"
    ensures Sources(HOSPITAL_NODES.columns, HOSPITAL_NODES.props) ==
      [Source("name", AsIs, "hospital_name"),
        Source("state_name", AsIs, "hospital_state")]
  {
    HospitalShapeOk();
    ColumnForAt(HOSPITAL_NODES.columns, 0);
    SourcesThrough(HOSPITAL_NODES.columns, HOSPITAL_NODES.props, 1,
      [Source("name", AsIs, "hospital_name"), Source("state_name", AsIs, "hospital_state")]);
  }

  /** The Payer load: the id from payer_id; `name` from payer_name. */
  lemma PayerMapping()
    ensures NodeShapeOk(PAYER_NODES)
    ensures ColumnFor(PAYER_NODES.columns, "id") == "payer_id"
    ensures Sources(PAYER_NODES.columns, PAYER_NODES.props) ==
      [Source("name", AsIs, "payer_name")]
  {
    PayerShapeOk();
    ColumnForAt(PAYER_NODES.columns, 0);
    SourcesThrough(PAYER_NODES.columns, PAYER_NODES.props, 1,
      [Source("name", AsIs, "payer_name")]);
  }

  /** The Physician load: the id from physician_id; the graduation year kept as
      text, the school from medical_school, and only the salary through `toFloat`. */
  lemma PhysicianMapping()
    ensures NodeShapeOk(PHYSICIAN_NODES)
    ensures ColumnFor(PHYSICIAN_NODES.columns, "id") == "physician_id"
    ensures Sources(PHYSICIAN_NODES.columns, PHYSICIAN_NODES.props) ==
      [Source("name", AsIs, "physician_name"),
        Source("dob", AsIs, "physician_dob"),
        Source("grad_year", AsIs, "physician_grad_year"),
        Source("school", AsIs, "medical_school"),
        Source("salary", ToFloat, "salary")]
  {
    PhysicianShapeOk();
    ColumnForAt(PHYSICIAN_NODES.columns, 0);
    SourcesThrough(PHYSICIAN_NODES.columns, PHYSICIAN_NODES.props, 1,
      [Source("name", AsIs, "physician_name"), Source("dob", AsIs, "physician_dob"), Source("grad_year", AsIs, "physician_grad_year"), Source("school", AsIs, "medical_school"), Source("salary", ToFloat, "salary")]);
  }

  /** The Patient load: the id from patient_id; the four properties from the
      patient_ columns, as they are. */
  lemma PatientMapping()
    ensures NodeShapeOk(PATIENT_NODES)
    ensures ColumnFor(PATIENT_NODES.columns, "id") == "patient_id"
    ensures Sources(PATIENT_NODES.columns, PATIENT_NODES.props) ==
      [Source("name", AsIs, "patient_name"),
        Source("sex", AsIs, "patient_sex"),
        Source("dob", AsIs, "patient_dob"),
        Source("blood_type", AsIs, "patient_blood_type")]
  {
    PatientShapeOk();
    ColumnForAt(PATIENT_NODES.columns, 0);
    SourcesThrough(PATIENT_NODES.columns, PATIENT_NODES.props, 1,
      [Source("name", AsIs, "patient_name"), Source("sex", AsIs, "patient_sex"), Source("dob", AsIs, "patient_dob"), Source("blood_type", AsIs, "patient_blood_type")]);
  }

  /** Where the Visit load's properties come from. */
  const VISIT_SOURCES: seq<Source> :=
    [Source("room_number", ToInteger, "room_number"),
     Source("admission_type", AsIs, "admission_type"),
     Source("admission_date", AsIs, "date_of_admission"),
     Source("test_results", AsIs, "test_results"),
     Source("status", AsIs, "visit_status"),
     Source("chief_complaint", AsIs, "chief_complaint"),
     Source("treatment_description", AsIs, "treatment_description"),
     Source("diagnosis", AsIs, "primary_diagnosis"),
     Source("discharge_date", AsIs, "discharge_date")]

  /** The Visit load: the id from visit_id; the room number through `toInteger`,
      the admission date from date_of_admission, the status from visit_status,
      the diagnosis from primary_diagnosis, the rest as they are. */
  lemma VisitMapping()
    ensures NodeShapeOk(VISIT_NODES)
    ensures ColumnFor(VISIT_NODES.columns, "id") == "visit_id"
    ensures Sources(VISIT_NODES.columns, VISIT_NODES.props) == VISIT_SOURCES
  {
    VisitShapeOk();
    VisitBindings();
    VisitSourcesNamed();
    ColumnForAt(VISIT_NODES.columns, 0);
    SourcesThrough(VISIT_NODES.columns, VISIT_NODES.props, 1, VISIT_SOURCES);
  }

  lemma VisitSourcesNamed()
    ensures |VISIT_SOURCES| == |VISIT_NODES.props| && |VISIT_NODES.props| + 1 <= |VISIT_NODES.columns|
    ensures forall j :: 0 <= j < |VISIT_NODES.props| ==>
      VISIT_SOURCES[j] == Source(VISIT_NODES.props[j].property, VISIT_NODES.props[j].coercion, VISIT_NODES.columns[j + 1].column)
  {
  }

  /** The Review load: the id from review_id; `text` from the review column and
      the three names as they are. */
  lemma ReviewMapping()
    ensures NodeShapeOk(REVIEW_NODES)
    ensures ColumnFor(REVIEW_NODES.columns, "id") == "review_id"
    ensures Sources(REVIEW_NODES.columns, REVIEW_NODES.props) ==
      [Source("text", AsIs, "review"),
        Source("patient_name", AsIs, "patient_name"),
        Source("physician_name", AsIs, "physician_name"),
        Source("hospital_name", AsIs, "hospital_name")]
  {
    ReviewShapeOk();
    ColumnForAt(REVIEW_NODES.columns, 0);
    SourcesThrough(REVIEW_NODES.columns, REVIEW_NODES.props, 1,
      [Source("text", AsIs, "review"), Source("patient_name", AsIs, "patient_name"), Source("physician_name", AsIs, "physician_name"), Source("hospital_name", AsIs, "hospital_name")]);
  }

  /** The AT load: from the Visit of visit_id to the Hospital of hospital_id; it sets nothing. */
  lemma AtMapping()
    ensures EdgeShapeOk(AT_EDGES)
    ensures AT_EDGES.rel == At && AT_EDGES.from == Visit && AT_EDGES.to == Hospital
    ensures ColumnFor(AT_EDGES.columns, AT_EDGES.fromParam) == "visit_id"
    ensures ColumnFor(AT_EDGES.columns, AT_EDGES.toParam) == "hospital_id"
    ensures Sources(AT_EDGES.columns, AT_EDGES.onCreate) == []
  {
    AtShapeOk();
    ColumnForAt(AT_EDGES.columns, 0);
    ColumnForAt(AT_EDGES.columns, 1);
  }

  /** The WRITES load: from the Visit of visit_id to the Review of review_id; it sets nothing. */
  lemma WritesMapping()
    ensures EdgeShapeOk(WRITES_EDGES)
    ensures WRITES_EDGES.rel == Writes && WRITES_EDGES.from == Visit && WRITES_EDGES.to == Review
    ensures ColumnFor(WRITES_EDGES.columns, WRITES_EDGES.fromParam) == "visit_id"
    ensures ColumnFor(WRITES_EDGES.columns, WRITES_EDGES.toParam) == "review_id"
    ensures Sources(WRITES_EDGES.columns, WRITES_EDGES.onCreate) == []
  {
    WritesShapeOk();
    ColumnForAt(WRITES_EDGES.columns, 0);
    ColumnForAt(WRITES_EDGES.columns, 1);
  }

  /** The TREATS load: from the Physician of physician_id to the Visit of visit_id; it sets nothing. */
  lemma TreatsMapping()
    ensures EdgeShapeOk(TREATS_EDGES)
    ensures TREATS_EDGES.rel == Treats && TREATS_EDGES.from == Physician && TREATS_EDGES.to == Visit
    ensures ColumnFor(TREATS_EDGES.columns, TREATS_EDGES.fromParam) == "physician_id"
    ensures ColumnFor(TREATS_EDGES.columns, TREATS_EDGES.toParam) == "visit_id"
    ensures Sources(TREATS_EDGES.columns, TREATS_EDGES.onCreate) == []
  {
    TreatsShapeOk();
    ColumnForAt(TREATS_EDGES.columns, 0);
    ColumnForAt(TREATS_EDGES.columns, 1);
  }

  /** The COVERED_BY load: from the Visit of visit_id to the Payer of payer_id;
      on creation `service_date` from discharge_date as it is and
      `billing_amount` through `toFloat`. */
  lemma CoveredByMapping()
    ensures EdgeShapeOk(COVERED_BY_EDGES)
    ensures COVERED_BY_EDGES.rel == CoveredBy && COVERED_BY_EDGES.from == Visit && COVERED_BY_EDGES.to == Payer
    ensures ColumnFor(COVERED_BY_EDGES.columns, COVERED_BY_EDGES.fromParam) == "visit_id"
    ensures ColumnFor(COVERED_BY_EDGES.columns, COVERED_BY_EDGES.toParam) == "payer_id"
    ensures Sources(COVERED_BY_EDGES.columns, COVERED_BY_EDGES.onCreate) ==
      [Source("service_date", AsIs, "discharge_date"), Source("billing_amount", ToFloat, "billing_amount")]
  {
    CoveredByShapeOk();
    ColumnForAt(COVERED_BY_EDGES.columns, 0);
    ColumnForAt(COVERED_BY_EDGES.columns, 1);
    SourcesThrough(COVERED_BY_EDGES.columns, COVERED_BY_EDGES.onCreate, 2,
      [Source("service_date", AsIs, "discharge_date"), Source("billing_amount", ToFloat, "billing_amount")]);
  }

  /** The HAS load: from the Patient of patient_id to the Visit of visit_id; it sets nothing. */
  lemma HasMapping()
    ensures EdgeShapeOk(HAS_EDGES)
    ensures HAS_EDGES.rel == Has && HAS_EDGES.from == Patient && HAS_EDGES.to == Visit
    ensures ColumnFor(HAS_EDGES.columns, HAS_EDGES.fromParam) == "patient_id"
    ensures ColumnFor(HAS_EDGES.columns, HAS_EDGES.toParam) == "visit_id"
    ensures Sources(HAS_EDGES.columns, HAS_EDGES.onCreate) == []
  {
    HasShapeOk();
    ColumnForAt(HAS_EDGES.columns, 0);
    ColumnForAt(HAS_EDGES.columns, 1);
  }

  /** The EMPLOYS load: from the Hospital of hospital_id to the Physician of physician_id; it sets nothing. */
  lemma EmploysMapping()
    ensures EdgeShapeOk(EMPLOYS_EDGES)
    ensures EMPLOYS_EDGES.rel == Employs && EMPLOYS_EDGES.from == Hospital && EMPLOYS_EDGES.to == Physician
    ensures ColumnFor(EMPLOYS_EDGES.columns, EMPLOYS_EDGES.fromParam) == "hospital_id"
    ensures ColumnFor(EMPLOYS_EDGES.columns, EMPLOYS_EDGES.toParam) == "physician_id"
    ensures Sources(EMPLOYS_EDGES.columns, EMPLOYS_EDGES.onCreate) == []
  {
    EmploysShapeOk();
    ColumnForAt(EMPLOYS_EDGES.columns, 0);
    ColumnForAt(EMPLOYS_EDGES.columns, 1);
  }

  /** Column `i` of a relationship load is in a record that loads, and
      the ON CREATE SET property bound to its parameter takes that
      column's coerced text. */
  lemma EdgeFieldFrom(conv: Conversions, shape: EdgeShape, row: Row, j: int, i: int)
    requires EdgeShapeOk(shape) && EdgeStep(conv, shape, row).Ok?
    requires 0 <= j < |shape.onCreate| && 0 <= i < |shape.columns|
    requires shape.onCreate[j].param == shape.columns[i].param
    ensures shape.columns[i].column in row
    ensures shape.onCreate[j].property in EdgeStep(conv, shape, row).value.onCreate
    ensures EdgeStep(conv, shape, row).value.onCreate[shape.onCreate[j].property]
      == Coerce(conv, shape.onCreate[j].coercion, row[shape.columns[i].column])
  {
    EdgeStepMeaning(conv, shape, row);
    ColumnForAt(shape.columns, i);
    assert shape.onCreate[j] in shape.onCreate;
  }

  /** A record that a relationship load loads carries the endpoint columns
      `i` and `j`, and the MATCHes look up `toInteger` of them. */
  lemma EdgeEndsFrom(conv: Conversions, shape: EdgeShape, row: Row, i: int, j: int)
    requires EdgeShapeOk(shape) && EdgeStep(conv, shape, row).Ok?
    requires 0 <= i < |shape.columns| && shape.columns[i].param == shape.fromParam
    requires 0 <= j < |shape.columns| && shape.columns[j].param == shape.toParam
    ensures shape.columns[i].column in row && shape.columns[j].column in row
    ensures EdgeStep(conv, shape, row).value.fromId == conv.toInteger(row[shape.columns[i].column])
    ensures EdgeStep(conv, shape, row).value.toId == conv.toInteger(row[shape.columns[j].column])
  {
    EdgeStepMeaning(conv, shape, row);
    ColumnForAt(shape.columns, i);
    ColumnForAt(shape.columns, j);
  }

  /** The ON CREATE SET of a COVERED_BY record. */
  function CoveredByProps(conv: Conversions, row: Row): Props
    requires "discharge_date" in row && "billing_amount" in row
  {
    map["service_date" := Str(row["discharge_date"]),
        "billing_amount" := Coerce(conv, ToFloat, row["billing_amount"])]
  }

  /** The four columns a COVERED_BY record must have. */
  lemma CoveredByColumns(row: Row)
    ensures var cols := COVERED_BY_EDGES.columns;
      (forall i :: 0 <= i < |cols| ==> cols[i].column in row)
      <==> ("visit_id" in row && "payer_id" in row && "discharge_date" in row && "billing_amount" in row)
  {
    var cols := COVERED_BY_EDGES.columns;
    assert cols[0].column == "visit_id" && cols[1].column == "payer_id";
    assert cols[2].column == "discharge_date" && cols[3].column == "billing_amount";
  }

  lemma CoveredByOnCreate(conv: Conversions, row: Row)
    requires EdgeStep(conv, COVERED_BY_EDGES, row).Ok?
    ensures "discharge_date" in row && "billing_amount" in row
    ensures EdgeStep(conv, COVERED_BY_EDGES, row).value.onCreate == CoveredByProps(conv, row)
  {
    var o := EdgeStep(conv, COVERED_BY_EDGES, row).value.onCreate;
    CoveredByServiceDate(conv, row);
    CoveredByBillingAmount(conv, row);
    assert o.Keys == {"service_date", "billing_amount"} by {
      PropertyNamesOfTwo(COVERED_BY_EDGES.onCreate);
    }
    TwoKeyMap(o, "service_date", Str(row["discharge_date"]),
              "billing_amount", Coerce(conv, ToFloat, row["billing_amount"]));
  }

  lemma CoveredByServiceDate(conv: Conversions, row: Row)
    requires EdgeStep(conv, COVERED_BY_EDGES, row).Ok?
    ensures "discharge_date" in row && "service_date" in EdgeStep(conv, COVERED_BY_EDGES, row).value.onCreate
    ensures EdgeStep(conv, COVERED_BY_EDGES, row).value.onCreate["service_date"] == Str(row["discharge_date"])
  {
    CoveredByShapeOk();
    EdgeFieldFrom(conv, COVERED_BY_EDGES, row, 0, 2);
  }

  lemma CoveredByBillingAmount(conv: Conversions, row: Row)
    requires EdgeStep(conv, COVERED_BY_EDGES, row).Ok?
    ensures "billing_amount" in row && "billing_amount" in EdgeStep(conv, COVERED_BY_EDGES, row).value.onCreate
    ensures EdgeStep(conv, COVERED_BY_EDGES, row).value.onCreate["billing_amount"]
      == Coerce(conv, ToFloat, row["billing_amount"])
  {
    CoveredByShapeOk();
    EdgeFieldFrom(conv, COVERED_BY_EDGES, row, 1, 3);
  }

  lemma PropertyNamesOfTwo(b: seq<Binding>)
    requires |b| == 2
    ensures PropertyNames(b) == {b[0].property, b[1].property}
  {
    assert b == [b[0], b[1]];
  }

  lemma TwoKeyMap<K, V>(m: map<K, V>, a: K, x: V, b: K, y: V)
    requires m.Keys == {a, b} && m[a] == x && m[b] == y
    ensures m == map[a := x, b := y]
  {
  }

  /** A COVERED_BY record: exactly when it has the four columns, a MERGE
      from the visit to the payer, both ids through `toInteger`, setting
      the service date from the discharge_date column as it is and the
      billing amount through `toFloat`. */
  lemma CoveredByRecordMapping(conv: Conversions, row: Row)
    ensures var s := EdgeStep(conv, COVERED_BY_EDGES, row);
      && (s.Ok? <==> "visit_id" in row && "payer_id" in row && "discharge_date" in row && "billing_amount" in row)
      && (s.Ok? ==> s == Ok(MergeEdgePattern(CoveredBy, Visit, conv.toInteger(row["visit_id"]),
                                Payer, conv.toInteger(row["payer_id"]), CoveredByProps(conv, row))))
  {
    CoveredByShapeOk();
    EdgeStepMeaning(conv, COVERED_BY_EDGES, row);
    CoveredByColumns(row);
    if EdgeStep(conv, COVERED_BY_EDGES, row).Ok? {
      EdgeEndsFrom(conv, COVERED_BY_EDGES, row, 0, 1);
      CoveredByOnCreate(conv, row);
    }
  }

  /** Two COVERED_BY records for the same visit and payer: the
      relationship the first one creates keeps the first record's service
      date; the second record changes nothing about it. */
  lemma CoveredByFirstRecordWins(g: Graph, conv: Conversions, row1: Row, row2: Row, k: EdgeKey)
    requires "visit_id" in row1 && "payer_id" in row1 && "discharge_date" in row1 && "billing_amount" in row1
    requires "visit_id" in row2 && "payer_id" in row2 && "discharge_date" in row2 && "billing_amount" in row2
    requires k !in g.edges
    ensures var h1 := MergeEdge(g, CoveredBy, Visit, conv.toInteger(row1["visit_id"]),
                                Payer, conv.toInteger(row1["payer_id"]), CoveredByProps(conv, row1));
      var h2 := MergeEdge(h1, CoveredBy, Visit, conv.toInteger(row2["visit_id"]),
                          Payer, conv.toInteger(row2["payer_id"]), CoveredByProps(conv, row2));
      k in h1.edges ==>
        && k in h2.edges && h2.edges[k] == h1.edges[k]
        && "service_date" in h1.edges[k] && h1.edges[k]["service_date"] == Str(row1["discharge_date"])
  {
  }
}
