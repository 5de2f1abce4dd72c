/** The loader itself, as the imperative program it is: a loop issuing the
    six constraint statements, twelve loops each issuing one statement per
    CSV record against the shared store, and the retry loop around the
    whole call. Every method is proved to leave the store exactly as the
    run of module Load's statement list does, and to raise exactly what
    that run raises. */
module Loader {
  import opened Wrappers
  import opened GraphDb
  import opened Rows
  import opened Load
  import opened Store

  /** One constraint statement per label in `NODES`, each in its own write
      transaction. `dropsAt` is where the connection drops, counted in
      statements from the start of the call. */
  method SetUniquenessConstraints(store: GraphStore, dropsAt: Option<nat>) returns (failure: Option<LoadError>)
    modifies store
    ensures RunOf(store.State(), failure) == Exec(old(store.State()), ConstraintSteps(), 0, dropsAt)
  {
    ghost var g0 := store.State();
    ghost var steps := ConstraintSteps();
    assert steps[..0] == [];
    for i := 0 to |NODES|
      invariant Exec(g0, steps[..i], 0, dropsAt) == Done(store.State())
    {
      ghost var h := store.State();
      failure := None;
      if dropsAt == Some(i) {
        failure := Some(Transient);
      } else {
        var err := store.CreateUniqueConstraint(NODES[i]);
        if err.Some? {
          failure := Some(StoreFailure(err.value));
        }
      }
      Advance(g0, steps, i, 0, dropsAt, h, RunOf(store.State(), failure));
      if failure.Some? {
        return;
      }
    }
    assert steps[..|NODES|] == steps;
    return None;
  }

  /** The body of a node load loop for one record: build the keyword
      arguments (a missing column raises KeyError before anything is sent),
      then run the MERGE unless the connection has dropped. `step` is the
      statement this record stands for. */
  method NodeRow(store: GraphStore, conv: Conversions, shape: NodeShape, row: Row, dropped: bool, ghost step: Step)
    returns (failure: Option<LoadError>)
    requires step == NodeStep(conv, shape, row)
    modifies store
    ensures RunOf(store.State(), failure) == StepRun(old(store.State()), step, dropped)
  {
    var params := Extract(row, shape.columns);
    if params.Err? {
      return Some(MissingColumn(params.error));
    }
    if "id" !in params.value || !BindsFrom(shape.props, params.value.Keys) {
      return Some(MissingParameter);
    }
    if dropped {
      return Some(Transient);
    }
    var err := store.MergeNode(shape.nodeLabel, conv.toInteger(params.value["id"]), Bind(conv, shape.props, params.value));
    if err.Some? {
      return Some(StoreFailure(err.value));
    }
    return None;
  }

  /** The body of a relationship load loop for one record: build the
      keyword arguments, then run the MATCH / MATCH / MERGE, which cannot
      fail in the store. */
  method EdgeRow(store: GraphStore, conv: Conversions, shape: EdgeShape, row: Row, dropped: bool, ghost step: Step)
    returns (failure: Option<LoadError>)
    requires step == EdgeStep(conv, shape, row)
    modifies store
    ensures RunOf(store.State(), failure) == StepRun(old(store.State()), step, dropped)
  {
    var params := Extract(row, shape.columns);
    if params.Err? {
      return Some(MissingColumn(params.error));
    }
    if shape.fromParam !in params.value || shape.toParam !in params.value || !BindsFrom(shape.onCreate, params.value.Keys) {
      return Some(MissingParameter);
    }
    if dropped {
      return Some(Transient);
    }
    store.MergeEdge(shape.rel, shape.from, conv.toInteger(params.value[shape.fromParam]),
                    shape.to, conv.toInteger(params.value[shape.toParam]), Bind(conv, shape.onCreate, params.value));
    return None;
  }

  /** A node load: the loop over the records of one CSV file, whose
      statements are `steps`. `sent` statements of the call came before
      it, which places its statements in the count `dropsAt` refers to. */
  method LoadNodes(store: GraphStore, conv: Conversions, shape: NodeShape, rows: seq<Row>,
                   ghost steps: seq<Step>, sent: nat, dropsAt: Option<nat>)
    returns (failure: Option<LoadError>)
    requires |steps| == |rows|
    requires forall i :: 0 <= i < |rows| ==> steps[i] == NodeStep(conv, shape, rows[i])
    modifies store
    ensures RunOf(store.State(), failure) == Exec(old(store.State()), steps, sent, dropsAt)
  {
    ghost var g0 := store.State();
    assert steps[..0] == [];
    for i := 0 to |rows|
      invariant Exec(g0, steps[..i], sent, dropsAt) == Done(store.State())
    {
      ghost var h := store.State();
      failure := NodeRow(store, conv, shape, rows[i], dropsAt == Some(sent + i), steps[i]);
      Advance(g0, steps, i, sent, dropsAt, h, RunOf(store.State(), failure));
      if failure.Some? {
        return;
      }
    }
    assert steps[..|rows|] == steps;
    return None;
  }

  /** A relationship load: the loop over the records of one CSV file. */
  method LoadEdges(store: GraphStore, conv: Conversions, shape: EdgeShape, rows: seq<Row>,
                   ghost steps: seq<Step>, sent: nat, dropsAt: Option<nat>)
    returns (failure: Option<LoadError>)
    requires |steps| == |rows|
    requires forall i :: 0 <= i < |rows| ==> steps[i] == EdgeStep(conv, shape, rows[i])
    modifies store
    ensures RunOf(store.State(), failure) == Exec(old(store.State()), steps, sent, dropsAt)
  {
    ghost var g0 := store.State();
    assert steps[..0] == [];
    for i := 0 to |rows|
      invariant Exec(g0, steps[..i], sent, dropsAt) == Done(store.State())
    {
      ghost var h := store.State();
      failure := EdgeRow(store, conv, shape, rows[i], dropsAt == Some(sent + i), steps[i]);
      Advance(g0, steps, i, sent, dropsAt, h, RunOf(store.State(), failure));
      if failure.Some? {
        return;
      }
    }
    assert steps[..|rows|] == steps;
    return None;
  }

  /** A node load that starts only if nothing before it raised: an
      exception leaves the loader, so the loads after it never start. */
  method NodeLoad(store: GraphStore, conv: Conversions, shape: NodeShape, rows: seq<Row>,
                  ghost g0: Graph, ghost done: seq<Step>, sent: nat, dropsAt: Option<nat>, pending: Option<LoadError>)
    returns (failure: Option<LoadError>)
    requires sent == |done|
    requires Exec(g0, done, 0, dropsAt) == RunOf(store.State(), pending)
    modifies store
    ensures RunOf(store.State(), failure) == Exec(g0, done + NodeSteps(conv, shape, rows), 0, dropsAt)
  {
    ghost var before := RunOf(store.State(), pending);
    if pending.Some? {
      failure := pending;
    } else {
      failure := LoadNodes(store, conv, shape, rows, NodeSteps(conv, shape, rows), sent, dropsAt);
    }
    ExecContinue(g0, done, NodeSteps(conv, shape, rows), sent, dropsAt, before, RunOf(store.State(), failure));
  }

  /** A relationship load that starts only if nothing before it raised. */
  method EdgeLoad(store: GraphStore, conv: Conversions, shape: EdgeShape, rows: seq<Row>,
                  ghost g0: Graph, ghost done: seq<Step>, sent: nat, dropsAt: Option<nat>, pending: Option<LoadError>)
    returns (failure: Option<LoadError>)
    requires sent == |done|
    requires Exec(g0, done, 0, dropsAt) == RunOf(store.State(), pending)
    modifies store
    ensures RunOf(store.State(), failure) == Exec(g0, done + EdgeSteps(conv, shape, rows), 0, dropsAt)
  {
    ghost var before := RunOf(store.State(), pending);
    if pending.Some? {
      failure := pending;
    } else {
      failure := LoadEdges(store, conv, shape, rows, EdgeSteps(conv, shape, rows), sent, dropsAt);
    }
    ExecContinue(g0, done, EdgeSteps(conv, shape, rows), sent, dropsAt, before, RunOf(store.State(), failure));
  }

  /** The six node loads, in the order the loader runs them, after the
      constraint statements. */
  method LoadNodePhase(store: GraphStore, conv: Conversions, csvs: Csvs,
                       ghost g0: Graph, dropsAt: Option<nat>, pending: Option<LoadError>)
    returns (failure: Option<LoadError>)
    requires Exec(g0, ConstraintSteps(), 0, dropsAt) == RunOf(store.State(), pending)
    modifies store
    ensures RunOf(store.State(), failure) == Exec(g0, BeforeEdges(conv, csvs), 0, dropsAt)
  {
    ghost var steps := ConstraintSteps();
    var at := |NODES|;
    failure := NodeLoad(store, conv, HOSPITAL_NODES, csvs.hospitals, g0, steps, at, dropsAt, pending);
    steps, at := steps + NodeSteps(conv, HOSPITAL_NODES, csvs.hospitals), at + |csvs.hospitals|;
    failure := NodeLoad(store, conv, PAYER_NODES, csvs.payers, g0, steps, at, dropsAt, failure);
    steps, at := steps + NodeSteps(conv, PAYER_NODES, csvs.payers), at + |csvs.payers|;
    failure := NodeLoad(store, conv, PHYSICIAN_NODES, csvs.physicians, g0, steps, at, dropsAt, failure);
    steps, at := steps + NodeSteps(conv, PHYSICIAN_NODES, csvs.physicians), at + |csvs.physicians|;
    failure := NodeLoad(store, conv, PATIENT_NODES, csvs.patients, g0, steps, at, dropsAt, failure);
    steps, at := steps + NodeSteps(conv, PATIENT_NODES, csvs.patients), at + |csvs.patients|;
    failure := NodeLoad(store, conv, VISIT_NODES, csvs.visits, g0, steps, at, dropsAt, failure);
    steps, at := steps + NodeSteps(conv, VISIT_NODES, csvs.visits), at + |csvs.visits|;
    failure := NodeLoad(store, conv, REVIEW_NODES, csvs.reviews, g0, steps, at, dropsAt, failure);
    steps, at := steps + NodeSteps(conv, REVIEW_NODES, csvs.reviews), at + |csvs.reviews|;
  }

  /** The six relationship loads, in the order the loader runs them, after
      the node loads. */
  method LoadEdgePhase(store: GraphStore, conv: Conversions, csvs: Csvs,
                       ghost g0: Graph, sent: nat, dropsAt: Option<nat>, pending: Option<LoadError>)
    returns (failure: Option<LoadError>)
    requires sent == |BeforeEdges(conv, csvs)|
    requires Exec(g0, BeforeEdges(conv, csvs), 0, dropsAt) == RunOf(store.State(), pending)
    modifies store
    ensures RunOf(store.State(), failure) == Exec(g0, Program(conv, csvs), 0, dropsAt)
  {
    ghost var steps := BeforeEdges(conv, csvs);
    var at := sent;
    failure := EdgeLoad(store, conv, AT_EDGES, csvs.visits, g0, steps, at, dropsAt, pending);
    steps, at := steps + EdgeSteps(conv, AT_EDGES, csvs.visits), at + |csvs.visits|;
    failure := EdgeLoad(store, conv, WRITES_EDGES, csvs.reviews, g0, steps, at, dropsAt, failure);
    steps, at := steps + EdgeSteps(conv, WRITES_EDGES, csvs.reviews), at + |csvs.reviews|;
    failure := EdgeLoad(store, conv, TREATS_EDGES, csvs.visits, g0, steps, at, dropsAt, failure);
    steps, at := steps + EdgeSteps(conv, TREATS_EDGES, csvs.visits), at + |csvs.visits|;
    failure := EdgeLoad(store, conv, COVERED_BY_EDGES, csvs.visits, g0, steps, at, dropsAt, failure);
    steps, at := steps + EdgeSteps(conv, COVERED_BY_EDGES, csvs.visits), at + |csvs.visits|;
    failure := EdgeLoad(store, conv, HAS_EDGES, csvs.visits, g0, steps, at, dropsAt, failure);
    steps, at := steps + EdgeSteps(conv, HAS_EDGES, csvs.visits), at + |csvs.visits|;
    failure := EdgeLoad(store, conv, EMPLOYS_EDGES, csvs.visits, g0, steps, at, dropsAt, failure);
    steps, at := steps + EdgeSteps(conv, EMPLOYS_EDGES, csvs.visits), at + |csvs.visits|;
  }

  /** One call of the loader without its retry: the constraints, the six
      node loads, then the six relationship loads, stopping at the first
      exception. */
  method LoadHospitalGraph(store: GraphStore, conv: Conversions, csvs: Csvs, dropsAt: Option<nat>)
    returns (failure: Option<LoadError>)
    modifies store
    ensures RunOf(store.State(), failure) == Exec(old(store.State()), Program(conv, csvs), 0, dropsAt)
  {
    ghost var g0 := store.State();
    failure := SetUniquenessConstraints(store, dropsAt);
    failure := LoadNodePhase(store, conv, csvs, g0, dropsAt, failure);
    var sent := |NODES| + |csvs.hospitals| + |csvs.payers| + |csvs.physicians| + |csvs.patients| + |csvs.visits| + |csvs.reviews|;
    failure := LoadEdgePhase(store, conv, csvs, g0, sent, dropsAt, failure);
  }

  /** The retry decorator around the loader: call it; on any exception
      call it again, against the store as the failed call left it, until a
      call returns or `TRIES` calls have been made, and then pass the last
      exception on. `drops[i]` is how the connection behaves in call `i`.
      Returns the number of calls made. */
  method LoadWithRetry(store: GraphStore, conv: Conversions, csvs: Csvs, drops: seq<Option<nat>>)
    returns (attempts: nat, failure: Option<LoadError>)
    modifies store
    ensures (RunOf(store.State(), failure), attempts) == RetryFrom(old(store.State()), Program(conv, csvs), drops, 0)
  {
    ghost var prog := Program(conv, csvs);
    ghost var g0 := store.State();
    ghost var before := g0;
    failure := LoadHospitalGraph(store, conv, csvs, AttemptDrop(drops, 0));
    attempts := 1;
    while failure.Some? && attempts < TRIES
      invariant 1 <= attempts <= TRIES
      invariant RunOf(store.State(), failure) == Exec(before, prog, 0, AttemptDrop(drops, attempts - 1))
      invariant RetryFrom(g0, prog, drops, 0) == RetryFrom(before, prog, drops, attempts - 1)
      decreases TRIES - attempts
    {
      before := store.State();
      failure := LoadHospitalGraph(store, conv, csvs, AttemptDrop(drops, attempts));
      attempts := attempts + 1;
    }
  }
}
