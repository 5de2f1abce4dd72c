/** What one call of the loader does, as a value: the fixed list of
    statements it issues (one per label, then one per CSV record in each
    of the twelve load steps), the run of that list against the store, and
    the retry policy that repeats the whole run. */
module Load {
  import opened Wrappers
  import opened GraphDb
  import opened Rows

  /** The labels that get a uniqueness constraint, in the order they are issued. */
  const NODES: seq<Label> := [Hospital, Payer, Physician, Patient, Visit, Review]

  /** NODES names every label of the ontology, each once. */
  lemma NodesCoverLabels()
    ensures forall l: Label :: l in NODES
    ensures forall i, j :: 0 <= i < j < |NODES| ==> NODES[i] != NODES[j]
  {
    forall l: Label ensures l in NODES {
      match l
      case Hospital => assert NODES[0] == l;
      case Payer => assert NODES[1] == l;
      case Physician => assert NODES[2] == l;
      case Patient => assert NODES[3] == l;
      case Visit => assert NODES[4] == l;
      case Review => assert NODES[5] == l;
    }
  }

  /** The retry decorator's budget: attempts in total, the first included. */
  const TRIES: nat := 100

  // ---------------------------------------------------------------------
  // The twelve load steps

  /** A node load step: the label, the keyword arguments taken from each
      record, and the properties of the MERGE pattern besides
      `id: toInteger($id)`. */
  datatype NodeShape = NodeShape(nodeLabel: Label, columns: seq<Column>, props: seq<Binding>)

  /** A relationship load step: the type, the label and id parameter of
      each MATCH, the keyword arguments, and the ON CREATE SET properties. */
  datatype EdgeShape = EdgeShape(
    rel: RelType, from: Label, fromParam: string, to: Label, toParam: string,
    columns: seq<Column>, onCreate: seq<Binding>)

  predicate NodeShapeOk(s: NodeShape) {
    && "id" in ParamNames(s.columns)
    && DistinctParams(s.columns)
    && DistinctProperties(s.props)
    && BindsFrom(s.props, ParamNames(s.columns))
  }

  predicate EdgeShapeOk(s: EdgeShape) {
    && s.fromParam in ParamNames(s.columns)
    && s.toParam in ParamNames(s.columns)
    && DistinctParams(s.columns)
    && DistinctProperties(s.onCreate)
    && BindsFrom(s.onCreate, ParamNames(s.columns))
  }

  // Hospital nodes: name and state_name beside the id.
  const HOSPITAL_NODES := NodeShape(Hospital,
    [Column("id", "hospital_id"), Column("name", "hospital_name"), Column("state", "hospital_state")],
    [Binding("name", AsIs, "name"), Binding("state_name", AsIs, "state")])

  // Payer nodes: name beside the id.
  const PAYER_NODES := NodeShape(Payer,
    [Column("id", "payer_id"), Column("name", "payer_name")],
    [Binding("name", AsIs, "name")])

  // Physician nodes; the salary goes through toFloat.
  const PHYSICIAN_NODES := NodeShape(Physician,
    [Column("id", "physician_id"), Column("name", "physician_name"), Column("dob", "physician_dob"),
     Column("grad_year", "physician_grad_year"), Column("school", "medical_school"), Column("salary", "salary")],
    [Binding("name", AsIs, "name"), Binding("dob", AsIs, "dob"), Binding("grad_year", AsIs, "grad_year"),
     Binding("school", AsIs, "school"), Binding("salary", ToFloat, "salary")])

  // Patient nodes.
  const PATIENT_NODES := NodeShape(Patient,
    [Column("id", "patient_id"), Column("name", "patient_name"), Column("sex", "patient_sex"),
     Column("dob", "patient_dob"), Column("blood_type", "patient_blood_type")],
    [Binding("name", AsIs, "name"), Binding("sex", AsIs, "sex"), Binding("dob", AsIs, "dob"),
     Binding("blood_type", AsIs, "blood_type")])

  // Visit nodes; room_number goes through toInteger, and the diagnosis comes from
  // the primary_diagnosis column.
  const VISIT_NODES := NodeShape(Visit,
    [Column("id", "visit_id"), Column("room_number", "room_number"), Column("admission_type", "admission_type"),
     Column("admission_date", "date_of_admission"), Column("test_results", "test_results"),
     Column("status", "visit_status"), Column("chief_complaint", "chief_complaint"),
     Column("treatment_description", "treatment_description"), Column("diagnosis", "primary_diagnosis"),
     Column("discharge_date", "discharge_date")],
    [Binding("room_number", ToInteger, "room_number"), Binding("admission_type", AsIs, "admission_type"),
     Binding("admission_date", AsIs, "admission_date"), Binding("test_results", AsIs, "test_results"),
     Binding("status", AsIs, "status"), Binding("chief_complaint", AsIs, "chief_complaint"),
     Binding("treatment_description", AsIs, "treatment_description"), Binding("diagnosis", AsIs, "diagnosis"),
     Binding("discharge_date", AsIs, "discharge_date")])

  // Review nodes; the text comes from the review column.
  const REVIEW_NODES := NodeShape(Review,
    [Column("id", "review_id"), Column("text", "review"), Column("patient_name", "patient_name"),
     Column("physician_name", "physician_name"), Column("hospital_name", "hospital_name")],
    [Binding("text", AsIs, "text"), Binding("patient_name", AsIs, "patient_name"),
     Binding("physician_name", AsIs, "physician_name"), Binding("hospital_name", AsIs, "hospital_name")])

  // Visit -AT-> Hospital, from the visits file.
  const AT_EDGES := EdgeShape(At, Visit, "visit_id", Hospital, "hospital_id",
    [Column("visit_id", "visit_id"), Column("hospital_id", "hospital_id")], [])

  // Visit -WRITES-> Review, from the reviews file.
  const WRITES_EDGES := EdgeShape(Writes, Visit, "visit_id", Review, "review_id",
    [Column("visit_id", "visit_id"), Column("review_id", "review_id")], [])

  // Physician -TREATS-> Visit, from the visits file.
  const TREATS_EDGES := EdgeShape(Treats, Physician, "physician_id", Visit, "visit_id",
    [Column("physician_id", "physician_id"), Column("visit_id", "visit_id")], [])

  // Visit -COVERED_BY-> Payer, from the visits file; service_date (from the
  // discharge_date column) and billing_amount are set only when the relationship is created.
  const COVERED_BY_EDGES := EdgeShape(CoveredBy, Visit, "visit_id", Payer, "payer_id",
    [Column("visit_id", "visit_id"), Column("payer_id", "payer_id"),
     Column("service_date", "discharge_date"), Column("billing_amount", "billing_amount")],
    [Binding("service_date", AsIs, "service_date"), Binding("billing_amount", ToFloat, "billing_amount")])

  // Patient -HAS-> Visit, from the visits file.
  const HAS_EDGES := EdgeShape(Has, Patient, "patient_id", Visit, "visit_id",
    [Column("patient_id", "patient_id"), Column("visit_id", "visit_id")], [])

  // Hospital -EMPLOYS-> Physician, from the visits file.
  const EMPLOYS_EDGES := EdgeShape(Employs, Hospital, "hospital_id", Physician, "physician_id",
    [Column("hospital_id", "hospital_id"), Column("physician_id", "physician_id")], [])

  /** Every load step is well formed: it passes each parameter once, its
      statement uses only parameters it passes, and no property is written twice. */
  lemma ShapesOk()
    ensures NodeShapeOk(HOSPITAL_NODES) && NodeShapeOk(PAYER_NODES) && NodeShapeOk(PHYSICIAN_NODES)
    ensures NodeShapeOk(PATIENT_NODES) && NodeShapeOk(VISIT_NODES) && NodeShapeOk(REVIEW_NODES)
    ensures EdgeShapeOk(AT_EDGES) && EdgeShapeOk(WRITES_EDGES) && EdgeShapeOk(TREATS_EDGES)
    ensures EdgeShapeOk(COVERED_BY_EDGES) && EdgeShapeOk(HAS_EDGES) && EdgeShapeOk(EMPLOYS_EDGES)
  {
    HospitalShapeOk();
    PayerShapeOk();
    PhysicianShapeOk();
    PatientShapeOk();
    VisitShapeOk();
    ReviewShapeOk();
    AtShapeOk();
    WritesShapeOk();
    TreatsShapeOk();
    CoveredByShapeOk();
    HasShapeOk();
    EmploysShapeOk();
  }

  lemma HospitalShapeOk()
    ensures NodeShapeOk(HOSPITAL_NODES)
  {
  }

  lemma PayerShapeOk()
    ensures NodeShapeOk(PAYER_NODES)
  {
  }

  lemma PhysicianShapeOk()
    ensures NodeShapeOk(PHYSICIAN_NODES)
  {
    PhysicianColumnsDistinct();
    PhysicianPropertiesDistinct();
    PhysicianBindings();
  }

  lemma PhysicianBindings()
    ensures "id" in ParamNames(PHYSICIAN_NODES.columns)
    ensures BindsFrom(PHYSICIAN_NODES.props, ParamNames(PHYSICIAN_NODES.columns))
  {
    var cols, props := PHYSICIAN_NODES.columns, PHYSICIAN_NODES.props;
    forall i | 0 <= i < |props| ensures props[i].param in ParamNames(cols) {
      assert props[i].param == cols[i + 1].param;
    }
  }

  lemma PhysicianColumnsDistinct()
    ensures DistinctParams(PHYSICIAN_NODES.columns)
  {
  }

  lemma PhysicianPropertiesDistinct()
    ensures DistinctProperties(PHYSICIAN_NODES.props)
  {
  }

  lemma PatientShapeOk()
    ensures NodeShapeOk(PATIENT_NODES)
  {
    PatientColumnsDistinct();
    PatientPropertiesDistinct();
    PatientBindings();
  }

  lemma PatientBindings()
    ensures "id" in ParamNames(PATIENT_NODES.columns)
    ensures BindsFrom(PATIENT_NODES.props, ParamNames(PATIENT_NODES.columns))
  {
    var cols, props := PATIENT_NODES.columns, PATIENT_NODES.props;
    forall i | 0 <= i < |props| ensures props[i].param in ParamNames(cols) {
      assert props[i].param == cols[i + 1].param;
    }
  }

  lemma PatientColumnsDistinct()
    ensures DistinctParams(PATIENT_NODES.columns)
  {
  }

  lemma PatientPropertiesDistinct()
    ensures DistinctProperties(PATIENT_NODES.props)
  {
  }

  lemma VisitShapeOk()
    ensures NodeShapeOk(VISIT_NODES)
  {
    VisitColumnsDistinct();
    VisitPropertiesDistinct();
    VisitBindings();
  }

  /** Each Visit property passes the parameter of the column after the id,
      in order. */
  lemma VisitBindings()
    ensures "id" in ParamNames(VISIT_NODES.columns)
    ensures BindsFrom(VISIT_NODES.props, ParamNames(VISIT_NODES.columns))
    ensures |VISIT_NODES.props| + 1 <= |VISIT_NODES.columns|
    ensures forall i :: 0 <= i < |VISIT_NODES.props| ==> VISIT_NODES.props[i].param == VISIT_NODES.columns[i + 1].param
  {
    var cols, props := VISIT_NODES.columns, VISIT_NODES.props;
    forall i | 0 <= i < |props| ensures props[i].param in ParamNames(cols) && props[i].param == cols[i + 1].param {
      assert props[i].param == cols[i + 1].param;
    }
  }

  lemma VisitColumnsDistinct()
    ensures DistinctParams(VISIT_NODES.columns)
  {
  }

  lemma VisitPropertiesDistinct()
    ensures DistinctProperties(VISIT_NODES.props)
  {
  }

  lemma ReviewShapeOk()
    ensures NodeShapeOk(REVIEW_NODES)
  {
  }

  lemma AtShapeOk()
    ensures EdgeShapeOk(AT_EDGES)
  {
  }

  lemma WritesShapeOk()
    ensures EdgeShapeOk(WRITES_EDGES)
  {
  }

  lemma TreatsShapeOk()
    ensures EdgeShapeOk(TREATS_EDGES)
  {
  }

  lemma CoveredByShapeOk()
    ensures EdgeShapeOk(COVERED_BY_EDGES)
  {
  }

  lemma HasShapeOk()
    ensures EdgeShapeOk(HAS_EDGES)
  {
  }

  lemma EmploysShapeOk()
    ensures EdgeShapeOk(EMPLOYS_EDGES)
  {
  }

  // ---------------------------------------------------------------------
  // Statements issued per record

  datatype LoadError =
    | MissingColumn(column: string)    // KeyError while building the keyword arguments
    | MissingParameter                 // the statement uses a parameter the call does not pass
    | StoreFailure(error: StoreError)  // the statement failed in the database
    | Transient                        // the connection to the database dropped

  /** One iteration of a load loop: the statement it issues, or the
      exception raised instead. */
  type Step = Result<Stmt, LoadError>

  /** The statement a node load issues for one record. Neo4j refuses a
      statement that names a parameter the call did not pass; `ShapesOk`
      shows that none of the twelve loads does. */
  function NodeStep(conv: Conversions, shape: NodeShape, row: Row): (r: Step)
    ensures r.Ok? ==>
      && r.value.MergeNodePattern? && r.value.l == shape.nodeLabel
      && r.value.props.Keys == PropertyNames(shape.props)
    ensures r.Err? ==> r.error.MissingParameter? || (r.error.MissingColumn? && r.error.column !in row)
  {
    match Extract(row, shape.columns)
    case Err(c) => Err(MissingColumn(c))
    case Ok(p) =>
      if "id" !in p || !BindsFrom(shape.props, p.Keys) then Err(MissingParameter)
      else Ok(MergeNodePattern(shape.nodeLabel, conv.toInteger(p["id"]), Bind(conv, shape.props, p)))
  }

  /** The statement a relationship load issues for one record. */
  function EdgeStep(conv: Conversions, shape: EdgeShape, row: Row): (r: Step)
    ensures r.Ok? ==>
      && r.value.MergeEdgePattern? && r.value.rel == shape.rel
      && r.value.from == shape.from && r.value.to == shape.to
      && r.value.onCreate.Keys == PropertyNames(shape.onCreate)
    ensures r.Err? ==> r.error.MissingParameter? || (r.error.MissingColumn? && r.error.column !in row)
  {
    match Extract(row, shape.columns)
    case Err(c) => Err(MissingColumn(c))
    case Ok(p) =>
      if shape.fromParam !in p || shape.toParam !in p || !BindsFrom(shape.onCreate, p.Keys) then Err(MissingParameter)
      else
        Ok(MergeEdgePattern(shape.rel, shape.from, conv.toInteger(p[shape.fromParam]),
                            shape.to, conv.toInteger(p[shape.toParam]), Bind(conv, shape.onCreate, p)))
  }

  /** The constraint loop: one statement per label of `NODES`; every label
      gets its constraint. */
  function ConstraintSteps(): (r: seq<Step>)
    ensures |r| == |NODES|
    ensures forall l: Label :: Ok(CreateUniqueIdConstraint(l)) in r
  {
    var r := seq(|NODES|, i requires 0 <= i < |NODES| => Ok(CreateUniqueIdConstraint(NODES[i])));
    assert forall l: Label :: Ok(CreateUniqueIdConstraint(l)) in r by {
      forall l: Label ensures Ok(CreateUniqueIdConstraint(l)) in r {
        var i := match l
          case Hospital => 0 case Payer => 1 case Physician => 2
          case Patient => 3 case Visit => 4 case Review => 5;
        assert r[i] == Ok(CreateUniqueIdConstraint(l));
      }
    }
    r
  }

  /** A node load: one step per record, in file order. */
  function NodeSteps(conv: Conversions, shape: NodeShape, rows: seq<Row>): (r: seq<Step>)
    ensures |r| == |rows|
  {
    seq(|rows|, i requires 0 <= i < |rows| => NodeStep(conv, shape, rows[i]))
  }

  /** A relationship load: one step per record, in file order. */
  function EdgeSteps(conv: Conversions, shape: EdgeShape, rows: seq<Row>): (r: seq<Step>)
    ensures |r| == |rows|
  {
    seq(|rows|, i requires 0 <= i < |rows| => EdgeStep(conv, shape, rows[i]))
  }

  /** The records of the six CSV files. */
  datatype Csvs = Csvs(
    hospitals: seq<Row>, payers: seq<Row>, physicians: seq<Row>,
    patients: seq<Row>, visits: seq<Row>, reviews: seq<Row>)

  /** Everything the loader issues before its first relationship
      statement: the constraints, then the six node loads in order. */
  function BeforeEdges(conv: Conversions, csvs: Csvs): (r: seq<Step>)
    ensures ConstraintSteps() <= r
    ensures |r| == |NODES| + |csvs.hospitals| + |csvs.payers| + |csvs.physicians|
                  + |csvs.patients| + |csvs.visits| + |csvs.reviews|
  {
    ConstraintSteps()
    + NodeSteps(conv, HOSPITAL_NODES, csvs.hospitals)
    + NodeSteps(conv, PAYER_NODES, csvs.payers)
    + NodeSteps(conv, PHYSICIAN_NODES, csvs.physicians)
    + NodeSteps(conv, PATIENT_NODES, csvs.patients)
    + NodeSteps(conv, VISIT_NODES, csvs.visits)
    + NodeSteps(conv, REVIEW_NODES, csvs.reviews)
  }

  /** Everything one call of the loader issues, in order: after the node
      loads, the six relationship loads, five over the visits and one over
      the reviews. */
  function Program(conv: Conversions, csvs: Csvs): (r: seq<Step>)
    ensures BeforeEdges(conv, csvs) <= r
    ensures |r| == |BeforeEdges(conv, csvs)| + 5 * |csvs.visits| + |csvs.reviews|
  {
    BeforeEdges(conv, csvs)
    + EdgeSteps(conv, AT_EDGES, csvs.visits)
    + EdgeSteps(conv, WRITES_EDGES, csvs.reviews)
    + EdgeSteps(conv, TREATS_EDGES, csvs.visits)
    + EdgeSteps(conv, COVERED_BY_EDGES, csvs.visits)
    + EdgeSteps(conv, HAS_EDGES, csvs.visits)
    + EdgeSteps(conv, EMPLOYS_EDGES, csvs.visits)
  }

  // ---------------------------------------------------------------------
  // Running the statements

  /** How a run ends: with the state of the store, and the exception that
      ended it if it did not finish. */
  datatype Run = Done(graph: Graph) | Failed(graph: Graph, error: LoadError)

  function RunOf(g: Graph, failure: Option<LoadError>): Run {
    if failure.None? then Done(g) else Failed(g, failure.value)
  }

  /** One step against the store. The statement is not sent if building
      its arguments raised, nor if the connection has dropped. A step
      never takes data away, and a step that raises leaves the store as it was. */
  function StepRun(g: Graph, step: Step, dropped: bool): (r: Run)
    ensures Grows(g, r.graph)
    ensures r.Failed? ==> r.graph == g
  {
    match step
    case Err(e) => Failed(g, e)
    case Ok(s) =>
      if dropped then Failed(g, Transient)
      else
        match Apply(g, s)
        case Ok(h) => ApplyGrows(g, s); Done(h)
        case Err(e) => Failed(g, StoreFailure(e))
  }

  /** The steps run in order until one of them raises; they are the
      statements `base`, `base + 1`, ... of the call. `dropsAt == Some(k)`
      says the connection drops once `k` statements of the call have been
      sent; `None` says it stays up. Writes that were sent stay in the store. */
  function Exec(g: Graph, steps: seq<Step>, base: nat, dropsAt: Option<nat>): (r: Run)
    ensures Grows(g, r.graph)
    decreases |steps|
  {
    if steps == [] then Done(g)
    else
      var n := |steps| - 1;
      match Exec(g, steps[..n], base, dropsAt)
      case Done(h) =>
        GrowsTransitive(g, h, StepRun(h, steps[n], dropsAt == Some(base + n)).graph);
        StepRun(h, steps[n], dropsAt == Some(base + n))
      case Failed(h, e) => Failed(h, e)
  }

  /** Runs `steps` after a run `r`, if `r` did not raise. */
  function Then(r: Run, steps: seq<Step>, base: nat, dropsAt: Option<nat>): Run {
    if r.Done? then Exec(r.graph, steps, base, dropsAt) else r
  }

  /** Running two lists one after the other is running their concatenation. */
  lemma {:induction false} ExecAppend(g: Graph, p: seq<Step>, q: seq<Step>, base: nat, dropsAt: Option<nat>)
    ensures Exec(g, p + q, base, dropsAt) == Then(Exec(g, p, base, dropsAt), q, base + |p|, dropsAt)
    decreases |q|
  {
    if q == [] {
      assert p + q == p;
    } else {
      var n := |q| - 1;
      ExecAppend(g, p, q[..n], base, dropsAt);
      assert (p + q)[..|p + q| - 1] == p + q[..n];
      assert (p + q)[|p + q| - 1] == q[n];
    }
  }

  /** A run of the list so far, continued by one more load. */
  lemma ExecContinue(g: Graph, done: seq<Step>, more: seq<Step>, sent: nat, dropsAt: Option<nat>, before: Run, after: Run)
    requires sent == |done|
    requires Exec(g, done, 0, dropsAt) == before
    requires after == Then(before, more, sent, dropsAt)
    ensures Exec(g, done + more, 0, dropsAt) == after
  {
    ExecAppend(g, done, more, 0, dropsAt);
  }

  /** Running one more step. */
  lemma ExecSnoc(g: Graph, steps: seq<Step>, i: nat, base: nat, dropsAt: Option<nat>)
    requires i < |steps|
    ensures Exec(g, steps[..i + 1], base, dropsAt) ==
      match Exec(g, steps[..i], base, dropsAt)
      case Done(h) => StepRun(h, steps[i], dropsAt == Some(base + i))
      case Failed(h, e) => Failed(h, e)
  {
    assert steps[..i + 1][..i] == steps[..i];
  }

  /** A step that raises ends the run: the rest of the list is never reached. */
  lemma StopsAt(g: Graph, steps: seq<Step>, i: nat, base: nat, dropsAt: Option<nat>)
    requires i < |steps|
    requires Exec(g, steps[..i + 1], base, dropsAt).Failed?
    ensures Exec(g, steps, base, dropsAt) == Exec(g, steps[..i + 1], base, dropsAt)
  {
    ExecAppend(g, steps[..i + 1], steps[i + 1..], base, dropsAt);
    assert steps[..i + 1] + steps[i + 1..] == steps;
  }

  /** A loop's progress after its next step: the run goes on from the
      step's result, or, when the step raised, that result is the whole run's. */
  lemma Advance(g: Graph, steps: seq<Step>, i: nat, base: nat, dropsAt: Option<nat>, h: Graph, r: Run)
    requires i < |steps|
    requires Exec(g, steps[..i], base, dropsAt) == Done(h)
    requires r == StepRun(h, steps[i], dropsAt == Some(base + i))
    ensures r.Done? ==> Exec(g, steps[..i + 1], base, dropsAt) == r
    ensures r.Failed? ==> Exec(g, steps, base, dropsAt) == r
  {
    ExecSnoc(g, steps, i, base, dropsAt);
    if r.Failed? {
      StopsAt(g, steps, i, base, dropsAt);
    }
  }

  // ---------------------------------------------------------------------
  // Retry: @retry(tries=100, delay=10) around the whole loader

  /** How the connection behaves in the attempt with this index. */
  function AttemptDrop(drops: seq<Option<nat>>, i: nat): Option<nat> {
    if i < |drops| then drops[i] else None
  }

  /** From attempt `i` on: each attempt reruns the whole list against the
      store as the previous attempt left it. Any exception — not only a
      dropped connection — triggers the next attempt; after the last one
      the exception is passed on. Also gives the number of attempts made. */
  function RetryFrom(g: Graph, prog: seq<Step>, drops: seq<Option<nat>>, i: nat): (r: (Run, nat))
    requires i < TRIES
    ensures i < r.1 <= TRIES
    ensures r.0.Failed? ==> r.1 == TRIES
    ensures Grows(g, r.0.graph)
    decreases TRIES - i
  {
    var run := Exec(g, prog, 0, AttemptDrop(drops, i));
    if run.Done? || i + 1 == TRIES then (run, i + 1)
    else
      var r := RetryFrom(run.graph, prog, drops, i + 1);
      GrowsTransitive(g, run.graph, r.0.graph);
      r
  }
}
