# Hospital graph bulk loader, modelled in Dafny

The hospital ETL's bulk loader (`hospital_bulk_csv_write.py`) fills a Neo4j graph from six CSV files. It runs in three phases:

1. It creates a uniqueness constraint on `id` for each of the six labels (Hospital, Payer, Physician, Patient, Visit, Review).
2. It runs six node loads. Each load issues one `MERGE` of a node pattern per CSV record.
3. It runs six relationship loads: AT, WRITES, TREATS, COVERED_BY, HAS and EMPLOYS. Each record issues two `MATCH`es by id and one `MERGE` of the relationship. COVERED_BY also sets two properties with `ON CREATE SET`.

A retry decorator wraps the whole load. It allows 100 attempts, 10 seconds apart.

This project models that loader and proves what its order and its use of `MERGE` buy. The modules follow the structure of the program:

- `GraphDb` (graph.dfy): the graph store as a value, with constraints, nodes and relationships. It gives the meaning of the three statement forms the loader sends:
  - `CREATE CONSTRAINT IF NOT EXISTS`;
  - a node-pattern `MERGE`;
  - `MATCH … MATCH … MERGE … ON CREATE SET`.

  It also holds the store invariants these statements keep.
- `Store` (store.dfy): the same store as an object. Its fields are updated in place, one method per statement form, and each method is proved to do what `GraphDb` says.
- `Rows` (rows.dfy): how a CSV record becomes statement parameters. The keyword arguments `p=row['c']` are evaluated left to right, and the first missing column raises `KeyError`. The parameters then become property values, either as they are or through `toInteger` / `toFloat`.
- `Load` (load.dfy):
  - the fixed data of the loader: `NODES`, the twelve load shapes (columns, properties, coercions) and the budget of 100 attempts;
  - the statement list one call issues;
  - the run of a list against the store, stopping at the first exception, with an optional dropped connection;
  - the retry policy as a function.
- `Loader` (loader.dfy): the loader as the imperative program it is. It has the constraint loop, the twelve record loops over a shared `GraphStore`, one call of the loader, and the retry loop. Each method is proved to leave the store exactly as the corresponding `Load` function says, and to raise the same exception.
- `Replay` (replay.dfy): the general theory of re-running a list of statements in this order. After a prefix has gone through, running the whole list again reproduces the same final state. This is what makes retrying the whole load safe.
- `LoadProperties` (properties.dfy): the properties proved of the loader's own statement list:
  - constraints come first, and all node loads come before any relationship;
  - ids are unique and relationships are unique per typed endpoint pair;
  - relationships run in the written directions;
  - a repeated load changes nothing, and a retried load converges;
  - the column-to-property mappings, and COVERED_BY's create-only properties.

Where the loader relies on the database, the model follows Neo4j's documented behaviour:

- A node `MERGE` pattern matches any node with the pattern's label, its id and each of its properties at the pattern's value; the node may carry further properties.
- Under a uniqueness constraint, a node `MERGE` that matches no node but whose id is already held by a node of that label fails.
- `MATCH` on `id: toInteger(x)` with a non-numeric `x` matches nothing, because `toInteger` yields null.
- A `MERGE` whose pattern contains a null fails.
- `SET p = null` stores nothing.

Three consequences of the code are worth stating on their own:

- A relationship record whose endpoint node is missing is skipped silently. `MATCH` yields no rows, so nothing is created and nothing raises. See `GraphDb.MergeEdgeMissingEndpoint`.
- Node `MERGE` matches on the whole property pattern. Under the constraint, a record whose id is already held by a node with other values for the pattern's properties raises a constraint violation; it neither updates that node nor adds a second one. See `GraphDb.MergeNodeRejectsClash`.
- `@retry` retries on every exception, not only on a dropped connection. A load that fails for a data reason (a missing column, a constraint violation) is attempted all 100 times before the exception reaches the caller. See `LoadProperties.RetryGivesUp`.

## Model

Every source cell below refers to `hospital_neo4j_etl/src/hospital_bulk_csv_write.py`.

| member | source | states |
|---|---|---|
| GraphDb.CreateConstraint | hospital_neo4j_etl/src/hospital_bulk_csv_write.py:30-33 | When it succeeds, the label is added to the constraints and nothing else changes. It fails exactly when the constraint is absent and two nodes of the label already share an id. |
| GraphDb.CreateConstraintIdempotent | hospital_neo4j_etl/src/hospital_bulk_csv_write.py:31 | IF NOT EXISTS: issuing the constraint a second time changes nothing and does not fail. |
| GraphDb.CreateConstraintHoldsOfData | hospital_neo4j_etl/src/hospital_bulk_csv_write.py:31-32 | Once the constraint is created, no two nodes of that label share an id, and id uniqueness holds for every constrained label. |
| GraphDb.MergeNode | hospital_neo4j_etl/src/hospital_bulk_csv_write.py:55-57 | A node MERGE succeeds exactly when the id and all properties are non-null and one of three things holds: some node matches the pattern (label, id, and each pattern property at its value), the label is unconstrained, or the id is unused. On success some node matches the pattern, and the new state is the old one if one already did, or else the old one plus the pattern's node. |
| GraphDb.MergeNodeOutcome | hospital_neo4j_etl/src/hospital_bulk_csv_write.py:55-57 | When a node matches the pattern, the graph is unchanged. Otherwise a successful MERGE adds exactly one node, the pattern's, and leaves relationships and constraints alone. |
| GraphDb.MergeNodeRejectsClash | hospital_neo4j_etl/src/hospital_bulk_csv_write.py:56 | Under the constraint, a MERGE whose pattern reuses the id of a stored node that it does not match fails with a constraint violation for that label and id. |
| GraphDb.MergeNodeIdempotent | hospital_neo4j_etl/src/hospital_bulk_csv_write.py:55-57 | Issuing a node MERGE again on the state it produced succeeds and changes nothing. |
| GraphDb.MatchingAtMostOne | hospital_neo4j_etl/src/hospital_bulk_csv_write.py:120-121 | With the label constrained and ids unique, `MATCH (n:L {id: x})` yields at most one node. |
| GraphDb.MatchedKeysEmpty | hospital_neo4j_etl/src/hospital_bulk_csv_write.py:120-122 | A relationship MERGE stands for no relationship exactly when one of its two MATCHes yields no node. |
| GraphDb.SetPropsNullFree | hospital_neo4j_etl/src/hospital_bulk_csv_write.py:156 | ON CREATE SET of non-null values stores exactly those assignments, and applying it to what it stored changes nothing. |
| GraphDb.MergeEdge | hospital_neo4j_etl/src/hospital_bulk_csv_write.py:119-123 | Relationship MERGE never changes nodes or constraints, and never alters a relationship that already exists. Afterwards every matched pair has the relationship. Every relationship it adds is a matched pair carrying the ON CREATE properties. |
| GraphDb.MergeEdgeAddsMissing | hospital_neo4j_etl/src/hospital_bulk_csv_write.py:152-156 | The new relationships are the old ones plus, for each matched pair that lacked one, a relationship with the ON CREATE properties. |
| GraphDb.MergeEdgeNoopWhenPresent | hospital_neo4j_etl/src/hospital_bulk_csv_write.py:122 | When every matched relationship already exists, MERGE leaves the graph unchanged. |
| GraphDb.MergeEdgeIdempotent | hospital_neo4j_etl/src/hospital_bulk_csv_write.py:119-123 | Merging the same record twice gives the same graph as merging it once. |
| GraphDb.MergeEdgeMissingEndpoint | hospital_neo4j_etl/src/hospital_bulk_csv_write.py:120-122 | When either endpoint is missing, the statement changes nothing and raises no error. |
| GraphDb.MergeEdgeKeepsFirstProps | hospital_neo4j_etl/src/hospital_bulk_csv_write.py:155-156 | A relationship that already exists keeps its properties; ON CREATE SET does not touch it. |
| GraphDb.MergeEdgeCreatesAtMostOne | hospital_neo4j_etl/src/hospital_bulk_csv_write.py:119-123 | With both end labels constrained and ids unique, one relationship MERGE creates at most one new relationship. |
| GraphDb.EdgeUniquePerEndpointIds | hospital_neo4j_etl/src/hospital_bulk_csv_write.py:119-123 | In a consistent graph with both end labels constrained, there is at most one relationship of a type between two (label, id) endpoints. |
| GraphDb.Apply | hospital_neo4j_etl/src/hospital_bulk_csv_write.py:30-180 | A relationship statement never fails. A failed constraint statement reports its label. A failed node MERGE reports its label, and it reports a null exactly when the id or a property of its pattern is null; otherwise it is a constraint violation. |
| GraphDb.ApplyGrows | hospital_neo4j_etl/src/hospital_bulk_csv_write.py:30-180 | No statement removes or alters a constraint, a node or a relationship's properties. A relationship statement leaves the nodes as they are. |
| GraphDb.ApplyPreservesConsistency | hospital_neo4j_etl/src/hospital_bulk_csv_write.py:30-180 | Every successful statement keeps three things true: ids are unique per constrained label, the graph has no nulls, and relationships connect stored nodes. |
| Store.GraphStore.CreateUniqueConstraint | hospital_neo4j_etl/src/hospital_bulk_csv_write.py:30-33 | The in-place constraint statement reports the error, or leaves the state, that `GraphDb.CreateConstraint` gives. A failure leaves the state untouched. |
| Store.GraphStore.MergeNode | hospital_neo4j_etl/src/hospital_bulk_csv_write.py:55-57 | The in-place node MERGE reports the error, or leaves the state, that `GraphDb.MergeNode` gives. A failure leaves the state untouched. |
| Store.GraphStore.MergeEdge | hospital_neo4j_etl/src/hospital_bulk_csv_write.py:152-158 | The in-place relationship MERGE leaves the state that `GraphDb.MergeEdge` gives. |
| Rows.Extract | hospital_neo4j_etl/src/hospital_bulk_csv_write.py:57 | Building the keyword arguments succeeds exactly when the record has every column. On success it yields one parameter per argument. Otherwise the error names the first missing column in argument order. |
| Rows.Bind | hospital_neo4j_etl/src/hospital_bulk_csv_write.py:94-97 | A pattern writes exactly its listed properties. Each one is the coerced text of its parameter: as is, `toInteger` or `toFloat`. |
| Load.NodesCoverLabels | hospital_neo4j_etl/src/hospital_bulk_csv_write.py:27 | `NODES` lists every label of the ontology, each once. |
| Load.ConstraintSteps | hospital_neo4j_etl/src/hospital_bulk_csv_write.py:47-48 | The constraint loop issues one statement per entry of `NODES`, and every label gets its constraint statement. |
| Load.NodeStep | hospital_neo4j_etl/src/hospital_bulk_csv_write.py:54-57 | A node record's step is a MERGE of the load's label whose properties are exactly the load's pattern properties, or it raises; a `KeyError` names a column the record lacks. |
| Load.EdgeStep | hospital_neo4j_etl/src/hospital_bulk_csv_write.py:118-123 | A relationship record's step is a MERGE of the load's type between the load's two labels, with exactly the load's ON CREATE properties, or it raises; a `KeyError` names a column the record lacks. |
| Load.BeforeEdges | hospital_neo4j_etl/src/hospital_bulk_csv_write.py:45-112 | Before its first relationship statement, one call issues the constraint statements first and then one statement per record of the six node files. |
| Load.Program | hospital_neo4j_etl/src/hospital_bulk_csv_write.py:45-180 | One call issues everything before the relationship loads first, then five statements per visit record and one per review record. |
| Load.StepRun | hospital_neo4j_etl/src/hospital_bulk_csv_write.py:54-57 | A step never takes data out of the store, and a step that raises leaves it as it was. |
| Load.Exec | hospital_neo4j_etl/src/hospital_bulk_csv_write.py:37-182 | Running statements in order never takes data out of the store, whether the run goes through or raises. |
| Load.ShapesOk | hospital_neo4j_etl/src/hospital_bulk_csv_write.py:55-180 | Each of the twelve loads passes every parameter once and uses only parameters it passes, so no statement fails for a missing parameter. It also sets no property twice. |
| Load.ExecAppend | hospital_neo4j_etl/src/hospital_bulk_csv_write.py:37-182 | Running two lists one after the other, stopping at the first exception, is the same as running their concatenation. |
| Load.StopsAt | hospital_neo4j_etl/src/hospital_bulk_csv_write.py:37-182 | An exception ends the call: no statement after the step that raised runs. |
| Load.RetryFrom | hospital_neo4j_etl/src/hospital_bulk_csv_write.py:36 | The decorator makes at most 100 attempts. A failure is reported only after all 100. The store never loses data between attempts. |
| Loader.SetUniquenessConstraints | hospital_neo4j_etl/src/hospital_bulk_csv_write.py:45-48 | The loop over `NODES` leaves the store, and raises what, the run of the six constraint statements defines. |
| Loader.NodeRow | hospital_neo4j_etl/src/hospital_bulk_csv_write.py:54-57 | One node-loop iteration, from record to MERGE, leaves the store and raises exactly what its step defines. |
| Loader.EdgeRow | hospital_neo4j_etl/src/hospital_bulk_csv_write.py:118-123 | One relationship-loop iteration leaves the store and raises exactly what its step defines. |
| Loader.LoadNodes | hospital_neo4j_etl/src/hospital_bulk_csv_write.py:50-57 | A node record loop equals the run of one step per record, in file order. It stops at the first exception. |
| Loader.LoadEdges | hospital_neo4j_etl/src/hospital_bulk_csv_write.py:114-123 | A relationship record loop equals the run of one step per record, in file order. It stops at the first exception. |
| Loader.NodeLoad | hospital_neo4j_etl/src/hospital_bulk_csv_write.py:50-112 | A node load after earlier steps continues their run, and it does not start if they raised. |
| Loader.EdgeLoad | hospital_neo4j_etl/src/hospital_bulk_csv_write.py:114-180 | A relationship load after earlier steps continues their run, and it does not start if they raised. |
| Loader.LoadNodePhase | hospital_neo4j_etl/src/hospital_bulk_csv_write.py:50-112 | The six node loads, in source order after the constraints, equal the run of that list. |
| Loader.LoadEdgePhase | hospital_neo4j_etl/src/hospital_bulk_csv_write.py:114-180 | The six relationship loads, in source order after the node loads, equal the run of the loader's whole list. |
| Loader.LoadHospitalGraph | hospital_neo4j_etl/src/hospital_bulk_csv_write.py:37-182 | One call of the loader leaves the store, and raises what, the run of its statement list defines. |
| Loader.LoadWithRetry | hospital_neo4j_etl/src/hospital_bulk_csv_write.py:36-37 | The retry loop's final store, its exception and its number of attempts are exactly those of the retry policy. |
| Replay.NoDropSame | hospital_neo4j_etl/src/hospital_bulk_csv_write.py:37-180 | A run during which the connection stays up is the undisturbed run. |
| Replay.DoneIgnoresDrop | hospital_neo4j_etl/src/hospital_bulk_csv_write.py:37-180 | A run that went through had no drop and equals the undisturbed run. |
| Replay.FailurePoint | hospital_neo4j_etl/src/hospital_bulk_csv_write.py:37-180 | A run that raised went through up to exactly one step. That step raised and left the store as it was. |
| Replay.NodesSettled | hospital_neo4j_etl/src/hospital_bulk_csv_write.py:114-180 | In a list in loader order, no node is added after the first relationship statement. |
| Replay.LaterNoop | hospital_neo4j_etl/src/hospital_bulk_csv_write.py:37-180 | In a prefix that went through, every statement changes nothing when re-issued against the prefix's final state. This holds for relationships too, because the nodes they match are already final. |
| Replay.ReplayPrefix | hospital_neo4j_etl/src/hospital_bulk_csv_write.py:37-180 | Replaying part of a prefix that went through, against its final state, changes nothing. A drop only cuts the replay short. |
| Replay.SplitAt | hospital_neo4j_etl/src/hospital_bulk_csv_write.py:37-180 | A run splits at any step into the run of the prefix, followed by the rest if the prefix went through. |
| Replay.Resume | hospital_neo4j_etl/src/hospital_bulk_csv_write.py:37-180 | Starting over from the state some prefix left ends exactly as the run from the original state. The exception is a drop inside that prefix, which leaves the state as it was. |
| Replay.RunIdempotent | hospital_neo4j_etl/src/hospital_bulk_csv_write.py:37-180 | A second undisturbed run after one that went through changes nothing. |
| Replay.InterruptedRunConverges | hospital_neo4j_etl/src/hospital_bulk_csv_write.py:36-180 | After a run that raised for any reason, an undisturbed run ends exactly as an undisturbed run from the original state would. |
| Replay.RetryFromPrefix | hospital_neo4j_etl/src/hospital_bulk_csv_write.py:36 | Retrying from a state some prefix left behaves as if attempts restarted from the original state: success equals the undisturbed run, and success comes by the first attempt with the connection up. If the undisturbed run raises, the retry ends in failure, the same failure when the last attempt is undisturbed. |
| LoadProperties.LayoutPhaseOrdered | hospital_neo4j_etl/src/hospital_bulk_csv_write.py:45-180 | A list with constraints first, then node statements, then relationship statements issues no node or constraint statement after a relationship statement. |
| LoadProperties.ProgramLayout | hospital_neo4j_etl/src/hospital_bulk_csv_write.py:45-180 | One call issues the six constraints in `NODES` order, then node statements only (one per record of the six files), then relationship statements only (five per visit record and one per review record). |
| LoadProperties.ProgramPhaseOrdered | hospital_neo4j_etl/src/hospital_bulk_csv_write.py:50-180 | No node or constraint statement of the call comes after its first relationship statement. |
| LoadProperties.ProgramDirected | hospital_neo4j_etl/src/hospital_bulk_csv_write.py:119-180 | Each relationship statement runs from and to the labels its type names, e.g. Visit-AT->Hospital and Physician-TREATS->Visit. |
| LoadProperties.NodesFixedAfter | hospital_neo4j_etl/src/hospital_bulk_csv_write.py:114-180 | When only relationship statements follow a position, the nodes do not change after it. |
| LoadProperties.NodesFinalFrom | hospital_neo4j_etl/src/hospital_bulk_csv_write.py:114-180 | When only relationship statements follow a position, the nodes at every later point equal the final nodes. |
| LoadProperties.EdgesSeeAllNodes | hospital_neo4j_etl/src/hospital_bulk_csv_write.py:50-180 | In a load that goes through, every relationship statement runs against the final set of nodes. Every node is loaded before the first relationship. |
| LoadProperties.ConstraintsFirstHold | hospital_neo4j_etl/src/hospital_bulk_csv_write.py:45-48 | A list that starts with one constraint per label of `NODES` and goes through leaves every label constrained. |
| LoadProperties.LoadConstrainsAllLabels | hospital_neo4j_etl/src/hospital_bulk_csv_write.py:45-48 | A load that goes through leaves all six labels under their uniqueness constraint. |
| LoadProperties.ExecPreservesConsistency | hospital_neo4j_etl/src/hospital_bulk_csv_write.py:37-180 | Whether it goes through or raises, any run keeps the store consistent. |
| LoadProperties.LoadedKeysUnique | hospital_neo4j_etl/src/hospital_bulk_csv_write.py:30-180 | After a load that goes through from a consistent store, two properties hold. Nodes of a label never share an id. There is at most one relationship of a type between two (label, id) endpoints. |
| LoadProperties.ExecKeepsDirected | hospital_neo4j_etl/src/hospital_bulk_csv_write.py:119-180 | Running directed statements keeps every stored relationship in its type's direction. |
| LoadProperties.LoadedEdgesDirected | hospital_neo4j_etl/src/hospital_bulk_csv_write.py:119-180 | Whether it goes through or not, a load stores relationships only in the directions the statements are written in. |
| LoadProperties.LoadIdempotent | hospital_neo4j_etl/src/hospital_bulk_csv_write.py:37-180 | Loading unchanged files again after a load that went through changes nothing and does not fail. |
| LoadProperties.RerunAfterInterruption | hospital_neo4j_etl/src/hospital_bulk_csv_write.py:36-180 | A load that raised part-way, followed by an undisturbed load, ends exactly as one undisturbed load. |
| LoadProperties.RetryEndsAsOneRun | hospital_neo4j_etl/src/hospital_bulk_csv_write.py:36 | Whatever the connection does across the 100 attempts, a retried load that ends well leaves exactly what one undisturbed load leaves. |
| LoadProperties.RetrySucceedsByCleanAttempt | hospital_neo4j_etl/src/hospital_bulk_csv_write.py:36 | If an undisturbed load would go through, the retried load goes through, by the first attempt whose connection stays up at the latest. |
| LoadProperties.RetryGivesUp | hospital_neo4j_etl/src/hospital_bulk_csv_write.py:36 | If an undisturbed load would raise, all 100 attempts are made and the retry fails. When the last attempt is undisturbed, it raises what the undisturbed load raises. |
| LoadProperties.ColumnFor | hospital_neo4j_etl/src/hospital_bulk_csv_write.py:57 | The column a keyword argument reads is the column of an argument with that parameter name. |
| LoadProperties.ExtractReads | hospital_neo4j_etl/src/hospital_bulk_csv_write.py:57 | A parameter holds the text of the record's cell in the column it is read from. |
| LoadProperties.NodeStepMeaning | hospital_neo4j_etl/src/hospital_bulk_csv_write.py:55-57 | A node record's step raises `KeyError` exactly when a column is missing. Otherwise it is a MERGE for the load's label whose id is `toInteger` of the id column. Its properties are the load's, each the coerced cell of its column. |
| LoadProperties.EdgeStepMeaning | hospital_neo4j_etl/src/hospital_bulk_csv_write.py:119-123 | A relationship record's step raises `KeyError` exactly when a column is missing. Otherwise it is a MERGE of the load's type, from the first label to the second, with `toInteger` ids read from the endpoint columns and ON CREATE properties read from their columns. |
| LoadProperties.ColumnForAt | hospital_neo4j_etl/src/hospital_bulk_csv_write.py:57 | With distinct parameter names, each parameter is read from the column its argument names. |
| LoadProperties.HospitalMapping | hospital_neo4j_etl/src/hospital_bulk_csv_write.py:55-57 | The Hospital load reads the id from hospital_id, `name` from hospital_name and `state_name` from hospital_state, both as text. |
| LoadProperties.PayerMapping | hospital_neo4j_etl/src/hospital_bulk_csv_write.py:64-66 | The Payer load reads the id from payer_id and `name` from payer_name. |
| LoadProperties.PhysicianMapping | hospital_neo4j_etl/src/hospital_bulk_csv_write.py:73-76 | The Physician load reads the id from physician_id; name, dob and grad_year from the physician_ columns as text, school from medical_school, and salary through `toFloat`. |
| LoadProperties.PatientMapping | hospital_neo4j_etl/src/hospital_bulk_csv_write.py:83-86 | The Patient load reads the id from patient_id and name, sex, dob and blood_type from the patient_ columns, as text. |
| LoadProperties.VisitMapping | hospital_neo4j_etl/src/hospital_bulk_csv_write.py:93-101 | The Visit load reads the id from visit_id, room_number through `toInteger`, admission_date from date_of_admission, status from visit_status, diagnosis from primary_diagnosis, and the other properties from their own columns as text. |
| LoadProperties.ReviewMapping | hospital_neo4j_etl/src/hospital_bulk_csv_write.py:108-112 | The Review load reads the id from review_id, `text` from the review column, and the three names from their own columns as text. |
| LoadProperties.AtMapping | hospital_neo4j_etl/src/hospital_bulk_csv_write.py:119-123 | AT runs from the Visit of visit_id to the Hospital of hospital_id and sets no property. |
| LoadProperties.WritesMapping | hospital_neo4j_etl/src/hospital_bulk_csv_write.py:130-134 | WRITES runs from the Visit of visit_id to the Review of review_id and sets no property. |
| LoadProperties.TreatsMapping | hospital_neo4j_etl/src/hospital_bulk_csv_write.py:141-145 | TREATS runs from the Physician of physician_id to the Visit of visit_id and sets no property. |
| LoadProperties.CoveredByMapping | hospital_neo4j_etl/src/hospital_bulk_csv_write.py:152-158 | COVERED_BY runs from the Visit of visit_id to the Payer of payer_id; on creation it sets service_date from discharge_date as text and billing_amount through `toFloat`. |
| LoadProperties.HasMapping | hospital_neo4j_etl/src/hospital_bulk_csv_write.py:165-169 | HAS runs from the Patient of patient_id to the Visit of visit_id and sets no property. |
| LoadProperties.EmploysMapping | hospital_neo4j_etl/src/hospital_bulk_csv_write.py:176-180 | EMPLOYS runs from the Hospital of hospital_id to the Physician of physician_id and sets no property. |
| LoadProperties.EdgeFieldFrom | hospital_neo4j_etl/src/hospital_bulk_csv_write.py:156-158 | An ON CREATE property takes the coerced text of the column its parameter is read from. |
| LoadProperties.EdgeEndsFrom | hospital_neo4j_etl/src/hospital_bulk_csv_write.py:120-123 | The two MATCHes look up `toInteger` of the endpoint columns. |
| LoadProperties.CoveredByColumns | hospital_neo4j_etl/src/hospital_bulk_csv_write.py:157-158 | A COVERED_BY record needs exactly four columns: visit_id, payer_id, discharge_date and billing_amount. |
| LoadProperties.CoveredByOnCreate | hospital_neo4j_etl/src/hospital_bulk_csv_write.py:156-158 | COVERED_BY's ON CREATE SET is exactly service_date (discharge_date, as is) and billing_amount (billing_amount, through `toFloat`). |
| LoadProperties.CoveredByServiceDate | hospital_neo4j_etl/src/hospital_bulk_csv_write.py:156-158 | service_date is the discharge_date text of the record. |
| LoadProperties.CoveredByBillingAmount | hospital_neo4j_etl/src/hospital_bulk_csv_write.py:156-158 | billing_amount is `toFloat` of the billing_amount text. |
| LoadProperties.CoveredByRecordMapping | hospital_neo4j_etl/src/hospital_bulk_csv_write.py:152-158 | A COVERED_BY record succeeds exactly when it has the four columns. It then yields Visit-COVERED_BY->Payer, with both ids through `toInteger` and the service date and billing amount as above. |
| LoadProperties.CoveredByFirstRecordWins | hospital_neo4j_etl/src/hospital_bulk_csv_write.py:155-158 | For two COVERED_BY records with the same visit and payer, the relationship keeps the first record's properties, including its discharge date as service_date. The second record changes nothing about it. |

## Left out

- Environment variables, logging and the module-level configuration (lines 8-25) produce no graph state, so they are not modelled.
- Opening the files and `csv.DictReader` are not modelled. Each file is given as its sequence of records (`Load.Csvs`), each record a map from column name to text.
- Creating the driver and sessions, and `driver.close()` (lines 41-43, 46, 53, 182), are left out. The store is one shared `GraphStore`, and releasing the connection has no effect on the graph.
- The driver's own retry of transient errors inside `execute_write` is left out. A connection drop is modelled as `dropsAt`, the count of statements after which the connection fails, and it surfaces as an exception.
- The ten-second delay between attempts is not modelled, because the model has no clock.
- Parsing by Cypher's `toInteger` and `toFloat` is left out. The two functions are given as parameters (`Rows.Conversions`), with `None` standing for null.
- Floating-point values are opaque 64-bit patterns. No arithmetic is done on them, and their comparison is the structural one described below.
- Transactions, concurrent writers and the session's auto-commit batching are not modelled. Each statement is atomic and applied in order.
- The `__main__` entry point (lines 185-186) is a single call, `Loader.LoadWithRetry`.
- The `MissingParameter` error (a statement naming a parameter the call does not pass) is modelled only so the step function is total. `Load.ShapesOk` shows none of the twelve loads can raise it.
- The store is a set of nodes and a map from (type, from-node, to-node) to properties. It cannot hold two identical nodes, or two parallel relationships of one type between the same nodes. A database that already holds such duplicates is outside the model, and the lemmas about an arbitrary starting graph speak about stores of this form.
- Values are compared structurally. Floats are equal exactly when their 64-bit patterns are, and an integer never equals a float. Cypher's own equality (NaN equal to nothing, 0.0 equal to -0.0, 1 equal to 1.0) is not modelled. With a physician salary whose `toFloat` is NaN, a re-issued Physician MERGE in Neo4j matches no node and, under the constraint, raises. The billing amount is set only on creation and takes no part in matching. So `LoadProperties.LoadIdempotent`, `LoadProperties.RerunAfterInterruption`, `LoadProperties.RetryEndsAsOneRun`, `LoadProperties.RetrySucceedsByCleanAttempt`, `Replay.RunIdempotent`, `Replay.InterruptedRunConverges` and `Replay.Resume` hold in Neo4j only for data that yields no NaN.
- A failure after the last statement of a call was applied (a lost acknowledgement, or an error while closing a session or in `driver.close()`) cannot be represented: a drop only stops the statements not yet sent. Such a call would raise after leaving the same store as a call that went through, and a retry re-issues only statements that change nothing.
