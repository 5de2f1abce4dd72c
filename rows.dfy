/** From a CSV record to the values a statement writes, in two stages as
    the loader does it: the keyword arguments `name=row['column']` pick
    cells out of the record (a missing column raises KeyError), and the
    statement text turns each parameter into a property value, either as
    it is (`$name`) or through Cypher's `toInteger` / `toFloat`. */
module Rows {
  import opened Wrappers
  import opened GraphDb

  /** A CSV record as csv.DictReader yields it: column name to cell text. */
  type Row = map<string, string>

  /** The parameters a statement is run with: parameter name to text. */
  type Params = map<string, string>

  /** The keyword argument `param=row['column']`. */
  datatype Column = Column(param: string, column: string)

  function ParamNames(cols: seq<Column>): set<string> {
    set c | c in cols :: c.param
  }

  predicate DistinctParams(cols: seq<Column>) {
    forall i, j :: 0 <= i < j < |cols| ==> cols[i].param != cols[j].param
  }

  /** Evaluates the keyword arguments left to right, as Python does: the
      first column, in argument order, that the record lacks is the
      KeyError raised. */
  function Extract(row: Row, cols: seq<Column>): (r: Result<Params, string>)
    ensures r.Ok? <==> forall i :: 0 <= i < |cols| ==> cols[i].column in row
    ensures r.Ok? ==> r.value.Keys == ParamNames(cols)
    ensures r.Err? ==>
      exists i :: 0 <= i < |cols| && cols[i].column == r.error && r.error !in row &&
                  (forall j :: 0 <= j < i ==> cols[j].column in row)
  {
    if cols == [] then Ok(map[])
    else if cols[0].column !in row then Err(cols[0].column)
    else
      match Extract(row, cols[1..])
      case Err(c) =>
        assert forall j :: 0 <= j < |cols| - 1 ==> cols[1..][j] == cols[j + 1];
        Err(c)
      case Ok(rest) =>
        assert forall j :: 0 <= j < |cols| - 1 ==> cols[1..][j] == cols[j + 1];
        assert ParamNames(cols) == {cols[0].param} + ParamNames(cols[1..]);
        Ok(rest[cols[0].param := row[cols[0].column]])
  }

  /** How a statement uses a parameter: `$p`, `toInteger($p)` or `toFloat($p)`. */
  datatype Coercion = AsIs | ToInteger | ToFloat

  /** Cypher's `toInteger` and `toFloat` on strings. This model does not
      define number parsing: the two functions are given, and `None` is the
      null they return for text that is not a number. */
  datatype Conversions = Conversions(toInteger: string -> Option<int>, toFloat: string -> Option<bv64>)

  /** The value a parameter contributes, after its coercion. */
  function Coerce(conv: Conversions, c: Coercion, s: string): Value {
    match c
    case AsIs => Str(s)
    case ToInteger => (match conv.toInteger(s) case Some(i) => Int(i) case None => Null)
    case ToFloat => (match conv.toFloat(s) case Some(f) => Float(f) case None => Null)
  }

  /** The property `property: coercion($param)` of a pattern or an ON CREATE SET. */
  datatype Binding = Binding(property: string, coercion: Coercion, param: string)

  function PropertyNames(bs: seq<Binding>): set<string> {
    set b | b in bs :: b.property
  }

  predicate DistinctProperties(bs: seq<Binding>) {
    forall i, j :: 0 <= i < j < |bs| ==> bs[i].property != bs[j].property
  }

  predicate BindsFrom(bs: seq<Binding>, names: set<string>) {
    forall i :: 0 <= i < |bs| ==> bs[i].param in names
  }

  /** The property map the bindings write, given the statement's parameters. */
  function Bind(conv: Conversions, bs: seq<Binding>, params: Params): (r: Props)
    requires BindsFrom(bs, params.Keys)
    ensures r.Keys == PropertyNames(bs)
    ensures DistinctProperties(bs) ==>
      forall i :: 0 <= i < |bs| ==> r[bs[i].property] == Coerce(conv, bs[i].coercion, params[bs[i].param])
  {
    if bs == [] then map[]
    else
      assert forall j :: 0 <= j < |bs| - 1 ==> bs[1..][j] == bs[j + 1];
      assert PropertyNames(bs) == {bs[0].property} + PropertyNames(bs[1..]);
      Bind(conv, bs[1..], params)[bs[0].property := Coerce(conv, bs[0].coercion, params[bs[0].param])]
  }
}
