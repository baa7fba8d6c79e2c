/**
 * The mapping from script variables to a record schema: every script-side
 * variable becomes one column, in variable order, whose column type is given
 * by the variable's type tag.
 */
module PythonSchema {
  import opened Wrappers
  import opened StepErrors

  /** The shape of an n-dimensional array; its contents are not modelled. */
  type Shape = seq<int>

  /** Script-side type tags. `Other` stands for any tag outside the seven the table maps. */
  datatype PythonType = INT | FLOAT | STR | DICT | LIST | NDARRAY | BOOL | Other(tagName: string)

  /** A script variable: its name, its type tag and, for an array, the shape of the bound value if any. */
  datatype Variable = Variable(name: string, pyType: PythonType, ndValue: Option<Shape>)

  /** Column types of a record schema. */
  datatype ColumnType = LongColumn | DoubleColumn | StringColumn | BooleanColumn | NDArrayColumn(shape: Shape)

  datatype Column = Column(name: string, columnType: ColumnType)

  /** A schema is an ordered list of named, typed columns. */
  type Schema = seq<Column>

  /** The shape given to an array column whose variable has no bound value. */
  const UnresolvedShape: Shape := [1, 1]

  function TagName(t: PythonType): string {
    match t
    case INT => "INT"
    case FLOAT => "FLOAT"
    case STR => "STR"
    case DICT => "DICT"
    case LIST => "LIST"
    case NDARRAY => "NDARRAY"
    case BOOL => "BOOL"
    case Other(n) => n
  }

  predicate Supported(t: PythonType) {
    !t.Other?
  }

  /** The type table: the column type a variable maps to, or None for an unsupported tag. */
  function ColumnTypeOf(v: Variable): Option<ColumnType> {
    match v.pyType
    case INT => Some(LongColumn)
    case FLOAT => Some(DoubleColumn)
    case STR | DICT | LIST => Some(StringColumn)
    case NDARRAY => Some(NDArrayColumn(if v.ndValue.Some? then v.ndValue.value else UnresolvedShape))
    case BOOL => Some(BooleanColumn)
    case Other(_) => None
  }

  /** The table is total on the seven supported tags and sends each to the column kind it names. */
  lemma TypeTable(v: Variable)
    ensures ColumnTypeOf(v).Some? <==> Supported(v.pyType)
    ensures v.pyType == INT ==> ColumnTypeOf(v) == Some(LongColumn)
    ensures v.pyType == FLOAT ==> ColumnTypeOf(v) == Some(DoubleColumn)
    ensures v.pyType in {STR, DICT, LIST} ==> ColumnTypeOf(v) == Some(StringColumn)
    ensures v.pyType == BOOL ==> ColumnTypeOf(v) == Some(BooleanColumn)
    ensures v.pyType == NDARRAY && v.ndValue.Some? ==> ColumnTypeOf(v) == Some(NDArrayColumn(v.ndValue.value))
    ensures v.pyType == NDARRAY && v.ndValue.None? ==> ColumnTypeOf(v) == Some(NDArrayColumn([1, 1]))
  {
  }

  /**
   * The schema built from a list of variables: one column per variable, in
   * order, failing on the first variable whose tag is not supported.
   */
  function SchemaFor(vars: seq<Variable>): Result<Schema, Error>
    decreases |vars|
  {
    if |vars| == 0 then Ok([])
    else
      var columns :- SchemaFor(vars[..|vars| - 1]);
      var v := vars[|vars| - 1];
      match ColumnTypeOf(v)
      case None => Err(UnsupportedType(TagName(v.pyType)))
      case Some(ct) => Ok(columns + [Column(v.name, ct)])
  }

  /** A successful schema has exactly one column per variable, with the variable's name and mapped type. */
  lemma {:induction false} SchemaForColumns(vars: seq<Variable>)
    requires SchemaFor(vars).Ok?
    ensures |SchemaFor(vars).value| == |vars|
    ensures forall i :: 0 <= i < |vars| ==>
      ColumnTypeOf(vars[i]).Some? && SchemaFor(vars).value[i] == Column(vars[i].name, ColumnTypeOf(vars[i]).value)
  {
    if |vars| > 0 {
      var init := vars[..|vars| - 1];
      SchemaForColumns(init);
      forall i | 0 <= i < |vars| - 1
        ensures vars[i] == init[i]
      {
      }
    }
  }

  /** Building the schema succeeds exactly when every variable's tag is supported. */
  lemma {:induction false} SchemaForSucceedsIff(vars: seq<Variable>)
    ensures SchemaFor(vars).Ok? <==> forall i :: 0 <= i < |vars| ==> Supported(vars[i].pyType)
  {
    if |vars| > 0 {
      var init := vars[..|vars| - 1];
      SchemaForSucceedsIff(init);
      assert forall i :: 0 <= i < |init| ==> init[i] == vars[i];
    }
  }

  /** When building fails, it fails with the tag of the first unsupported variable. */
  lemma {:induction false} SchemaForFirstUnsupported(vars: seq<Variable>, k: nat)
    requires k < |vars| && !Supported(vars[k].pyType)
    requires forall j :: 0 <= j < k ==> Supported(vars[j].pyType)
    ensures SchemaFor(vars) == Err(UnsupportedType(TagName(vars[k].pyType)))
  {
    var init := vars[..|vars| - 1];
    if k < |vars| - 1 {
      assert init[k] == vars[k];
      SchemaForFirstUnsupported(init, k);
    } else {
      SchemaForSucceedsIff(init);
      assert forall i :: 0 <= i < |init| ==> init[i] == vars[i];
    }
  }

  /** Once a prefix of the variables fails, the whole list fails with the same error. */
  lemma {:induction false} SchemaForPrefixFailure(vars: seq<Variable>, n: nat)
    requires n <= |vars| && SchemaFor(vars[..n]).Err?
    ensures SchemaFor(vars) == SchemaFor(vars[..n])
    decreases |vars| - n
  {
    if n < |vars| {
      var init := vars[..|vars| - 1];
      assert init[..n] == vars[..n];
      SchemaForPrefixFailure(init, n);
    } else {
      assert vars[..n] == vars;
    }
  }

  /**
   * Builds the schema column by column, as a schema builder would: one
   * column appended per variable, in order, or the unsupported tag's error.
   */
  method SchemaForVariables(vars: seq<Variable>) returns (r: Result<Schema, Error>)
    ensures r == SchemaFor(vars)
  {
    var columns: Schema := [];
    var i := 0;
    while i < |vars|
      invariant 0 <= i <= |vars|
      invariant SchemaFor(vars[..i]) == Ok(columns)
    {
      var v := vars[i];
      assert vars[..i + 1][..i] == vars[..i];
      match v.pyType {
        case INT =>
          columns := columns + [Column(v.name, LongColumn)];
        case FLOAT =>
          columns := columns + [Column(v.name, DoubleColumn)];
        case STR =>
          columns := columns + [Column(v.name, StringColumn)];
        case DICT =>
          columns := columns + [Column(v.name, StringColumn)];
        case LIST =>
          columns := columns + [Column(v.name, StringColumn)];
        case NDARRAY =>
          if v.ndValue.None? {
            columns := columns + [Column(v.name, NDArrayColumn(UnresolvedShape))];
          } else {
            columns := columns + [Column(v.name, NDArrayColumn(v.ndValue.value))];
          }
        case BOOL =>
          columns := columns + [Column(v.name, BooleanColumn)];
        case Other(tag) =>
          SchemaForPrefixFailure(vars, i + 1);
          return Err(UnsupportedType(tag));
      }
      i := i + 1;
    }
    assert vars[..i] == vars;
    return Ok(columns);
  }
}
