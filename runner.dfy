/**
 * The Python step runner itself: construction fills its transform table
 * entry by entry, and `Transform` fills a freshly allocated output array
 * position by position. Both are proved against the specifications in
 * `Construction` and `Execution`.
 */
module Runner {
  import opened Wrappers
  import opened StepErrors
  import opened PythonSchema
  import opened StepConfig
  import opened Records
  import opened Construction
  import opened Execution

  /** The process-wide property holding the interpreter's search path. */
  class SystemProperties {
    var pythonPath: Option<string>
    /** How many times the path has been written. */
    ghost var pythonPathWrites: nat

    constructor (initial: Option<string>)
      ensures pythonPath == initial && pythonPathWrites == 0
    {
      pythonPath := initial;
      pythonPathWrites := 0;
    }

    method SetPythonPath(path: string)
      modifies this
      ensures pythonPath == Some(path)
      ensures pythonPathWrites == old(pythonPathWrites) + 1
    {
      pythonPath := Some(path);
      pythonPathWrites := pythonPathWrites + 1;
    }
  }

  class PythonStepRunner {
    const pipelineStep: PythonStep
    /** The transform bound to each input name that has one. */
    var pythonTransform: map<string, TransformUnit>

    /** Every input name with a bound transform is declared by the step. */
    ghost predicate Valid()
      reads this
    {
      forall name :: name in pythonTransform ==> HasInputName(pipelineStep, name)
    }

    /** A runner for the step with an empty transform table. */
    constructor (step: PythonStep)
      ensures pipelineStep == step && pythonTransform == map[] && Valid()
    {
      pipelineStep := step;
      pythonTransform := map[];
    }

    /** Binds a transform to a declared input name, replacing any earlier one. */
    method Put(name: string, unit: TransformUnit)
      requires Valid() && HasInputName(pipelineStep, name)
      modifies this
      ensures pythonTransform == old(pythonTransform)[name := unit]
      ensures Valid()
    {
      pythonTransform := pythonTransform[name := unit];
    }

    /**
     * Transforms a batch: a new array of the same length whose position i
     * holds the bound transform's output or the input record, or the error
     * of the first failing position.
     */
    method Transform(input: array<Record>, run: Interpreter) returns (r: Result<array<Record>, Error>)
      ensures r.Ok? ==> fresh(r.value) && r.value.Length == input.Length
      ensures r.Ok? ==> TransformBatch(pythonTransform, pipelineStep, input[..], run) == Ok(r.value[..])
      ensures r.Err? ==> TransformBatch(pythonTransform, pipelineStep, input[..], run) == Err(r.error)
    {
      var ret := new Record[input.Length];
      var i := 0;
      while i < ret.Length
        invariant 0 <= i <= ret.Length
        invariant TransformPrefix(pythonTransform, pipelineStep, input[..], run, i) == Ok(ret[..i])
      {
        var name := InputNameAt(pipelineStep, i);
        if name.None? {
          PrefixFailureIsFinal(pythonTransform, pipelineStep, input[..], run, i + 1, input.Length);
          return Err(InputNameOutOfRange(i));
        }
        if name.value in pythonTransform {
          var unit := pythonTransform[name.value];
          var values := input[i].values;
          if values.None? || |values.value| == 0 {
            PrefixFailureIsFinal(pythonTransform, pipelineStep, input[..], run, i + 1, input.Length);
            return Err(EmptyRecord(i));
          }
          ret[i] := Record(Some(run(unit, values.value)), None);
        } else {
          ret[i] := input[i];
        }
        assert ret[..i + 1] == ret[..i] + [ret[i]];
        i := i + 1;
      }
      assert ret[..] == ret[..i];
      return Ok(ret);
    }

    /** Releases nothing: the runner holds no resources of its own. */
    method Close()
      ensures pythonTransform == old(pythonTransform)
    {
    }

    /** Processing a single writable is not supported by this runner. */
    method ProcessValidWritable(writable: Writable, rec: seq<Writable>, inputIndex: int) returns (r: Result<(), Error>)
      ensures r == Err(UnsupportedOperation)
    {
      return Err(UnsupportedOperation);
    }
  }

  /**
   * Compiles one script configuration in the runner's order of steps:
   * resolve the code (inline code first, else the code file), reject null or
   * empty code, build the input schema, then select the outputs.
   */
  method CompileEntry(c: PythonConfig, readFile: FileReader) returns (r: Result<TransformUnit, Error>)
    ensures r == CompileUnit(c, readFile)
  {
    var code := c.pythonCode;
    if code.None? {
      if c.pythonCodePath.None? {
        return Err(NullCodePath);
      }
      code := readFile(c.pythonCodePath.value);
    }
    if code.None? {
      return Err(NoCode);
    }
    if |code.value| == 0 {
      return Err(EmptyCode);
    }

    var inputs := c.pythonInputs;
    var inputSchema: Option<Schema> := None;
    if inputs.Some? {
      var s := SchemaForVariables(inputs.value);
      if s.Err? {
        return Err(s.error);
      }
      inputSchema := Some(s.value);
    }

    var outputs: Option<seq<Variable>> := None;
    var outputSchema: Option<Schema> := None;
    if c.pythonOutputs.Some? {
      if |c.pythonOutputs.value| == 0 {
        if inputs.None? {
          return Err(NullInputVariables);
        }
        var s := SchemaForVariables(inputs.value);
        outputs := inputs;
        outputSchema := Some(s.value);
      } else {
        var s := SchemaForVariables(c.pythonOutputs.value);
        if s.Err? {
          return Err(s.error);
        }
        outputs := c.pythonOutputs;
        outputSchema := Some(s.value);
      }
    }
    return Ok(TransformUnit(code.value, inputs, inputSchema, outputs, outputSchema, c.returnAllInputs, c.setupAndRun));
  }

  /**
   * Constructs a runner for a Python step: for each script configuration in
   * turn, check its input name, write the interpreter path if this is the
   * first configuration with one, resolve the code, build the schemas and
   * bind the compiled transform. The first failure aborts construction.
   */
  method NewPythonStepRunner(step: PythonStep, readFile: FileReader, props: SystemProperties)
    returns (r: Result<PythonStepRunner, Error>)
    modifies props
    ensures var b := Build(step, readFile);
      && (r.Ok? <==> b.failure.None?)
      && (r.Err? ==> b.failure == Some(r.error))
      && (r.Ok? ==> fresh(r.value) && r.value.pipelineStep == step && r.value.pythonTransform == b.table && r.value.Valid())
      && props.pythonPath == (if b.pythonPath.Some? then b.pythonPath else old(props.pythonPath))
      && props.pythonPathWrites == old(props.pythonPathWrites) + (if b.pythonPath.Some? then 1 else 0)
  {
    var runner := new PythonStepRunner(step);
    var configs := step.pythonConfigs;
    var setPath := false;
    ghost var written: Option<string> := None;
    var failure: Option<Error> := None;
    var i := 0;
    while i < |configs| && failure.None?
      invariant 0 <= i <= |configs|
      invariant fresh(runner) && runner.pipelineStep == step && runner.Valid()
      invariant BuildPrefix(step, readFile, i) == Progress(runner.pythonTransform, written, failure)
      invariant setPath <==> written.Some?
      invariant props.pythonPath == (if written.Some? then written else old(props.pythonPath))
      invariant props.pythonPathWrites == old(props.pythonPathWrites) + (if written.Some? then 1 else 0)
    {
      var entry := configs[i];
      if !HasInputName(step, entry.name) {
        failure := Some(InvalidInputName(entry.name));
      } else {
        if entry.config.pythonPath.Some? && !setPath {
          props.SetPythonPath(entry.config.pythonPath.value);
          setPath := true;
          written := entry.config.pythonPath;
        }
        var compiled := CompileEntry(entry.config, readFile);
        if compiled.Err? {
          failure := Some(compiled.error);
        } else {
          runner.Put(entry.name, compiled.value);
        }
      }
      i := i + 1;
    }
    if failure.Some? {
      FailureIsFinal(step, readFile, i, |configs|);
      return Err(failure.value);
    }
    return Ok(runner);
  }
}
