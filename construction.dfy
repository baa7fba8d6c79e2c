/**
 * Construction of a Python step runner, as a specification: each script
 * configuration is checked and compiled into a transform unit, entry by
 * entry, stopping at the first failure, while the interpreter path is taken
 * from the first entry that supplies one.
 */
module Construction {
  import opened Wrappers
  import opened StepErrors
  import opened PythonSchema
  import opened StepConfig

  /** Reads a file's text; `None` when reading fails with an I/O error. */
  type FileReader = string -> Option<string>

  /**
   * The script's source code: the inline code when present, otherwise the
   * contents of the code file. Absent or empty code is an error.
   */
  function ResolveCode(c: PythonConfig, readFile: FileReader): (r: Result<string, Error>)
    ensures r.Ok? ==> |r.value| > 0
    ensures c.pythonCode.Some? ==> r == (if |c.pythonCode.value| > 0 then Ok(c.pythonCode.value) else Err(EmptyCode))
    ensures c.pythonCode.None? && c.pythonCodePath.None? ==> r == Err(NullCodePath)
    ensures c.pythonCode.None? && c.pythonCodePath.Some? ==>
      (readFile(c.pythonCodePath.value).None? ==> r == Err(NoCode)) &&
      (r.Ok? ==> Some(r.value) == readFile(c.pythonCodePath.value))
    ensures c.pythonCode.None? && c.pythonCodePath.Some? && readFile(c.pythonCodePath.value).Some? ==>
      r == (if |readFile(c.pythonCodePath.value).value| > 0 then Ok(readFile(c.pythonCodePath.value).value) else Err(EmptyCode))
  {
    if c.pythonCode.None? && c.pythonCodePath.None? then Err(NullCodePath)
    else
      var code := if c.pythonCode.Some? then c.pythonCode else readFile(c.pythonCodePath.value);
      if code.None? then Err(NoCode)
      else if |code.value| == 0 then Err(EmptyCode)
      else Ok(code.value)
  }

  /** Inline code is used as is: the outcome does not depend on the file system at all. */
  lemma InlineCodeIgnoresFiles(c: PythonConfig, files1: FileReader, files2: FileReader)
    requires c.pythonCode.Some?
    ensures ResolveCode(c, files1) == ResolveCode(c, files2)
  {
  }

  /** The schema of an optional variable list: none when the list is null. */
  function OptionalSchema(vars: Option<seq<Variable>>): (r: Result<Option<Schema>, Error>)
    ensures vars.None? ==> r == Ok(None)
    ensures vars.Some? ==> (r.Ok? <==> SchemaFor(vars.value).Ok?)
    ensures vars.Some? && r.Ok? ==> r.value == Some(SchemaFor(vars.value).value)
  {
    if vars.None? then Ok(None)
    else
      var s :- SchemaFor(vars.value);
      Ok(Some(s))
  }

  /**
   * Compiles one script configuration: resolve the code, build the input
   * schema, then select the output variables and schema. A present but
   * empty output list falls back to the input variables; an absent one
   * leaves the outputs unset.
   */
  function CompileUnit(c: PythonConfig, readFile: FileReader): Result<TransformUnit, Error> {
    var code :- ResolveCode(c, readFile);
    var inputSchema :- OptionalSchema(c.pythonInputs);
    if c.pythonOutputs.None? then
      Ok(TransformUnit(code, c.pythonInputs, inputSchema, None, None, c.returnAllInputs, c.setupAndRun))
    else if |c.pythonOutputs.value| == 0 then
      if c.pythonInputs.None? then Err(NullInputVariables)
      else Ok(TransformUnit(code, c.pythonInputs, inputSchema, c.pythonInputs, inputSchema, c.returnAllInputs, c.setupAndRun))
    else
      var outputSchema :- SchemaFor(c.pythonOutputs.value);
      Ok(TransformUnit(code, c.pythonInputs, inputSchema, c.pythonOutputs, Some(outputSchema), c.returnAllInputs, c.setupAndRun))
  }

  /**
   * What a compiled unit holds: the resolved code, the flags, an input
   * schema with one column per input variable, and the output selection
   * (fallback to the inputs when the declared outputs are empty, the
   * declared outputs when non-empty, nothing when absent).
   */
  lemma CompiledUnit(c: PythonConfig, readFile: FileReader)
    requires CompileUnit(c, readFile).Ok?
    ensures var u := CompileUnit(c, readFile).value;
      && ResolveCode(c, readFile) == Ok(u.code)
      && u.returnAllInputs == c.returnAllInputs && u.setupAndRun == c.setupAndRun
      && u.inputs == c.pythonInputs
      && (c.pythonInputs.None? <==> u.inputSchema.None?)
      && (c.pythonInputs.Some? ==>
            u.inputSchema == Some(SchemaFor(c.pythonInputs.value).value) && |u.inputSchema.value| == |c.pythonInputs.value|)
      && (c.pythonOutputs == Some([]) ==> u.outputs == u.inputs && u.outputSchema == u.inputSchema && u.inputs.Some?)
      && (c.pythonOutputs.Some? && |c.pythonOutputs.value| > 0 ==>
            u.outputs == c.pythonOutputs && u.outputSchema == Some(SchemaFor(c.pythonOutputs.value).value)
            && |u.outputSchema.value| == |c.pythonOutputs.value|)
      && (c.pythonOutputs.None? ==> u.outputs.None? && u.outputSchema.None?)
  {
    if c.pythonInputs.Some? {
      SchemaForColumns(c.pythonInputs.value);
    }
    if c.pythonOutputs.Some? && |c.pythonOutputs.value| > 0 {
      SchemaForColumns(c.pythonOutputs.value);
    }
  }

  /** A non-empty declared output list decides the output schema whatever the input variables are. */
  lemma DeclaredOutputsWin(c1: PythonConfig, c2: PythonConfig, readFile: FileReader)
    requires c1.pythonOutputs == c2.pythonOutputs && c1.pythonOutputs.Some? && |c1.pythonOutputs.value| > 0
    requires CompileUnit(c1, readFile).Ok? && CompileUnit(c2, readFile).Ok?
    ensures CompileUnit(c1, readFile).value.outputSchema == CompileUnit(c2, readFile).value.outputSchema
    ensures CompileUnit(c1, readFile).value.outputs == CompileUnit(c2, readFile).value.outputs
  {
  }

  /** Compilation fails exactly when the code, the input schema or the output selection fails. */
  lemma CompileUnitFails(c: PythonConfig, readFile: FileReader)
    ensures CompileUnit(c, readFile).Err? <==>
      || ResolveCode(c, readFile).Err?
      || (c.pythonInputs.Some? && exists i :: 0 <= i < |c.pythonInputs.value| && !Supported(c.pythonInputs.value[i].pyType))
      || (c.pythonOutputs == Some([]) && c.pythonInputs.None?)
      || (c.pythonOutputs.Some? && exists i :: 0 <= i < |c.pythonOutputs.value| && !Supported(c.pythonOutputs.value[i].pyType))
  {
    if c.pythonInputs.Some? {
      SchemaForSucceedsIff(c.pythonInputs.value);
    }
    if c.pythonOutputs.Some? {
      SchemaForSucceedsIff(c.pythonOutputs.value);
    }
  }

  /** The state of construction after some entries: the transform table, the path written, and the failure if any. */
  datatype Progress = Progress(table: map<string, TransformUnit>, pythonPath: Option<string>, failure: Option<Error>)

  /** The error with which an entry stops construction, if it does. */
  function EntryFailure(step: PythonStep, e: ConfigEntry, readFile: FileReader): Option<Error> {
    if !HasInputName(step, e.name) then Some(InvalidInputName(e.name))
    else match CompileUnit(e.config, readFile)
      case Err(err) => Some(err)
      case Ok(_) => None
  }

  /**
   * Processes one entry. After a failure nothing changes. The name check
   * comes first; the path is then written if this is the first entry with
   * one, even if the entry's code or schemas then fail.
   */
  function Advance(p: Progress, step: PythonStep, e: ConfigEntry, readFile: FileReader): Progress {
    if p.failure.Some? then p
    else if !HasInputName(step, e.name) then p.(failure := Some(InvalidInputName(e.name)))
    else
      var path := if e.config.pythonPath.Some? && p.pythonPath.None? then e.config.pythonPath else p.pythonPath;
      match CompileUnit(e.config, readFile)
      case Err(err) => Progress(p.table, path, Some(err))
      case Ok(u) => Progress(p.table[e.name := u], path, None)
  }

  /** The state after the first n entries. */
  function BuildPrefix(step: PythonStep, readFile: FileReader, n: nat): Progress
    requires n <= |step.pythonConfigs|
  {
    if n == 0 then Progress(map[], None, None)
    else Advance(BuildPrefix(step, readFile, n - 1), step, step.pythonConfigs[n - 1], readFile)
  }

  /** The outcome of constructing a runner for the step. */
  function Build(step: PythonStep, readFile: FileReader): Progress {
    BuildPrefix(step, readFile, |step.pythonConfigs|)
  }

  /** The first interpreter path among the entries, scanning from the front. */
  function FirstPath(entries: seq<ConfigEntry>): Option<string> {
    if |entries| == 0 then None
    else if entries[0].config.pythonPath.Some? then entries[0].config.pythonPath
    else FirstPath(entries[1..])
  }

  lemma {:induction false} FirstPathAppend(entries: seq<ConfigEntry>, e: ConfigEntry)
    ensures FirstPath(entries + [e]) == if FirstPath(entries).Some? then FirstPath(entries) else e.config.pythonPath
  {
    if |entries| > 0 {
      assert (entries + [e])[1..] == entries[1..] + [e];
      FirstPathAppend(entries[1..], e);
    }
  }

  /** A failure is final: later entries change nothing. */
  lemma {:induction false} FailureIsFinal(step: PythonStep, readFile: FileReader, n: nat, m: nat)
    requires n <= m <= |step.pythonConfigs|
    requires BuildPrefix(step, readFile, n).failure.Some?
    ensures BuildPrefix(step, readFile, m) == BuildPrefix(step, readFile, n)
    decreases m
  {
    if m > n {
      FailureIsFinal(step, readFile, n, m - 1);
    }
  }

  /** The interpreter path is written at most once: once set, later entries never change it. */
  lemma {:induction false} PathSetOnce(step: PythonStep, readFile: FileReader, n: nat, m: nat)
    requires n <= m <= |step.pythonConfigs|
    requires BuildPrefix(step, readFile, n).pythonPath.Some?
    ensures BuildPrefix(step, readFile, m).pythonPath == BuildPrefix(step, readFile, n).pythonPath
    decreases m
  {
    if m > n {
      PathSetOnce(step, readFile, n, m - 1);
    }
  }

  /** While no entry has failed, the path written is the first path among the entries processed. */
  lemma {:induction false} PathIsFirstWriter(step: PythonStep, readFile: FileReader, n: nat)
    requires n <= |step.pythonConfigs|
    requires BuildPrefix(step, readFile, n).failure.None?
    ensures BuildPrefix(step, readFile, n).pythonPath == FirstPath(step.pythonConfigs[..n])
  {
    if n > 0 {
      var cs := step.pythonConfigs;
      PathIsFirstWriter(step, readFile, n - 1);
      assert cs[..n] == cs[..n - 1] + [cs[n - 1]];
      FirstPathAppend(cs[..n - 1], cs[n - 1]);
    }
  }

  /**
   * After a failure the path is the first path among the entries processed:
   * the failing entry's own path counts when its name passed the check,
   * since the path is written before its code and schemas are checked.
   */
  lemma PathAfterFailure(step: PythonStep, readFile: FileReader, k: nat)
    requires k < |step.pythonConfigs|
    requires EntryFailure(step, step.pythonConfigs[k], readFile).Some?
    requires forall j :: 0 <= j < k ==> EntryFailure(step, step.pythonConfigs[j], readFile).None?
    ensures var cs := step.pythonConfigs;
      Build(step, readFile).pythonPath == if HasInputName(step, cs[k].name) then FirstPath(cs[..k + 1]) else FirstPath(cs[..k])
  {
    var cs := step.pythonConfigs;
    BuildSucceedsIff(step, readFile, k);
    PathIsFirstWriter(step, readFile, k);
    assert cs[..k + 1] == cs[..k] + [cs[k]];
    FirstPathAppend(cs[..k], cs[k]);
    FailureIsFinal(step, readFile, k + 1, |cs|);
  }

  /** Construction gets through n entries exactly when each is declared and compiles. */
  lemma {:induction false} BuildSucceedsIff(step: PythonStep, readFile: FileReader, n: nat)
    requires n <= |step.pythonConfigs|
    ensures BuildPrefix(step, readFile, n).failure.None? <==>
      forall k :: 0 <= k < n ==> EntryFailure(step, step.pythonConfigs[k], readFile).None?
  {
    if n > 0 {
      BuildSucceedsIff(step, readFile, n - 1);
    }
  }

  /** When some entry fails, construction fails with the error of the first such entry. */
  lemma {:induction false} BuildFailsAtFirstBadEntry(step: PythonStep, readFile: FileReader, k: nat)
    requires k < |step.pythonConfigs|
    requires EntryFailure(step, step.pythonConfigs[k], readFile).Some?
    requires forall j :: 0 <= j < k ==> EntryFailure(step, step.pythonConfigs[j], readFile).None?
    ensures Build(step, readFile).failure == EntryFailure(step, step.pythonConfigs[k], readFile)
  {
    BuildSucceedsIff(step, readFile, k);
    FailureIsFinal(step, readFile, k + 1, |step.pythonConfigs|);
  }

  /** A configuration naming an undeclared input makes construction fail. */
  lemma UndeclaredNameFails(step: PythonStep, readFile: FileReader, k: nat)
    requires k < |step.pythonConfigs| && !HasInputName(step, step.pythonConfigs[k].name)
    ensures Build(step, readFile).failure.Some?
  {
    BuildSucceedsIff(step, readFile, |step.pythonConfigs|);
  }

  /** While no entry has failed, the table's keys are exactly the names of the entries processed, all declared. */
  lemma {:induction false} BuildKeys(step: PythonStep, readFile: FileReader, n: nat)
    requires n <= |step.pythonConfigs|
    requires BuildPrefix(step, readFile, n).failure.None?
    ensures BuildPrefix(step, readFile, n).table.Keys == set k | 0 <= k < n :: step.pythonConfigs[k].name
    ensures forall name :: name in BuildPrefix(step, readFile, n).table ==> HasInputName(step, name)
  {
    if n > 0 {
      BuildKeys(step, readFile, n - 1);
      var cs := step.pythonConfigs;
      assert (set k | 0 <= k < n :: cs[k].name) == (set k | 0 <= k < n - 1 :: cs[k].name) + {cs[n - 1].name};
    }
  }

  /** With distinct names, every entry's name is bound to the unit compiled from that entry's configuration. */
  lemma {:induction false} BuildBindsEachEntry(step: PythonStep, readFile: FileReader, n: nat, k: nat)
    requires k < n <= |step.pythonConfigs|
    requires forall a, b :: 0 <= a < b < n ==> step.pythonConfigs[a].name != step.pythonConfigs[b].name
    requires BuildPrefix(step, readFile, n).failure.None?
    ensures step.pythonConfigs[k].name in BuildPrefix(step, readFile, n).table
    ensures CompileUnit(step.pythonConfigs[k].config, readFile).Ok?
    ensures BuildPrefix(step, readFile, n).table[step.pythonConfigs[k].name]
         == CompileUnit(step.pythonConfigs[k].config, readFile).value
  {
    if k < n - 1 {
      BuildBindsEachEntry(step, readFile, n - 1, k);
    }
  }
}
