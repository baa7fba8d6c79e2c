# Python step runner of konduit-serving, modelled in Dafny

konduit-serving runs inference pipelines made of named steps. A Python step
attaches one script per declared input name. Its runner, `PythonStepRunner`,
does two jobs:

- **Construction.** It turns the step's map from input name to script
  configuration into a table of compiled transforms. For each entry it:
  - checks that the name is a declared input;
  - writes the interpreter search path the first time an entry supplies one;
  - resolves the code, taking inline code first and reading the code file otherwise;
  - rejects null or empty code;
  - builds the input and output schemas from the script variables;
  - binds the compiled transform to the input name.
- **Execution.** `transform` walks a batch of records position by position.
  A position whose input name has a bound transform gets the transform's
  output as a new record. Any other position gets its input record, unchanged.

The model has seven modules:

- `Wrappers`: `Option` for Java nulls and `Result` for thrown exceptions.
- `StepErrors`: one error per place where the runner throws.
- `PythonSchema`: the type table from script tags to column types. `SchemaFor` specifies the variable-to-schema mapping. `SchemaForVariables` is the builder loop, proved against `SchemaFor`.
- `StepConfig`: the step, its per-input script configurations and the compiled transform unit.
- `Records`: records and their values.
- `Construction`: the specification of construction. `ResolveCode` and `CompileUnit` handle one entry. `BuildPrefix` and `Build` fold over the entries. The lemmas are about the transform table, the path and the failures.
- `Execution`: the specification of `transform`. `Slot` gives one position and `TransformBatch` the whole batch.
- `Runner`: the imperative runner.
  - `PythonStepRunner` is a class. Its field `pythonTransform` is filled in place.
  - `Transform` fills a freshly allocated array.
  - `NewPythonStepRunner` models the throwing Java constructor. It returns a `Result`.
  - `SystemProperties` holds the process-wide interpreter path property. A ghost counter records how often the path is written.

The script interpreter (`PythonTransform.map`) is a function-valued parameter `run` of type
`Interpreter`. The file system is a parameter `readFile` of type `FileReader`. A read that
fails with an I/O error returns `None`.

Behaviour one might expect that the code does not have, and what the model does instead:

- An *absent* output variable list leaves the output variables and schema unset. Only a present but *empty* list falls back to the input variables.
- `close` does nothing. Later calls to `transform` still work.
- The flag that stops a second path write is local to one construction. Each new runner therefore writes the property again if one of its entries has a path. The path is also written before that entry's code is checked, so a construction that then fails still leaves the property changed. `NewPythonStepRunner` ends with the property equal to the path of `Build`, and `Construction.PathAfterFailure` states what that path is after a failure.
- With no inline code and no code path, the code file is opened on a null path. The model reports this as `NullCodePath`, separate from `NoCode`, the error for a read that fails.
- With an empty output list and no input variables, the schema builder is given a null variable set. The model reports `NullInputVariables`.
- `inputNameAt` past the end of the declared input names fails. It indexes a list. The model reports `InputNameOutOfRange`.

## Model

| member | source | states |
|---|---|---|
| `PythonSchema.TypeTable` | konduit-serving-python/src/main/java/ai/konduit/serving/pipeline/steps/PythonStepRunner.java:142-166 | The table maps exactly the seven tags: INT to Long, FLOAT to Double, STR/DICT/LIST to String, BOOL to Boolean. NDARRAY maps to an array column with the bound value's shape, or `[1,1]` when there is no value. Any other tag has no column type. |
| `PythonSchema.SchemaForColumns` | konduit-serving-python/src/main/java/ai/konduit/serving/pipeline/steps/PythonStepRunner.java:137-170 | A built schema has exactly one column per variable, in variable order, each with the variable's name and its mapped type. |
| `PythonSchema.SchemaForSucceedsIff` | konduit-serving-python/src/main/java/ai/konduit/serving/pipeline/steps/PythonStepRunner.java:140-167 | Building a schema succeeds if and only if every variable's tag is one of the seven supported tags. |
| `PythonSchema.SchemaForFirstUnsupported` | konduit-serving-python/src/main/java/ai/konduit/serving/pipeline/steps/PythonStepRunner.java:164-165 | A failed build fails with the tag name of the first unsupported variable. |
| `PythonSchema.SchemaForVariables` | konduit-serving-python/src/main/java/ai/konduit/serving/pipeline/steps/PythonStepRunner.java:137-170 | The builder loop, which appends one column per variable, returns exactly the specified schema or the specified error. |
| `StepConfig.InputNameAt` | konduit-serving-python/src/main/java/ai/konduit/serving/pipeline/steps/PythonStepRunner.java:179-180 | A position has an input name exactly when it is below the number of declared names. That name is the declared name at the same position. |
| `Construction.ResolveCode` | konduit-serving-python/src/main/java/ai/konduit/serving/pipeline/steps/PythonStepRunner.java:97-108 | Inline code, when present, is the code, and an empty inline code is an error. Otherwise the file is read. A successful non-empty read is the code, an empty file gives `EmptyCode`, a failed read gives `NoCode`, and a missing path gives `NullCodePath`. Resolved code is never empty. |
| `Construction.InlineCodeIgnoresFiles` | konduit-serving-python/src/main/java/ai/konduit/serving/pipeline/steps/PythonStepRunner.java:97-105 | With inline code, the outcome is the same for any file system, so the file is not read. |
| `Construction.OptionalSchema` | konduit-serving-python/src/main/java/ai/konduit/serving/pipeline/steps/PythonStepRunner.java:113-118 | Null input variables give no input schema. Otherwise the input schema is the schema of the variables, and it fails exactly when that schema fails. |
| `Construction.CompiledUnit` | konduit-serving-python/src/main/java/ai/konduit/serving/pipeline/steps/PythonStepRunner.java:109-132 | A compiled unit holds the resolved code, both flags, the input variables, and as input schema the schema built from the input variables (one column per variable). Outputs present and empty: the output variables and schema equal the input ones. Outputs non-empty: the declared outputs and their schema. Outputs absent: no output variables and no output schema. |
| `Construction.DeclaredOutputsWin` | konduit-serving-python/src/main/java/ai/konduit/serving/pipeline/steps/PythonStepRunner.java:126-129 | Two configurations with the same non-empty output list get the same output variables and schema, whatever their input variables. |
| `Construction.CompileUnitFails` | konduit-serving-python/src/main/java/ai/konduit/serving/pipeline/steps/PythonStepRunner.java:97-130 | Compiling fails if and only if one of these holds: code resolution fails; an input or output variable has an unsupported tag; the outputs are present and empty while the inputs are null. |
| `Construction.FailureIsFinal` | konduit-serving-python/src/main/java/ai/konduit/serving/pipeline/steps/PythonStepRunner.java:87-134 | Once an entry fails, the entries after it change nothing: construction stops at the first failure. |
| `Construction.PathSetOnce` | konduit-serving-python/src/main/java/ai/konduit/serving/pipeline/steps/PythonStepRunner.java:91-95 | Once a path has been written, later entries never change it. |
| `Construction.PathIsFirstWriter` | konduit-serving-python/src/main/java/ai/konduit/serving/pipeline/steps/PythonStepRunner.java:86-95 | While no entry has failed, the path written is the first non-null path among the entries processed. `FirstPath` is an independent front-to-back definition of that path. |
| `Construction.PathAfterFailure` | konduit-serving-python/src/main/java/ai/konduit/serving/pipeline/steps/PythonStepRunner.java:86-108 | When entry k is the first to fail, the path is the first non-null path among the entries before k. Entry k's own path also counts when its name passed the check, because the path is written before the code is checked. |
| `Construction.BuildSucceedsIff` | konduit-serving-python/src/main/java/ai/konduit/serving/pipeline/steps/PythonStepRunner.java:87-134 | Construction gets through the first n entries if and only if each of them names a declared input and compiles. |
| `Construction.BuildFailsAtFirstBadEntry` | konduit-serving-python/src/main/java/ai/konduit/serving/pipeline/steps/PythonStepRunner.java:87-108 | A failed construction fails with the error of the first entry that fails its name check or its compilation. |
| `Construction.UndeclaredNameFails` | konduit-serving-python/src/main/java/ai/konduit/serving/pipeline/steps/PythonStepRunner.java:87-89 | If any configured name is not a declared input, construction fails. |
| `Construction.BuildKeys` | konduit-serving-python/src/main/java/ai/konduit/serving/pipeline/steps/PythonStepRunner.java:87-133 | While no entry has failed, the table's keys are exactly the names of the entries processed, and every key is a declared input. |
| `Construction.BuildBindsEachEntry` | konduit-serving-python/src/main/java/ai/konduit/serving/pipeline/steps/PythonStepRunner.java:109-133 | If names are distinct and no entry has failed, each entry's name is bound to the unit compiled from that entry's own configuration. |
| `Execution.TransformPreservesLength` | konduit-serving-python/src/main/java/ai/konduit/serving/pipeline/steps/PythonStepRunner.java:177-178 | A transformed batch has exactly as many records as the input batch. |
| `Execution.TransformPassesThrough` | konduit-serving-python/src/main/java/ai/konduit/serving/pipeline/steps/PythonStepRunner.java:184-186 | A position whose input name has no bound transform gets the input record itself. |
| `Execution.TransformRunsBound` | konduit-serving-python/src/main/java/ai/konduit/serving/pipeline/steps/PythonStepRunner.java:179-183 | A position whose input name has a bound transform has a non-empty record. It gets a new record, without metadata, holding the interpreter's output for that transform and those values. |
| `Execution.TransformFailsIff` | konduit-serving-python/src/main/java/ai/konduit/serving/pipeline/steps/PythonStepRunner.java:179-181 | A batch fails if and only if a position has no input name, or a position is bound while its record's value list is null or empty. Unbound records are never inspected. |
| `Execution.TransformFirstFailure` | konduit-serving-python/src/main/java/ai/konduit/serving/pipeline/steps/PythonStepRunner.java:178-187 | A failed batch fails with the error of its first failing position. |
| `Runner.SystemProperties.SetPythonPath` | konduit-serving-python/src/main/java/ai/konduit/serving/pipeline/steps/PythonStepRunner.java:93 | Writing the path property sets it and counts one write. |
| `Runner.PythonStepRunner.constructor` | konduit-serving-python/src/main/java/ai/konduit/serving/pipeline/steps/PythonStepRunner.java:82-84 | A new runner keeps its step and starts with an empty transform table. |
| `Runner.PythonStepRunner.Put` | konduit-serving-python/src/main/java/ai/konduit/serving/pipeline/steps/PythonStepRunner.java:133 | Binding a transform to a declared name updates only that key and keeps every key declared. |
| `Runner.PythonStepRunner.Transform` | konduit-serving-python/src/main/java/ai/konduit/serving/pipeline/steps/PythonStepRunner.java:176-191 | Returns a fresh array of the input's length whose contents equal the specified batch result. On failure, returns the specified error of the first failing position. |
| `Runner.PythonStepRunner.Close` | konduit-serving-python/src/main/java/ai/konduit/serving/pipeline/steps/PythonStepRunner.java:172-173 | Closing leaves the transform table as it was. |
| `Runner.PythonStepRunner.ProcessValidWritable` | konduit-serving-python/src/main/java/ai/konduit/serving/pipeline/steps/PythonStepRunner.java:193-196 | Always fails with the unsupported-operation error. |
| `Runner.CompileEntry` | konduit-serving-python/src/main/java/ai/konduit/serving/pipeline/steps/PythonStepRunner.java:97-132 | The step-by-step compilation of one entry returns exactly the specified unit or the specified error. |
| `Runner.NewPythonStepRunner` | konduit-serving-python/src/main/java/ai/konduit/serving/pipeline/steps/PythonStepRunner.java:81-135 | Succeeds exactly when the specification does. The result is a fresh runner for the step whose table is the specified table, with every key declared. A failure returns the specified first error. The path property ends as the specified first path, written once, or untouched when no processed entry supplied one. |

## Left out

- The script interpreter (`PythonTransform.map`, `PythonExecutioner`) is an opaque parameter. Its stateful sessions, its failures and the effect of the two flags on a run are not modelled.
- Reading the code file is an opaque parameter that returns the text or `None`. Character sets are not modelled.
- Logging is left out. It has no effect on results.
- `PythonVariables.schemaFromMap` is not part of this model. It turns the configured name-to-type-string maps into variable sets. A configuration here holds the variable list directly, in the order the variable set reports it, and a tag string that does not parse is not modelled.
- The `PipelineStep` class is not part of this model. Its input names are an ordered list, with `hasInputName` as membership and `inputNameAt` as indexing.
- Records are values, so "the same record" is value equality rather than reference identity. A null record inside the input array is not modelled.
- Array contents are reduced to shapes. Numeric values, data types and the array library are not modelled.
- Concurrency is left out: the runner is shared across requests, and the path property is a process-wide global.
- `ModelPipelineStep` only forwards to its superclass under the name `"default"`, so it has no logic to model here.
- The ONNX multiple-outputs server test and the Python client scripts are HTTP serving and client code, not part of the runner.
