/**
 * The declarative configuration a Python step runner is built from: the
 * step's ordered input names and one script configuration per input name,
 * and the transform unit compiled from each script configuration.
 */
module StepConfig {
  import opened Wrappers
  import opened PythonSchema

  /**
   * The script configuration of one input. A `None` field is a null in the
   * configuration object; the variable lists are the script variables in
   * the order the variable set reports them.
   */
  datatype PythonConfig = PythonConfig(
    pythonCode: Option<string>,
    pythonCodePath: Option<string>,
    pythonPath: Option<string>,
    pythonInputs: Option<seq<Variable>>,
    pythonOutputs: Option<seq<Variable>>,
    returnAllInputs: bool,
    setupAndRun: bool)

  /** One entry of the step's input-name to script-configuration map. */
  datatype ConfigEntry = ConfigEntry(name: string, config: PythonConfig)

  /**
   * A Python pipeline step: its declared input names, in declaration order,
   * and its script configurations, in the map's iteration order.
   */
  datatype PythonStep = PythonStep(inputNames: seq<string>, pythonConfigs: seq<ConfigEntry>)

  predicate HasInputName(step: PythonStep, name: string) {
    name in step.inputNames
  }

  /** The input name at a batch position; `None` where the list of names has no such index. */
  function InputNameAt(step: PythonStep, i: nat): (r: Option<string>)
    ensures r.Some? <==> i < |step.inputNames|
    ensures r.Some? ==> r.value == step.inputNames[i] && HasInputName(step, r.value)
  {
    if i < |step.inputNames| then Some(step.inputNames[i]) else None
  }

  /** A compiled script transform: code, variables and schemas on both sides, and the two flags. */
  datatype TransformUnit = TransformUnit(
    code: string,
    inputs: Option<seq<Variable>>,
    inputSchema: Option<Schema>,
    outputs: Option<seq<Variable>>,
    outputSchema: Option<Schema>,
    returnAllInputs: bool,
    setupAndRun: bool)
}
