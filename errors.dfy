/** The failures of the Python step runner, one constructor per place where the runner throws. */
module StepErrors {

  datatype Error =
      /** A configured input name is not declared by the step (construction). */
    | InvalidInputName(name: string)
      /** Neither inline code nor a code path is given, so opening the code file fails on a null path. */
    | NullCodePath
      /** The code is still null after resolution (the file could not be read). */
    | NoCode
      /** The resolved code is the empty string. */
    | EmptyCode
      /** The output variables fall back to the input variables, but no input variables were declared. */
    | NullInputVariables
      /** A script variable carries a type tag the schema table does not map; the tag's name is kept. */
    | UnsupportedType(tag: string)
      /** The step has no input name at this batch position. */
    | InputNameOutOfRange(index: nat)
      /** The record at this position is bound to a transform but its value list is null or empty. */
    | EmptyRecord(index: nat)
      /** The runner does not process single writables. */
    | UnsupportedOperation
}
