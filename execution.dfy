/**
 * Execution of a Python step runner, as a specification: each batch
 * position either runs the transform bound to that position's input name or
 * passes its record through unchanged.
 */
module Execution {
  import opened Wrappers
  import opened StepErrors
  import opened StepConfig
  import opened Records

  /** The script interpreter, seen from outside: a compiled unit maps a value list to a value list. */
  type Interpreter = (TransformUnit, seq<Writable>) -> seq<Writable>

  /**
   * The record produced at position i: the bound transform's output as a
   * new record without metadata, or the input record itself when no
   * transform is bound to the position's name.
   */
  function Slot(table: map<string, TransformUnit>, step: PythonStep, input: seq<Record>, run: Interpreter, i: nat)
    : Result<Record, Error>
    requires i < |input|
  {
    match InputNameAt(step, i)
    case None => Err(InputNameOutOfRange(i))
    case Some(name) =>
      if name in table then
        if IsEmptyRecord(input[i]) then Err(EmptyRecord(i))
        else Ok(Record(Some(run(table[name], input[i].values.value)), None))
      else Ok(input[i])
  }

  /** The records of the first n positions, or the error of the first failing position. */
  function TransformPrefix(table: map<string, TransformUnit>, step: PythonStep, input: seq<Record>, run: Interpreter, n: nat)
    : Result<seq<Record>, Error>
    requires n <= |input|
  {
    if n == 0 then Ok([])
    else
      var done :- TransformPrefix(table, step, input, run, n - 1);
      var rec :- Slot(table, step, input, run, n - 1);
      Ok(done + [rec])
  }

  /** The result of transforming a whole batch. */
  function TransformBatch(table: map<string, TransformUnit>, step: PythonStep, input: seq<Record>, run: Interpreter)
    : Result<seq<Record>, Error>
  {
    TransformPrefix(table, step, input, run, |input|)
  }

  /** A successful prefix has one record per position, each the position's own slot. */
  lemma {:induction false} PrefixRecords(table: map<string, TransformUnit>, step: PythonStep, input: seq<Record>, run: Interpreter, n: nat)
    requires n <= |input|
    requires TransformPrefix(table, step, input, run, n).Ok?
    ensures |TransformPrefix(table, step, input, run, n).value| == n
    ensures forall i :: 0 <= i < n ==> Slot(table, step, input, run, i) == Ok(TransformPrefix(table, step, input, run, n).value[i])
  {
    if n > 0 {
      PrefixRecords(table, step, input, run, n - 1);
    }
  }

  /** A prefix succeeds exactly when every position in it succeeds. */
  lemma {:induction false} PrefixSucceedsIff(table: map<string, TransformUnit>, step: PythonStep, input: seq<Record>, run: Interpreter, n: nat)
    requires n <= |input|
    ensures TransformPrefix(table, step, input, run, n).Ok? <==>
      forall i :: 0 <= i < n ==> Slot(table, step, input, run, i).Ok?
  {
    if n > 0 {
      PrefixSucceedsIff(table, step, input, run, n - 1);
    }
  }

  /** A failed prefix fails with the error of its first failing position. */
  lemma {:induction false} PrefixFirstFailure(table: map<string, TransformUnit>, step: PythonStep, input: seq<Record>, run: Interpreter, n: nat)
    requires n <= |input|
    requires TransformPrefix(table, step, input, run, n).Err?
    ensures exists i :: (0 <= i < n && Slot(table, step, input, run, i) == Err(TransformPrefix(table, step, input, run, n).error)
      && forall j :: 0 <= j < i ==> Slot(table, step, input, run, j).Ok?)
  {
    if TransformPrefix(table, step, input, run, n - 1).Err? {
      PrefixFirstFailure(table, step, input, run, n - 1);
    } else {
      PrefixSucceedsIff(table, step, input, run, n - 1);
      assert Slot(table, step, input, run, n - 1) == Err(TransformPrefix(table, step, input, run, n).error);
    }
  }

  /** Once a prefix fails, every longer prefix fails with the same error. */
  lemma {:induction false} PrefixFailureIsFinal(table: map<string, TransformUnit>, step: PythonStep, input: seq<Record>, run: Interpreter, n: nat, m: nat)
    requires n <= m <= |input|
    requires TransformPrefix(table, step, input, run, n).Err?
    ensures TransformPrefix(table, step, input, run, m) == TransformPrefix(table, step, input, run, n)
    decreases m
  {
    if m > n {
      PrefixFailureIsFinal(table, step, input, run, n, m - 1);
    }
  }

  /** A transformed batch has exactly as many records as the input batch. */
  lemma TransformPreservesLength(table: map<string, TransformUnit>, step: PythonStep, input: seq<Record>, run: Interpreter)
    requires TransformBatch(table, step, input, run).Ok?
    ensures |TransformBatch(table, step, input, run).value| == |input|
  {
    PrefixRecords(table, step, input, run, |input|);
  }

  /** A position whose input name has no bound transform gets the input record itself. */
  lemma TransformPassesThrough(table: map<string, TransformUnit>, step: PythonStep, input: seq<Record>, run: Interpreter, i: nat)
    requires TransformBatch(table, step, input, run).Ok?
    requires i < |input| && i < |step.inputNames| && step.inputNames[i] !in table
    ensures |TransformBatch(table, step, input, run).value| == |input|
    ensures TransformBatch(table, step, input, run).value[i] == input[i]
  {
    PrefixRecords(table, step, input, run, |input|);
  }

  /** A position whose input name has a bound transform gets that transform's output, as a record without metadata. */
  lemma TransformRunsBound(table: map<string, TransformUnit>, step: PythonStep, input: seq<Record>, run: Interpreter, i: nat)
    requires TransformBatch(table, step, input, run).Ok?
    requires i < |input| && i < |step.inputNames| && step.inputNames[i] in table
    ensures !IsEmptyRecord(input[i])
    ensures |TransformBatch(table, step, input, run).value| == |input|
    ensures TransformBatch(table, step, input, run).value[i]
         == Record(Some(run(table[step.inputNames[i]], input[i].values.value)), None)
  {
    PrefixRecords(table, step, input, run, |input|);
    assert Slot(table, step, input, run, i) == Ok(TransformBatch(table, step, input, run).value[i]);
  }

  /**
   * The batch fails exactly when some position has no input name, or is
   * bound to a transform while its record is null or empty; the record of
   * an unbound position is never inspected.
   */
  lemma TransformFailsIff(table: map<string, TransformUnit>, step: PythonStep, input: seq<Record>, run: Interpreter)
    ensures TransformBatch(table, step, input, run).Err? <==>
      || |input| > |step.inputNames|
      || exists i :: 0 <= i < |input| && i < |step.inputNames| && step.inputNames[i] in table && IsEmptyRecord(input[i])
  {
    PrefixSucceedsIff(table, step, input, run, |input|);
    if |input| > |step.inputNames| {
      assert Slot(table, step, input, run, |step.inputNames|).Err?;
    } else if TransformBatch(table, step, input, run).Err? {
      var i :| 0 <= i < |input| && Slot(table, step, input, run, i).Err?;
      assert step.inputNames[i] in table && IsEmptyRecord(input[i]);
    } else {
      forall i | 0 <= i < |input| && i < |step.inputNames| && step.inputNames[i] in table
        ensures !IsEmptyRecord(input[i])
      {
        assert Slot(table, step, input, run, i).Ok?;
      }
    }
  }

  /** A failing batch fails with the error of its first failing position. */
  lemma TransformFirstFailure(table: map<string, TransformUnit>, step: PythonStep, input: seq<Record>, run: Interpreter)
    requires TransformBatch(table, step, input, run).Err?
    ensures exists i :: (0 <= i < |input| && Slot(table, step, input, run, i) == Err(TransformBatch(table, step, input, run).error)
      && forall j :: 0 <= j < i ==> Slot(table, step, input, run, j).Ok?)
  {
    PrefixFirstFailure(table, step, input, run, |input|);
  }
}
