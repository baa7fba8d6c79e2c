/** Records flowing between pipeline steps. */
module Records {
  import opened Wrappers

  /** A single value of a record; array contents are reduced to their shape. */
  datatype Writable =
    | LongWritable(l: int)
    | DoubleWritable(d: real)
    | TextWritable(s: string)
    | BooleanWritable(b: bool)
    | NDArrayWritable(shape: seq<int>)

  /** Where a record came from. */
  datatype RecordMetaData = RecordMetaData(location: string)

  /** A record: its list of values (which may be null) and its optional metadata. */
  datatype Record = Record(values: Option<seq<Writable>>, metaData: Option<RecordMetaData>)

  /** True when the record's value list is null or empty. */
  predicate IsEmptyRecord(rec: Record) {
    rec.values.None? || |rec.values.value| == 0
  }
}
