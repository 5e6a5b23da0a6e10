/** Decoding of the rows returned by one chunk read of WF_REQUEST. */
module ChunkRead {
  import opened Wrappers
  import opened WfTypes

  /** The REQUEST column of one row as fetching it yields: a blob, SQL NULL (a Java
      null array), or a fetch that raised SQLException. */
  datatype Cell = Blob(bytes: Bytes) | NullCell | FetchFailed

  /** What executing the prepared read yields: an SQL failure while preparing, executing
      or committing it, or the result set's REQUEST cells in result order. */
  datatype QueryOutcome = QueryFailed | ResultRows(rows: seq<Cell>)

  /** What Java deserialisation of one blob yields: the request; an IOException or
      ClassNotFoundException; or an object of another class. */
  datatype Decoding = Decoded(request: WorkflowRequest) | DecodeFailed | OtherClass

  /** How one row ends: decoded; a checked exception, which the read catches; or an
      unchecked exception, which escapes the read. */
  datatype RowOutcome = Read(request: WorkflowRequest) | Caught | Escaped(runtime: RuntimeException)

  function Fetched(q: QueryOutcome): seq<Cell> {
    if q.QueryFailed? then [] else q.rows
  }

  /** One row fetched, deserialised and cast. A failed fetch and a failed deserialisation
      are checked exceptions. A NULL blob makes the byte stream throw
      NullPointerException, and an object of another class makes the cast throw
      ClassCastException. */
  function DecodeRow(cell: Cell, deserialize: Bytes -> Decoding): RowOutcome {
    match cell
    case FetchFailed => Caught
    case NullCell => Escaped(NullPointerException)
    case Blob(b) =>
      match deserialize(b)
      case Decoded(w) => Read(w)
      case DecodeFailed => Caught
      case OtherClass => Escaped(ClassCastException)
  }

  /** The requests decoded from `rows` up to, not including, the first row that fails. */
  function DecodedPrefix(rows: seq<Cell>, deserialize: Bytes -> Decoding): seq<WorkflowRequest> {
    if rows == [] then []
    else match DecodeRow(rows[0], deserialize)
      case Read(w) => [w] + DecodedPrefix(rows[1..], deserialize)
      case _ => []
  }

  /** The unchecked exception that ends the read, if the first failing row raises one. */
  function Escape(rows: seq<Cell>, deserialize: Bytes -> Decoding): Option<RuntimeException> {
    if rows == [] then None
    else match DecodeRow(rows[0], deserialize)
      case Read(_) => Escape(rows[1..], deserialize)
      case Caught => None
      case Escaped(e) => Some(e)
  }

  /** The chunk read returns the decoded rows in result order, and stops exactly at the
      first row that cannot be fetched or decoded: it does not skip that row. An
      exception escapes exactly when that first failing row raises an unchecked one. */
  lemma {:induction false} DecodedPrefixStopsAtFirstFailure(rows: seq<Cell>, deserialize: Bytes -> Decoding)
    ensures |DecodedPrefix(rows, deserialize)| <= |rows|
    ensures forall i :: 0 <= i < |DecodedPrefix(rows, deserialize)| ==>
              DecodeRow(rows[i], deserialize) == Read(DecodedPrefix(rows, deserialize)[i])
    ensures |DecodedPrefix(rows, deserialize)| < |rows| ==>
              !DecodeRow(rows[|DecodedPrefix(rows, deserialize)|], deserialize).Read?
    ensures Escape(rows, deserialize) ==
              if |DecodedPrefix(rows, deserialize)| < |rows| && DecodeRow(rows[|DecodedPrefix(rows, deserialize)|], deserialize).Escaped?
              then Some(DecodeRow(rows[|DecodedPrefix(rows, deserialize)|], deserialize).runtime)
              else None
  {
    if rows != [] && DecodeRow(rows[0], deserialize).Read? {
      DecodedPrefixStopsAtFirstFailure(rows[1..], deserialize);
    }
  }
}
