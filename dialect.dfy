/** Choice of the paginated WF_REQUEST read for the database behind a connection. */
module Dialect {
  import opened JavaStrings

  /** The three read queries; their SQL text is not part of this model. */
  datatype Query = GetWfRequest | GetWfRequestPostgre | GetWfRequestOther

  /** A prepared read: the query and the values bound to its positional parameters 1 and 2. */
  datatype Statement = Statement(query: Query, first: int, second: int)

  /** The substrings of a driver name that identify PostgreSQL, MSSQL and Oracle. */
  datatype Markers = Markers(postgresql: string, mssql: string, oracle: string)

  /** The statement prepared for a connection whose driver reports `driverName`.
      PostgreSQL is tested first and binds (chunkSize, startIndex); MSSQL or Oracle
      use the other query with (startIndex, chunkSize); every other driver silently
      gets the generic query with (startIndex, chunkSize). */
  function SelectStatement(driverName: string, markers: Markers, startIndex: int, chunkSize: int): (st: Statement)
    ensures Occurs(driverName, markers.postgresql) ==>
              st == Statement(GetWfRequestPostgre, chunkSize, startIndex)
    ensures !Occurs(driverName, markers.postgresql) &&
            (Occurs(driverName, markers.mssql) || Occurs(driverName, markers.oracle)) ==>
              st == Statement(GetWfRequestOther, startIndex, chunkSize)
    ensures !Occurs(driverName, markers.postgresql) && !Occurs(driverName, markers.mssql) &&
            !Occurs(driverName, markers.oracle) ==>
              st == Statement(GetWfRequest, startIndex, chunkSize)
  {
    ContainsOccurs(driverName, markers.postgresql);
    ContainsOccurs(driverName, markers.mssql);
    ContainsOccurs(driverName, markers.oracle);
    if Contains(driverName, markers.postgresql) then
      Statement(GetWfRequestPostgre, chunkSize, startIndex)
    else if Contains(driverName, markers.mssql) || Contains(driverName, markers.oracle) then
      Statement(GetWfRequestOther, startIndex, chunkSize)
    else
      Statement(GetWfRequest, startIndex, chunkSize)
  }

  /** The (offset, limit) window a statement asks for, reading its two parameters in the
      order its query text expects them: the PostgreSQL query takes the limit first. */
  function Window(st: Statement): (int, int) {
    if st.query == GetWfRequestPostgre then (st.second, st.first) else (st.first, st.second)
  }

  /** Whatever the driver, the statement asks for the rows starting at startIndex, at most
      chunkSize of them: the swapped binding undoes the swapped parameter order. */
  lemma SelectedWindowIsRequested(driverName: string, markers: Markers, startIndex: int, chunkSize: int)
    ensures Window(SelectStatement(driverName, markers, startIndex, chunkSize)) == (startIndex, chunkSize)
  {
  }
}
