/** The DAO that reads WF_REQUEST in chunks and writes re-encrypted requests back. */
module WfRequestMigration {
  import opened Wrappers
  import opened WfTypes
  import opened JavaStrings
  import opened Dialect
  import opened ChunkRead
  import opened ChunkWrite

  /** Opening a connection (getConnection, setAutoCommit, reading the driver name) either
      fails with an SQL error or yields the driver name the connection reports. */
  datatype Connection = Unreachable | Connected(driverName: string)

  /** How the database answers the write path: whether the connection opens, whether
      preparing, executing or committing the batch raises, whether preparing the
      fallback statement raises, and whether the i-th fallback update raises. */
  datatype WriteOracle = WriteOracle(connects: bool, batchFails: bool, retryPrepareFails: bool, rowFails: nat -> bool)

  /** The batch path commits when every record serialises and the batch itself succeeds. */
  predicate BatchSucceeds(requests: seq<WorkflowRequest>, serialize: WorkflowRequest -> Option<Bytes>, oracle: WriteOracle) {
    !oracle.batchFails && AllSerialize(requests, serialize)
  }

  class WorkFlowDAO {
    /** Records updated so far, cumulative over every call. */
    var updateCount: nat
    /** Records whose row-by-row retry failed, cumulative over every call. */
    var failedUpdateCount: nat
    /** The WF_REQUEST table the DAO writes to. */
    var wfRequest: Table

    constructor (table: Table)
      ensures updateCount == 0 && failedUpdateCount == 0 && wfRequest == table
    {
      updateCount, failedUpdateCount := 0, 0;
      wfRequest := table;
    }

    /** Reads one chunk: picks the query for the driver, binds its two parameters, and
        decodes the returned rows in order until the first that fails. SQL, IO and
        class-loading failures inside the read end it with what was decoded so far. A
        failure to connect throws KeyRotationException, and a NULL blob or an object of
        another class throws the unchecked exception that the read does not catch. */
    method GetWFRequestChunks(startIndex: int, chunkSize: int, conn: Connection, markers: Markers,
                              execute: Statement -> QueryOutcome,
                              deserialize: Bytes -> Decoding)
      returns (r: Result<seq<WorkflowRequest>, Thrown>)
      ensures conn.Unreachable? ==> r == Failure(KeyRotation(KeyRotationException(ConnectFailureMessage)))
      ensures conn.Connected? ==>
                var rows := Fetched(execute(SelectStatement(conn.driverName, markers, startIndex, chunkSize)));
                r == if Escape(rows, deserialize).Some? then Failure(Unchecked(Escape(rows, deserialize).value))
                     else Success(DecodedPrefix(rows, deserialize))
    {
      if conn.Unreachable? {
        return Failure(KeyRotation(KeyRotationException(ConnectFailureMessage)));
      }
      var query := GetWfRequest;
      var firstIndex := startIndex;
      var secIndex := chunkSize;
      if Contains(conn.driverName, markers.postgresql) {
        query := GetWfRequestPostgre;
        firstIndex := chunkSize;
        secIndex := startIndex;
      } else if Contains(conn.driverName, markers.mssql) || Contains(conn.driverName, markers.oracle) {
        query := GetWfRequestOther;
      }
      assert Statement(query, firstIndex, secIndex) == SelectStatement(conn.driverName, markers, startIndex, chunkSize);
      var outcome := execute(Statement(query, firstIndex, secIndex));
      var wfRequestList: seq<WorkflowRequest> := [];
      if outcome.ResultRows? {
        var rows := outcome.rows;
        var i := 0;
        while i < |rows|
          invariant 0 <= i <= |rows|
          invariant DecodedPrefix(rows, deserialize) == wfRequestList + DecodedPrefix(rows[i..], deserialize)
          invariant Escape(rows, deserialize) == Escape(rows[i..], deserialize)
        {
          assert rows[i..][1..] == rows[i + 1..];
          var decoded := DecodeRow(rows[i], deserialize);
          assert rows[i..][0] == rows[i];
          if decoded.Escaped? {
            return Failure(Unchecked(decoded.runtime));
          } else if decoded.Caught? {
            break;
          }
          wfRequestList := wfRequestList + [decoded.request];
          i := i + 1;
        }
        assert i == |rows| ==> rows[i..] == [];
        assert wfRequestList == DecodedPrefix(rows, deserialize);
      }
      return Success(wfRequestList);
    }

    /** Writes a chunk back: all records in one batch and one commit; if that fails, the
        batch is rolled back and every record is retried on its own. Returns the uuids
        logged as failed by the retry. */
    method UpdateWFRequestChunks(requests: seq<WorkflowRequest>, serialize: WorkflowRequest -> Option<Bytes>, oracle: WriteOracle)
      returns (r: Result<seq<string>, KeyRotationException>)
      modifies this
      ensures !oracle.connects ==>
                r == Failure(KeyRotationException(ConnectFailureMessage)) && unchanged(this)
      ensures oracle.connects && BatchSucceeds(requests, serialize, oracle) ==>
                r == Success([]) &&
                wfRequest == Commit(old(wfRequest), BatchAttempts(requests, serialize)) &&
                updateCount == old(updateCount) + |requests| &&
                failedUpdateCount == old(failedUpdateCount)
      ensures oracle.connects && !BatchSucceeds(requests, serialize, oracle) && oracle.retryPrepareFails ==>
                r == Failure(KeyRotationException(AccessFailureMessage)) && unchanged(this)
      ensures oracle.connects && !BatchSucceeds(requests, serialize, oracle) && !oracle.retryPrepareFails ==>
                var atts := RetryAttempts(requests, serialize, oracle.rowFails);
                r == Success(FailedUuids(atts)) &&
                wfRequest == Commit(old(wfRequest), atts) &&
                updateCount == old(updateCount) + SuccessCount(atts) &&
                failedUpdateCount == old(failedUpdateCount) + |FailedUuids(atts)|
      ensures r.Success? ==> updateCount + failedUpdateCount == old(updateCount) + old(failedUpdateCount) + |requests|
      ensures wfRequest.Keys == old(wfRequest).Keys
    {
      if !oracle.connects {
        return Failure(KeyRotationException(ConnectFailureMessage));
      }
      var batch: seq<Attempt> := [];
      var serialized := true;
      var i := 0;
      while i < |requests| && serialized
        invariant 0 <= i <= |requests|
        decreases |requests| - i, serialized
        invariant serialized ==> batch == BatchAttempts(requests, serialize)[..i]
        invariant serialized ==> forall j :: 0 <= j < i ==> serialize(requests[j]).Some?
        invariant !serialized ==> !AllSerialize(requests, serialize)
      {
        var blob := serialize(requests[i]);
        if blob.None? {
          serialized := false;
        } else {
          batch := batch + [Attempt(requests[i].uuid, blob)];
          i := i + 1;
        }
      }
      if serialized && !oracle.batchFails {
        assert batch == BatchAttempts(requests, serialize);
        wfRequest := Commit(wfRequest, batch);
        updateCount := updateCount + |requests|;
        CommitKeys(old(wfRequest), batch);
        return Success([]);
      }
      // The batch is rolled back: nothing of it reached the table.
      r := RetryOnRequestUpdate(requests, serialize, oracle.retryPrepareFails, oracle.rowFails);
    }

    /** The row-by-row fallback: each record is serialised, updated and committed on its
        own; a failure rolls that record back, logs its uuid and counts it, and the loop
        goes on with the next record. */
    method RetryOnRequestUpdate(requests: seq<WorkflowRequest>, serialize: WorkflowRequest -> Option<Bytes>,
                                prepareFails: bool, rowFails: nat -> bool)
      returns (r: Result<seq<string>, KeyRotationException>)
      modifies this
      ensures prepareFails ==> r == Failure(KeyRotationException(AccessFailureMessage)) && unchanged(this)
      ensures !prepareFails ==>
                var atts := RetryAttempts(requests, serialize, rowFails);
                r == Success(FailedUuids(atts)) &&
                wfRequest == Commit(old(wfRequest), atts) &&
                updateCount == old(updateCount) + SuccessCount(atts) &&
                failedUpdateCount == old(failedUpdateCount) + |FailedUuids(atts)|
      ensures r.Success? ==> updateCount + failedUpdateCount == old(updateCount) + old(failedUpdateCount) + |requests|
      ensures wfRequest.Keys == old(wfRequest).Keys
    {
      if prepareFails {
        return Failure(KeyRotationException(AccessFailureMessage));
      }
      ghost var atts := RetryAttempts(requests, serialize, rowFails);
      var faulty: seq<string> := [];
      var i := 0;
      while i < |requests|
        invariant 0 <= i <= |requests|
        invariant wfRequest == Commit(old(wfRequest), atts[..i])
        invariant updateCount == old(updateCount) + SuccessCount(atts[..i])
        invariant failedUpdateCount == old(failedUpdateCount) + |FailedUuids(atts[..i])|
        invariant faulty == FailedUuids(atts[..i])
      {
        assert atts[..i + 1][..i] == atts[..i];
        var blob := serialize(requests[i]);
        if blob.Some? && !rowFails(i) {
          wfRequest := Put(wfRequest, requests[i].uuid, blob.value);
          updateCount := updateCount + 1;
        } else {
          faulty := faulty + [requests[i].uuid];
          failedUpdateCount := failedUpdateCount + 1;
        }
        i := i + 1;
      }
      assert atts[..|requests|] == atts;
      CountsCoverAttempts(atts);
      CommitKeys(old(wfRequest), atts);
      return Success(faulty);
    }
  }
}
