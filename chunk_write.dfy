/** What the batch update of WF_REQUEST and its row-by-row fallback do to the table
    and to the success and failure counts. */
module ChunkWrite {
  import opened Wrappers
  import opened WfTypes

  /** The WF_REQUEST table: uuid to stored REQUEST blob. */
  type Table = map<string, Bytes>

  /** One committed `UPDATE ... SET REQUEST = ? WHERE UUID = ?`: the blob written, or
      None when serialising the record or executing its update failed. */
  datatype Attempt = Attempt(uuid: string, blob: Option<Bytes>)

  /** An UPDATE keyed by uuid: a uuid with no row matches nothing and changes nothing. */
  function Put(table: Table, uuid: string, blob: Bytes): Table {
    if uuid in table then table[uuid := blob] else table
  }

  function Apply(table: Table, a: Attempt): Table {
    if a.blob.Some? then Put(table, a.uuid, a.blob.value) else table
  }

  /** The table after the attempts are committed one after another. */
  function Commit(table: Table, atts: seq<Attempt>): Table
    decreases |atts|
  {
    if atts == [] then table
    else Apply(Commit(table, atts[..|atts| - 1]), atts[|atts| - 1])
  }

  /** Number of attempts that committed (each adds one to updateCount). */
  function SuccessCount(atts: seq<Attempt>): nat
    decreases |atts|
  {
    if atts == [] then 0
    else SuccessCount(atts[..|atts| - 1]) + (if atts[|atts| - 1].blob.Some? then 1 else 0)
  }

  /** The uuids logged as failed, in the order they were attempted (each adds one to
      failedUpdateCount). */
  function FailedUuids(atts: seq<Attempt>): seq<string>
    decreases |atts|
  {
    if atts == [] then []
    else FailedUuids(atts[..|atts| - 1]) + (if atts[|atts| - 1].blob.None? then [atts[|atts| - 1].uuid] else [])
  }

  predicate AllSerialize(requests: seq<WorkflowRequest>, serialize: WorkflowRequest -> Option<Bytes>) {
    forall i :: 0 <= i < |requests| ==> serialize(requests[i]).Some?
  }

  /** The batch: every record's serialisation, keyed by its uuid, in list order. */
  function BatchAttempts(requests: seq<WorkflowRequest>, serialize: WorkflowRequest -> Option<Bytes>): seq<Attempt> {
    seq(|requests|, i requires 0 <= i < |requests| => Attempt(requests[i].uuid, serialize(requests[i])))
  }

  /** The row-by-row fallback: record i commits unless its serialisation fails or its
      own update raises (`rowFails(i)`). */
  function RetryAttempts(requests: seq<WorkflowRequest>, serialize: WorkflowRequest -> Option<Bytes>, rowFails: nat -> bool): seq<Attempt> {
    seq(|requests|, i requires 0 <= i < |requests| =>
      Attempt(requests[i].uuid, if rowFails(i) then None else serialize(requests[i])))
  }

  /** The migration only updates rows: it never adds or removes a uuid. */
  lemma {:induction false} CommitKeys(table: Table, atts: seq<Attempt>)
    ensures Commit(table, atts).Keys == table.Keys
    decreases |atts|
  {
    if atts != [] {
      CommitKeys(table, atts[..|atts| - 1]);
    }
  }

  /** A row that no committed attempt names keeps its stored value: rows outside the
      list, and rows whose update failed, are unchanged. */
  lemma {:induction false} CommitLeavesUnwritten(table: Table, atts: seq<Attempt>, u: string)
    requires u in table
    requires forall i :: 0 <= i < |atts| ==> atts[i].uuid != u || atts[i].blob.None?
    ensures u in Commit(table, atts) && Commit(table, atts)[u] == table[u]
    decreases |atts|
  {
    if atts != [] {
      CommitLeavesUnwritten(table, atts[..|atts| - 1], u);
    }
  }

  /** A committed attempt on an existing row stays in effect unless a later committed
      attempt writes the same uuid. */
  lemma {:induction false} CommitLastWriteWins(table: Table, atts: seq<Attempt>, k: nat)
    requires k < |atts| && atts[k].blob.Some? && atts[k].uuid in table
    requires forall j :: k < j < |atts| ==> atts[j].uuid != atts[k].uuid || atts[j].blob.None?
    ensures atts[k].uuid in Commit(table, atts)
    ensures Commit(table, atts)[atts[k].uuid] == atts[k].blob.value
    decreases |atts|
  {
    var front := atts[..|atts| - 1];
    CommitKeys(table, front);
    if k < |atts| - 1 {
      CommitLastWriteWins(table, front, k);
    }
  }

  /** Every attempt is counted exactly once, as a success or as a failure. */
  lemma {:induction false} CountsCoverAttempts(atts: seq<Attempt>)
    ensures SuccessCount(atts) + |FailedUuids(atts)| == |atts|
    decreases |atts|
  {
    if atts != [] {
      CountsCoverAttempts(atts[..|atts| - 1]);
    }
  }

  /** A uuid is logged as failed exactly when an attempt on it failed. */
  lemma {:induction false} FailedUuidsAreFailures(atts: seq<Attempt>, u: string)
    ensures u in FailedUuids(atts) <==> exists i :: 0 <= i < |atts| && atts[i].uuid == u && atts[i].blob.None?
    decreases |atts|
  {
    if atts != [] {
      var front := atts[..|atts| - 1];
      FailedUuidsAreFailures(front, u);
      if exists i :: 0 <= i < |front| && front[i].uuid == u && front[i].blob.None? {
        var i :| 0 <= i < |front| && front[i].uuid == u && front[i].blob.None?;
        assert atts[i] == front[i];
      }
      if exists i :: 0 <= i < |atts| && atts[i].uuid == u && atts[i].blob.None? {
        var i :| 0 <= i < |atts| && atts[i].uuid == u && atts[i].blob.None?;
        if i < |front| {
          assert front[i] == atts[i];
        }
      }
    }
  }

  /** When only attempt k fails, exactly one failure is counted, all other attempts
      succeed, and the uuid logged is that of attempt k. */
  lemma {:induction false} SingleFailureIsolated(atts: seq<Attempt>, k: nat)
    requires k < |atts| && atts[k].blob.None?
    requires forall j :: 0 <= j < |atts| && j != k ==> atts[j].blob.Some?
    ensures SuccessCount(atts) == |atts| - 1
    ensures FailedUuids(atts) == [atts[k].uuid]
    decreases |atts|
  {
    var front := atts[..|atts| - 1];
    if k < |atts| - 1 {
      SingleFailureIsolated(front, k);
    } else {
      AllCommitted(front);
    }
  }

  /** When every attempt commits, all of them are counted as successes and none failed. */
  lemma {:induction false} AllCommitted(atts: seq<Attempt>)
    requires forall i :: 0 <= i < |atts| ==> atts[i].blob.Some?
    ensures SuccessCount(atts) == |atts| && FailedUuids(atts) == []
    decreases |atts|
  {
    if atts != [] {
      AllCommitted(atts[..|atts| - 1]);
    }
  }

  /** The fallback agrees with the batch when nothing fails: the same attempts, all of
      them counted as successes. */
  lemma BatchIsRetryWithoutFailures(requests: seq<WorkflowRequest>, serialize: WorkflowRequest -> Option<Bytes>)
    requires AllSerialize(requests, serialize)
    ensures BatchAttempts(requests, serialize) == RetryAttempts(requests, serialize, _ => false)
    ensures SuccessCount(BatchAttempts(requests, serialize)) == |requests|
    ensures FailedUuids(BatchAttempts(requests, serialize)) == []
  {
    AllCommitted(BatchAttempts(requests, serialize));
  }

  predicate DistinctUuids(requests: seq<WorkflowRequest>) {
    forall i, j :: 0 <= i < j < |requests| ==> requests[i].uuid != requests[j].uuid
  }

  /** A committed batch of records with distinct, stored uuids leaves every record's row
      holding that record's serialisation. */
  lemma BatchWritesEveryRecord(table: Table, requests: seq<WorkflowRequest>, serialize: WorkflowRequest -> Option<Bytes>, k: nat)
    requires AllSerialize(requests, serialize) && DistinctUuids(requests)
    requires k < |requests| && requests[k].uuid in table
    ensures requests[k].uuid in Commit(table, BatchAttempts(requests, serialize))
    ensures Commit(table, BatchAttempts(requests, serialize))[requests[k].uuid] == serialize(requests[k]).value
  {
    CommitLastWriteWins(table, BatchAttempts(requests, serialize), k);
  }

  /** Fallback isolation: when exactly one record of a chunk fails to serialise and no
      update raises, the fallback counts all others as updated and one as failed, logs the
      failing record's uuid, writes every other record and leaves the failing row as it
      was. */
  lemma FallbackIsolation(table: Table, requests: seq<WorkflowRequest>, serialize: WorkflowRequest -> Option<Bytes>, k: nat)
    requires k < |requests| && serialize(requests[k]).None?
    requires forall j :: 0 <= j < |requests| && j != k ==> serialize(requests[j]).Some?
    requires DistinctUuids(requests)
    ensures SuccessCount(RetryAttempts(requests, serialize, _ => false)) == |requests| - 1
    ensures FailedUuids(RetryAttempts(requests, serialize, _ => false)) == [requests[k].uuid]
    ensures forall j :: 0 <= j < |requests| && j != k && requests[j].uuid in table ==>
              requests[j].uuid in Commit(table, RetryAttempts(requests, serialize, _ => false)) &&
              Commit(table, RetryAttempts(requests, serialize, _ => false))[requests[j].uuid] == serialize(requests[j]).value
    ensures requests[k].uuid in table ==>
              requests[k].uuid in Commit(table, RetryAttempts(requests, serialize, _ => false)) &&
              Commit(table, RetryAttempts(requests, serialize, _ => false))[requests[k].uuid] == table[requests[k].uuid]
  {
    var atts := RetryAttempts(requests, serialize, _ => false);
    SingleFailureIsolated(atts, k);
    forall j | 0 <= j < |requests| && j != k && requests[j].uuid in table
      ensures requests[j].uuid in Commit(table, atts) && Commit(table, atts)[requests[j].uuid] == serialize(requests[j]).value
    {
      CommitLastWriteWins(table, atts, j);
    }
    if requests[k].uuid in table {
      CommitLeavesUnwritten(table, atts, requests[k].uuid);
    }
  }
}
