# Key-rotation migration core, modelled in Dafny

This project models the parts of the WSO2 identity key-rotation tool that move
re-encrypted data back into storage. Three pieces are modelled:

- **WF_REQUEST chunk migration** (`WorkFlowDAO`). The driver name chooses one of three
  paginated read queries and the order in which `(startIndex, chunkSize)` are bound.
  A chunk read decodes the returned rows in order and stops at the first row that
  cannot be fetched or deserialised. A NULL blob or an object of another class raises
  an unchecked exception that escapes the read. The write puts the whole chunk in one batch with
  one commit. If that fails, it rolls back and retries each record with its own commit.
  It keeps the cumulative counters `updateCount` and `failedUpdateCount`.
- **Config-file re-encryption** (`ConfigFileKeyRotator`). There are three phases, run in
  this order: super-tenant user stores, every tenant's user stores, event publishers.
  Each phase resets the shared `ConfigFileUtil` counters and then calls the per-file
  updater once for each listed file, in listing order.
- **Data holders**. `RegistryProperty` has four final fields and a settable new value.
  `CipherInitializationVector` holds {cipher, initialisation vector, key id}, each with
  its own setter.

Files and modules:

| file | module | contents |
|---|---|---|
| wrappers.dfy | `Wrappers` | `Option` (Java null, or a call that can fail) and `Result` (a value or a thrown exception) |
| java_strings.dfy | `JavaStrings` | `String.contains` as `Contains`, proved equal to the substring predicate `Occurs` |
| wf_types.dfy | `WfTypes` | `WorkflowRequest`, blobs, `KeyRotationException` and its two messages, and the two unchecked exceptions a read can raise |
| dialect.dfy | `Dialect` | the three read queries, the bound statement, and how the driver name picks one |
| chunk_read.dfy | `ChunkRead` | the query outcome and how a chunk's rows are decoded |
| chunk_write.dfy | `ChunkWrite` | the table as a map from uuid to blob, the batch and retry updates, their counts |
| workflow_dao.dfy | `WfRequestMigration` | the class `WorkFlowDAO` (counters and table) with the read, write and retry methods |
| config_paths.dfy | `ConfigPaths` | the closed choice super-tenant / tenant(t) / event-publisher, with its path and property |
| config_rotation.dfy | `ConfigRotation` | a stand-in for `ConfigFileUtil`, and the phase methods of the rotator |
| registry_property.dfy | `Registry` | the class `RegistryProperty` |
| cipher_iv.dfy | `CipherMetadata` | the class `CipherInitializationVector` |

Anything outside the program is passed in as a parameter:

- The database is three oracles. A `Connection` either is unreachable or reports a
  driver name. `execute` maps a bound statement to a `QueryOutcome`. A `WriteOracle`
  says whether the connection opens, whether the batch raises, whether the fallback
  statement can be prepared, and whether the i-th fallback update raises.
- Java object serialisation is two functions passed in: `serialize` and `deserialize`.
  `serialize` may return `None`, which stands for an `IOException`. `deserialize`
  yields the request, a checked failure (`IOException` or `ClassNotFoundException`),
  or an object of another class, which the cast turns into `ClassCastException`.
- `DBConstants` is not part of this model. The driver-name markers are a parameter
  (`Markers`), and the queries are an enumeration. `Dialect.Window` assumes that the
  PostgreSQL query takes (limit, offset) and the other two take (offset, limit).
- `ConfigFileUtil` is not part of this model either. The class `ConfigRotation.ConfigFileUtil`
  stands in for it. It answers directory listings from fixed functions. Its updater adds
  one to exactly one counter and appends the call to a ghost trace `calls`.
- `KeyRotationConstants` is not part of this model. The path components assume the
  standard Identity Server layout: `repository/deployment/server/userstores`,
  `repository/tenants/<t>/userstores` and `repository/deployment/server/eventpublishers`.
  The two property names are an enumeration.

A row that fails to fetch or decode ends the read. The catch at WorkFlowDAO.java:95
wraps the whole loop at 90-94, so the rows decoded so far are returned. The model
follows this (`ChunkRead.DecodedPrefix`). That catch names only `SQLException`,
`IOException` and `ClassNotFoundException`. A NULL blob at 91 makes the byte stream at
181 throw `NullPointerException`. A blob holding another class makes the cast at 184
throw `ClassCastException`. Neither is caught, so the read throws and returns no list
(`ChunkRead.Escape`).

## Model

| member | source | states |
|---|---|---|
| JavaStrings.ContainsOccurs | components/org.wso2.carbon.identity.keyrotation/src/main/java/org.wso2.carbon.identity.keyrotation/dao/WorkFlowDAO.java:77-82 | the driver-name test `contains` holds exactly when the marker occurs as a substring at some position (both directions) |
| Dialect.SelectStatement | components/org.wso2.carbon.identity.keyrotation/src/main/java/org.wso2.carbon.identity.keyrotation/dao/WorkFlowDAO.java:70-84 | a PostgreSQL marker selects GET_WF_REQUEST_POSTGRE with (chunkSize, startIndex) and takes priority; otherwise an MSSQL or Oracle marker selects GET_WF_REQUEST_OTHER with (startIndex, chunkSize); any other driver silently gets GET_WF_REQUEST with (startIndex, chunkSize) |
| Dialect.SelectedWindowIsRequested | components/org.wso2.carbon.identity.keyrotation/src/main/java/org.wso2.carbon.identity.keyrotation/dao/WorkFlowDAO.java:77-87 | read in the parameter order each query expects, every selected statement asks for offset startIndex and limit chunkSize |
| ChunkRead.DecodedPrefixStopsAtFirstFailure | components/org.wso2.carbon.identity.keyrotation/src/main/java/org.wso2.carbon.identity.keyrotation/dao/WorkFlowDAO.java:88-98 | `DecodeRow` fetches, deserialises and casts one row; the read's result is rows 0..k-1 decoded in result order, where k is the first row whose fetch or deserialisation fails (or all rows if none fails); it never skips a row; an exception escapes exactly when row k raises an unchecked one |
| WfRequestMigration.WorkFlowDAO.GetWFRequestChunks | components/org.wso2.carbon.identity.keyrotation/src/main/java/org.wso2.carbon.identity.keyrotation/dao/WorkFlowDAO.java:66-103 | only a connection failure throws KeyRotationException; a NULL blob or a wrong-class object at the first failing row throws NullPointerException or ClassCastException; otherwise the result is the decoded prefix of the rows that the selected statement returns, and it is empty if the query itself fails |
| WfRequestMigration.WorkFlowDAO.constructor | components/org.wso2.carbon.identity.keyrotation/src/main/java/org.wso2.carbon.identity.keyrotation/dao/WorkFlowDAO.java:46-51 | both counters start at zero |
| WfRequestMigration.WorkFlowDAO.UpdateWFRequestChunks | components/org.wso2.carbon.identity.keyrotation/src/main/java/org.wso2.carbon.identity.keyrotation/dao/WorkFlowDAO.java:112-136 | connection failure: throws, nothing changes; batch succeeds: each record is written under its uuid, updateCount grows by the list size, failedUpdateCount is unchanged; batch fails: nothing of it remains and the row-by-row retry decides the outcome; on success the two counters grow together by exactly the list size, and no uuid is added to or removed from the table |
| WfRequestMigration.WorkFlowDAO.RetryOnRequestUpdate | components/org.wso2.carbon.identity.keyrotation/src/main/java/org.wso2.carbon.identity.keyrotation/dao/WorkFlowDAO.java:145-168 | if the statement cannot be prepared it throws and nothing changes; otherwise records are attempted in list order, each commit applies its own row, each failure leaves the table as it was and logs that record's uuid, later records are still attempted, and updateCount / failedUpdateCount grow by the successes / failures |
| ChunkWrite.CommitKeys | components/org.wso2.carbon.identity.keyrotation/src/main/java/org.wso2.carbon.identity.keyrotation/dao/WorkFlowDAO.java:119-124 | the updates keyed by uuid never add or remove a row |
| ChunkWrite.CommitLeavesUnwritten | components/org.wso2.carbon.identity.keyrotation/src/main/java/org.wso2.carbon.identity.keyrotation/dao/WorkFlowDAO.java:150-163 | a row that no committed update names (outside the list, or its update failed) keeps its stored value |
| ChunkWrite.CommitLastWriteWins | components/org.wso2.carbon.identity.keyrotation/src/main/java/org.wso2.carbon.identity.keyrotation/dao/WorkFlowDAO.java:120-126 | a committed update of an existing row stays in effect unless a later committed update writes the same uuid |
| ChunkWrite.CountsCoverAttempts | components/org.wso2.carbon.identity.keyrotation/src/main/java/org.wso2.carbon.identity.keyrotation/dao/WorkFlowDAO.java:150-163 | every retried record is counted once, as updated or as failed |
| ChunkWrite.FailedUuidsAreFailures | components/org.wso2.carbon.identity.keyrotation/src/main/java/org.wso2.carbon.identity.keyrotation/dao/WorkFlowDAO.java:151-162 | a uuid is logged as failed exactly when the attempt on a record with that uuid failed |
| ChunkWrite.SingleFailureIsolated | components/org.wso2.carbon.identity.keyrotation/src/main/java/org.wso2.carbon.identity.keyrotation/dao/WorkFlowDAO.java:150-163 | if only attempt k fails, the successes are n-1 and the failure log is exactly [uuid of k] |
| ChunkWrite.AllCommitted | components/org.wso2.carbon.identity.keyrotation/src/main/java/org.wso2.carbon.identity.keyrotation/dao/WorkFlowDAO.java:125-127 | if every update commits, all of them are counted as updated and none is logged as failed |
| ChunkWrite.BatchIsRetryWithoutFailures | components/org.wso2.carbon.identity.keyrotation/src/main/java/org.wso2.carbon.identity.keyrotation/dao/WorkFlowDAO.java:119-131 | when every record serialises, the batch performs the same updates as a retry in which nothing fails, and counts the whole list as updated |
| ChunkWrite.BatchWritesEveryRecord | components/org.wso2.carbon.identity.keyrotation/src/main/java/org.wso2.carbon.identity.keyrotation/dao/WorkFlowDAO.java:119-127 | after a committed batch of distinct uuids, each stored record's row holds that record's serialisation |
| ChunkWrite.FallbackIsolation | components/org.wso2.carbon.identity.keyrotation/src/main/java/org.wso2.carbon.identity.keyrotation/dao/WorkFlowDAO.java:128-163 | if exactly one record fails to serialise, the retry counts n-1 updated and 1 failed, logs that record's uuid, writes every other record and leaves that record's row unchanged |
| ConfigPaths.PathsIdentifyKind | components/org.wso2.carbon.identity.keyrotation/src/main/java/org.wso2.carbon.identity.keyrotation/service/ConfigFileKeyRotator.java:83-99 | `Paths` and `PropertyOf` give each variant its path and property; each variant's path identifies the variant, so no two variants and no two tenants share a directory; the user-store property goes with exactly the user-store directories |
| ConfigRotation.ConfigFileUtil.GetFilePaths | components/org.wso2.carbon.identity.keyrotation/src/main/java/org.wso2.carbon.identity.keyrotation/service/ConfigFileKeyRotator.java:100 | stand-in for getFilePaths: returns the listing of the IS home and path components |
| ConfigRotation.ConfigFileUtil.GetFolderPaths | components/org.wso2.carbon.identity.keyrotation/src/main/java/org.wso2.carbon.identity.keyrotation/service/ConfigFileKeyRotator.java:134 | stand-in for getFolderPaths: returns the tenant folders under the IS home |
| ConfigRotation.ConfigFileUtil.UpdateConfigFile | components/org.wso2.carbon.identity.keyrotation/src/main/java/org.wso2.carbon.identity.keyrotation/service/ConfigFileKeyRotator.java:102 | stand-in for updateConfigFile: records the call, and adds one to updateCount if the file is rewritten, otherwise to failedUpdateCount |
| ConfigRotation.CallsForEachFile | components/org.wso2.carbon.identity.keyrotation/src/main/java/org.wso2.carbon.identity.keyrotation/service/ConfigFileKeyRotator.java:100-103 | the updater is invoked exactly once per listed file, in listing order, with the selected property |
| ConfigRotation.TallyAppend | components/org.wso2.carbon.identity.keyrotation/src/main/java/org.wso2.carbon.identity.keyrotation/service/ConfigFileKeyRotator.java:136-139 | counts over consecutive runs of updater calls add up |
| ConfigRotation.TallyCountsEveryCall | components/org.wso2.carbon.identity.keyrotation/src/main/java/org.wso2.carbon.identity.keyrotation/service/ConfigFileKeyRotator.java:100-103 | every updater call is counted once, and all of them count as updated exactly when every file is rewritten |
| ConfigRotation.TenantTallyIsPhaseTally | components/org.wso2.carbon.identity.keyrotation/src/main/java/org.wso2.carbon.identity.keyrotation/service/ConfigFileKeyRotator.java:130-139 | adding up per-tenant counts gives the counts of the whole tenant phase: one reset before the loop makes the counters accumulate over the tenants |
| ConfigRotation.GetConfigsAndUpdate | components/org.wso2.carbon.identity.keyrotation/src/main/java/org.wso2.carbon.identity.keyrotation/service/ConfigFileKeyRotator.java:78-104 | the variant fixes the path (`Paths`) and the property (`PropertyOf`); the updater is called once per listed file, in order, with that property; the counters grow by that directory's counts |
| ConfigRotation.ReEncryptSuperTenantUserStore | components/org.wso2.carbon.identity.keyrotation/src/main/java/org.wso2.carbon.identity.keyrotation/service/ConfigFileKeyRotator.java:113-121 | both counters are reset to 0, then the super-tenant user-store files are processed; afterwards the counters hold exactly this phase's counts |
| ConfigRotation.ReEncryptTenantUserStore | components/org.wso2.carbon.identity.keyrotation/src/main/java/org.wso2.carbon.identity.keyrotation/service/ConfigFileKeyRotator.java:130-141 | both counters are reset once, then every tenant folder is processed in listing order; afterwards the counters hold the sum over the tenants |
| ConfigRotation.ReEncryptEventPublishers | components/org.wso2.carbon.identity.keyrotation/src/main/java/org.wso2.carbon.identity.keyrotation/service/ConfigFileKeyRotator.java:149-157 | both counters are reset to 0, then the event-publisher files are processed; afterwards the counters hold exactly this phase's counts |
| ConfigRotation.ConfigFileReEncryptor | components/org.wso2.carbon.identity.keyrotation/src/main/java/org.wso2.carbon.identity.keyrotation/service/ConfigFileKeyRotator.java:53-67 | the phases run as super tenant, then tenants, then event publishers; the counters read after each phase cover that phase only, and the counters are left holding the event-publisher phase's counts |
| Registry.RegistryProperty.constructor | components/org.wso2.carbon.identity.keyrotation/src/main/java/org.wso2.carbon.identity.keyrotation/model/RegistryProperty.java:40-86 | the getters return the id, name, value and tenant id that were passed in; the new value is null |
| Registry.RegistryProperty.SetNewRegValue | components/org.wso2.carbon.identity.keyrotation/src/main/java/org.wso2.carbon.identity.keyrotation/model/RegistryProperty.java:88-96 | afterwards getNewRegValue returns the value set; it may change only newRegValue, and the four final fields are `const` |
| CipherMetadata.CipherInitializationVector.constructor | components/org.wso2.carbon.identity.keyrotation/src/main/java/org.wso2.carbon.identity.keyrotation/model/CipherInitializationVector.java:26-28 | a fresh instance has cipher, initialisation vector and key id all null |
| CipherMetadata.CipherInitializationVector.SetCipher | components/org.wso2.carbon.identity.keyrotation/src/main/java/org.wso2.carbon.identity.keyrotation/model/CipherInitializationVector.java:35-48 | afterwards getCipher returns the value set; the initialisation vector and key id are unchanged |
| CipherMetadata.CipherInitializationVector.SetInitializationVector | components/org.wso2.carbon.identity.keyrotation/src/main/java/org.wso2.carbon.identity.keyrotation/model/CipherInitializationVector.java:55-68 | afterwards getInitializationVector returns the value set; the cipher and key id are unchanged |
| CipherMetadata.CipherInitializationVector.SetKeyId | components/org.wso2.carbon.identity.keyrotation/src/main/java/org.wso2.carbon.identity.keyrotation/model/CipherInitializationVector.java:70-78 | afterwards getKeyId returns the value set; the cipher and initialisation vector are unchanged |

## Left out

- WfRequestMigration.WorkFlowDAO.UpdateWFRequestChunks: the counters are unbounded naturals. The Java `int` counters would wrap around after 2^31 - 1 updates, and that is not modelled.
- WfRequestMigration.WorkFlowDAO.RetryOnRequestUpdate: `connection.rollback()` throwing inside the per-record catch is not modelled. In Java it would abort the retry with a KeyRotationException.
- WfRequestMigration.WorkFlowDAO.GetWFRequestChunks: every SQL failure outside the inner try is folded into `Unreachable`. That covers `getConnection`, `setAutoCommit`, `getMetaData` and a failing `rollback`.
- JDBC mechanics are not modelled: prepared statements, auto-commit, result-set cursors and closing connections. Their only modelled effects are the oracle answers above.
- The SQL text of the three queries and of `UPDATE_WF_REQUEST`, and the text of the driver markers, are in `DBConstants`. That file is not part of this model. So the parameter order that `Dialect.Window` gives each query, and with it `Dialect.SelectedWindowIsRequested`, rests on an assumption about that text.
- Java object serialisation (`serializeWFRequest`, `deserializeWFRequest`) is a runtime facility. It is passed in as a function that may fail, so no round trip is stated for it.
- ConfigFileUtil (`getFilePaths`, `getFolderPaths`, `updateConfigFile`) is not part of this model. File parsing, crypto and rewriting are reduced to a yes/no per file. The KeyRotationException these helpers may throw, which would abort the remaining phases, is not modelled.
- The chunk-advancing loop that calls the DAO lives outside these files. So the claim that chunks partition the table is not modelled.
- The decrypt and re-encrypt steps are not in these files.
- Logging is modelled only as the returned list of failed uuids and the per-phase counter pairs. The getInstance singletons are not modelled.
- WfRequestMigration.WorkFlowDAO.constructor: the Java counters are `static` (WorkFlowDAO.java:46-47) and the Java constructor does not touch them. The model gives each instance its own counters, zeroed by the constructor. The two agree only while a single DAO exists, which the `getInstance` singleton ensures.
- The `switch` in `getConfigsAndUpdate` has no default branch. The closed datatype `ConfigKind` rules out any other input.
