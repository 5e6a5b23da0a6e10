/** Re-encryption of configuration files: the three phases, their order, and the shared
    counters they reset. */
module ConfigRotation {
  import opened ConfigPaths

  /** One invocation of the per-file updater. */
  datatype UpdateCall = UpdateCall(file: string, property: Property)

  /** The counter pair read after a phase. */
  datatype PhaseReport = PhaseReport(updated: nat, failed: nat)

  /** The file-system helpers and the counters they share. Their implementation is not part
      of this model: listing a directory and rewriting a file are given as fixed answers,
      and an update adds one to exactly one of the two counters. */
  class ConfigFileUtil {
    /** Files returned for the IS home and path components. */
    const listFiles: (string, seq<string>) -> seq<string>
    /** Tenant folder names under the IS home. */
    const listTenants: string -> seq<string>
    /** Whether re-encrypting the property in the file succeeds. */
    const rewrites: (string, Property) -> bool

    var updateCount: nat
    var failedUpdateCount: nat
    /** Every updater invocation so far, in order. */
    ghost var calls: seq<UpdateCall>

    constructor (listFiles: (string, seq<string>) -> seq<string>, listTenants: string -> seq<string>,
                 rewrites: (string, Property) -> bool)
      ensures this.listFiles == listFiles && this.listTenants == listTenants && this.rewrites == rewrites
      ensures updateCount == 0 && failedUpdateCount == 0 && calls == []
    {
      this.listFiles, this.listTenants, this.rewrites := listFiles, listTenants, rewrites;
      updateCount, failedUpdateCount := 0, 0;
      calls := [];
    }

    method GetFilePaths(home: string, paths: seq<string>) returns (files: seq<string>)
      ensures files == listFiles(home, paths)
    {
      files := listFiles(home, paths);
    }

    method GetFolderPaths(home: string) returns (tenants: seq<string>)
      ensures tenants == listTenants(home)
    {
      tenants := listTenants(home);
    }

    method UpdateConfigFile(file: string, property: Property)
      modifies this
      ensures calls == old(calls) + [UpdateCall(file, property)]
      ensures rewrites(file, property) ==> updateCount == old(updateCount) + 1 && failedUpdateCount == old(failedUpdateCount)
      ensures !rewrites(file, property) ==> updateCount == old(updateCount) && failedUpdateCount == old(failedUpdateCount) + 1
    {
      if rewrites(file, property) {
        updateCount := updateCount + 1;
      } else {
        failedUpdateCount := failedUpdateCount + 1;
      }
      calls := calls + [UpdateCall(file, property)];
    }
  }

  /** The counters after one more updater invocation. */
  function Step(report: PhaseReport, rewrites: (string, Property) -> bool, c: UpdateCall): PhaseReport {
    if rewrites(c.file, c.property) then PhaseReport(report.updated + 1, report.failed)
    else PhaseReport(report.updated, report.failed + 1)
  }

  /** The counters a sequence of updater invocations produces from zero. */
  function Tally(rewrites: (string, Property) -> bool, calls: seq<UpdateCall>): PhaseReport
    decreases |calls|
  {
    if calls == [] then PhaseReport(0, 0)
    else Step(Tally(rewrites, calls[..|calls| - 1]), rewrites, calls[|calls| - 1])
  }

  /** The updater invocations for a directory listing: one per file, in listing order. */
  function CallsFor(files: seq<string>, property: Property): seq<UpdateCall>
    decreases |files|
  {
    if files == [] then []
    else CallsFor(files[..|files| - 1], property) + [UpdateCall(files[|files| - 1], property)]
  }

  /** The invocations getConfigsAndUpdate makes for one kind. */
  function KindCalls(listFiles: (string, seq<string>) -> seq<string>, home: string, kind: ConfigKind): seq<UpdateCall> {
    CallsFor(listFiles(home, Paths(kind)), PropertyOf(kind))
  }

  /** The invocations of the tenant phase: each tenant's, in folder-listing order. */
  function TenantCalls(listFiles: (string, seq<string>) -> seq<string>, home: string, tenants: seq<string>): seq<UpdateCall>
    decreases |tenants|
  {
    if tenants == [] then []
    else TenantCalls(listFiles, home, tenants[..|tenants| - 1]) + KindCalls(listFiles, home, Tenant(tenants[|tenants| - 1]))
  }

  /** The counts of the tenant phase: each tenant's counts, added up in folder-listing order. */
  function TenantTally(rewrites: (string, Property) -> bool, listFiles: (string, seq<string>) -> seq<string>,
                       home: string, tenants: seq<string>): PhaseReport
    decreases |tenants|
  {
    if tenants == [] then PhaseReport(0, 0)
    else
      var before := TenantTally(rewrites, listFiles, home, tenants[..|tenants| - 1]);
      var last := Tally(rewrites, KindCalls(listFiles, home, Tenant(tenants[|tenants| - 1])));
      PhaseReport(before.updated + last.updated, before.failed + last.failed)
  }

  /** Counting tenant by tenant agrees with counting the whole tenant phase at once: one
      reset before the loop makes the counters accumulate over all tenants. */
  lemma {:induction false} TenantTallyIsPhaseTally(rewrites: (string, Property) -> bool,
                                                   listFiles: (string, seq<string>) -> seq<string>,
                                                   home: string, tenants: seq<string>)
    ensures TenantTally(rewrites, listFiles, home, tenants) == Tally(rewrites, TenantCalls(listFiles, home, tenants))
    decreases |tenants|
  {
    if tenants != [] {
      var front := tenants[..|tenants| - 1];
      TenantTallyIsPhaseTally(rewrites, listFiles, home, front);
      TallyAppend(rewrites, TenantCalls(listFiles, home, front), KindCalls(listFiles, home, Tenant(tenants[|tenants| - 1])));
    }
  }

  /** The updater is invoked exactly once per listed file, in listing order, with the
      given property. */
  lemma {:induction false} CallsForEachFile(files: seq<string>, property: Property)
    ensures |CallsFor(files, property)| == |files|
    ensures forall i :: 0 <= i < |files| ==> CallsFor(files, property)[i] == UpdateCall(files[i], property)
    decreases |files|
  {
    if files != [] {
      CallsForEachFile(files[..|files| - 1], property);
    }
  }

  /** One more listed file adds one invocation at the end. */
  lemma CallsForSnoc(files: seq<string>, i: nat, property: Property)
    requires i < |files|
    ensures CallsFor(files[..i + 1], property) == CallsFor(files[..i], property) + [UpdateCall(files[i], property)]
  {
    assert files[..i + 1][..i] == files[..i];
  }

  /** One more invocation moves the counters by one step. */
  lemma TallySnoc(rewrites: (string, Property) -> bool, calls: seq<UpdateCall>, c: UpdateCall)
    ensures Tally(rewrites, calls + [c]) == Step(Tally(rewrites, calls), rewrites, c)
  {
    assert (calls + [c])[..|calls|] == calls;
  }

  /** One more tenant folder appends that tenant's invocations to a trace that ends with
      the earlier tenants' ones, and adds its counts. */
  lemma TenantSnoc(rewrites: (string, Property) -> bool, listFiles: (string, seq<string>) -> seq<string>,
                   home: string, tenants: seq<string>, i: nat, trace: seq<UpdateCall>)
    requires i < |tenants|
    ensures trace + TenantCalls(listFiles, home, tenants[..i + 1])
              == (trace + TenantCalls(listFiles, home, tenants[..i])) + KindCalls(listFiles, home, Tenant(tenants[i]))
    ensures TenantTally(rewrites, listFiles, home, tenants[..i + 1]).updated
              == TenantTally(rewrites, listFiles, home, tenants[..i]).updated
                 + Tally(rewrites, KindCalls(listFiles, home, Tenant(tenants[i]))).updated
    ensures TenantTally(rewrites, listFiles, home, tenants[..i + 1]).failed
              == TenantTally(rewrites, listFiles, home, tenants[..i]).failed
                 + Tally(rewrites, KindCalls(listFiles, home, Tenant(tenants[i]))).failed
  {
    assert tenants[..i + 1][..i] == tenants[..i];
  }

  /** Counters over consecutive runs of invocations add up. */
  lemma {:induction false} TallyAppend(rewrites: (string, Property) -> bool, a: seq<UpdateCall>, b: seq<UpdateCall>)
    ensures Tally(rewrites, a + b).updated == Tally(rewrites, a).updated + Tally(rewrites, b).updated
    ensures Tally(rewrites, a + b).failed == Tally(rewrites, a).failed + Tally(rewrites, b).failed
    decreases |b|
  {
    if b == [] {
      assert a + b == a;
    } else {
      TallyAppend(rewrites, a, b[..|b| - 1]);
      assert (a + b)[..|a + b| - 1] == a + b[..|b| - 1];
    }
  }

  /** Every invocation is counted once, as updated or as failed. */
  lemma {:induction false} TallyCountsEveryCall(rewrites: (string, Property) -> bool, calls: seq<UpdateCall>)
    ensures Tally(rewrites, calls).updated + Tally(rewrites, calls).failed == |calls|
    ensures Tally(rewrites, calls).updated == |calls| <==> forall i :: 0 <= i < |calls| ==> rewrites(calls[i].file, calls[i].property)
    decreases |calls|
  {
    if calls != [] {
      var front := calls[..|calls| - 1];
      TallyCountsEveryCall(rewrites, front);
      assert forall i :: 0 <= i < |front| ==> front[i] == calls[i];
    }
  }

  /** Re-encrypts every file of one kind's directory: the kind fixes the path and the
      property, and the updater is called once per listed file. */
  method GetConfigsAndUpdate(util: ConfigFileUtil, home: string, kind: ConfigKind)
    modifies util
    ensures util.calls == old(util.calls) + KindCalls(util.listFiles, home, kind)
    ensures util.updateCount == old(util.updateCount) + Tally(util.rewrites, KindCalls(util.listFiles, home, kind)).updated
    ensures util.failedUpdateCount == old(util.failedUpdateCount) + Tally(util.rewrites, KindCalls(util.listFiles, home, kind)).failed
  {
    var paths := Paths(kind);
    var property := PropertyOf(kind);
    var configFiles := util.GetFilePaths(home, paths);
    var i := 0;
    while i < |configFiles|
      invariant 0 <= i <= |configFiles|
      invariant util.calls == old(util.calls) + CallsFor(configFiles[..i], property)
      invariant util.updateCount == old(util.updateCount) + Tally(util.rewrites, CallsFor(configFiles[..i], property)).updated
      invariant util.failedUpdateCount == old(util.failedUpdateCount) + Tally(util.rewrites, CallsFor(configFiles[..i], property)).failed
    {
      CallsForSnoc(configFiles, i, property);
      TallySnoc(util.rewrites, CallsFor(configFiles[..i], property), UpdateCall(configFiles[i], property));
      util.UpdateConfigFile(configFiles[i], property);
      i := i + 1;
    }
    assert configFiles[..i] == configFiles;
  }

  /** Super-tenant phase: resets both counters, then re-encrypts the super-tenant user
      store files. */
  method ReEncryptSuperTenantUserStore(util: ConfigFileUtil, home: string)
    modifies util
    ensures util.calls == old(util.calls) + KindCalls(util.listFiles, home, SuperTenant)
    ensures util.updateCount == Tally(util.rewrites, KindCalls(util.listFiles, home, SuperTenant)).updated
    ensures util.failedUpdateCount == Tally(util.rewrites, KindCalls(util.listFiles, home, SuperTenant)).failed
  {
    util.updateCount := 0;
    util.failedUpdateCount := 0;
    GetConfigsAndUpdate(util, home, SuperTenant);
  }

  /** Tenant phase: resets both counters once, then re-encrypts every tenant's user store
      files in folder-listing order, so the counters accumulate over the tenants. */
  method ReEncryptTenantUserStore(util: ConfigFileUtil, home: string)
    modifies util
    ensures util.calls == old(util.calls) + TenantCalls(util.listFiles, home, util.listTenants(home))
    ensures util.updateCount == TenantTally(util.rewrites, util.listFiles, home, util.listTenants(home)).updated
    ensures util.failedUpdateCount == TenantTally(util.rewrites, util.listFiles, home, util.listTenants(home)).failed
  {
    util.updateCount := 0;
    util.failedUpdateCount := 0;
    var tenants := util.GetFolderPaths(home);
    var i := 0;
    while i < |tenants|
      invariant 0 <= i <= |tenants|
      invariant util.calls == old(util.calls) + TenantCalls(util.listFiles, home, tenants[..i])
      invariant util.updateCount == TenantTally(util.rewrites, util.listFiles, home, tenants[..i]).updated
      invariant util.failedUpdateCount == TenantTally(util.rewrites, util.listFiles, home, tenants[..i]).failed
    {
      TenantSnoc(util.rewrites, util.listFiles, home, tenants, i, old(util.calls));
      GetConfigsAndUpdate(util, home, Tenant(tenants[i]));
      i := i + 1;
    }
    assert tenants[..i] == tenants;
  }

  /** Event-publisher phase: resets both counters, then re-encrypts the event publisher
      files. */
  method ReEncryptEventPublishers(util: ConfigFileUtil, home: string)
    modifies util
    ensures util.calls == old(util.calls) + KindCalls(util.listFiles, home, EventPublisher)
    ensures util.updateCount == Tally(util.rewrites, KindCalls(util.listFiles, home, EventPublisher)).updated
    ensures util.failedUpdateCount == Tally(util.rewrites, KindCalls(util.listFiles, home, EventPublisher)).failed
  {
    util.updateCount := 0;
    util.failedUpdateCount := 0;
    GetConfigsAndUpdate(util, home, EventPublisher);
  }

  /** Runs the three phases in order, super tenant, tenants, event publishers, and returns
      the counter pair read after each: each pair covers its own phase only, and the
      counters are left holding the event-publisher phase's counts. */
  method ConfigFileReEncryptor(util: ConfigFileUtil, home: string) returns (reports: seq<PhaseReport>)
    modifies util
    ensures util.calls == old(util.calls) + KindCalls(util.listFiles, home, SuperTenant)
                                          + TenantCalls(util.listFiles, home, util.listTenants(home))
                                          + KindCalls(util.listFiles, home, EventPublisher)
    ensures reports == [Tally(util.rewrites, KindCalls(util.listFiles, home, SuperTenant)),
                        TenantTally(util.rewrites, util.listFiles, home, util.listTenants(home)),
                        Tally(util.rewrites, KindCalls(util.listFiles, home, EventPublisher))]
    ensures util.updateCount == reports[2].updated && util.failedUpdateCount == reports[2].failed
  {
    ReEncryptSuperTenantUserStore(util, home);
    var superTenant := PhaseReport(util.updateCount, util.failedUpdateCount);
    ReEncryptTenantUserStore(util, home);
    var tenants := PhaseReport(util.updateCount, util.failedUpdateCount);
    ReEncryptEventPublishers(util, home);
    var publishers := PhaseReport(util.updateCount, util.failedUpdateCount);
    reports := [superTenant, tenants, publishers];
  }
}
