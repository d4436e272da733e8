/**
  StartMigration.execute(): for each enabled module, load it with the legacy
  loader; in a dry run record it as migrated without calling anything,
  otherwise await its `migrate` with a non-dry-run context and record the
  elapsed time; a failure is recorded with its message and the loop goes on.
  The report counts successes and failures.
 */
module StartMigrationUseCase {
  import opened Wrappers
  import opened Js
  import opened Config
  import opened Reports
  import ModuleLoader
  import LegacyModuleLoader
  import opened SeqLemmas

  /** A loaded module's `migrate` call, as the awaited step sees it. */
  function Migrate(m: JsValue): (o: Outcome)
    requires LegacyModuleLoader.IsValidModule(m)
    ensures o.Ok? <==> ModuleLoader.Prop(m, "migrate").call.Resolves?
    ensures !o.Ok? ==> o == Throws(ModuleLoader.Prop(m, "migrate").call.message)
  {
    Awaited(ModuleLoader.Prop(m, "migrate").call)
  }

  /**
    How a module's step is recorded, given how loading it ended: a load
    failure is recorded with its message; a loaded module is migrated without
    a duration in a dry run, and otherwise migrated with its duration exactly
    when its `migrate` resolves, failing with the rejection's message if not.
   */
  function RecordMigration(name: string, loaded: Result<JsValue, string>, dryRun: bool, duration: nat): (r: ModuleMigrationResult)
    requires loaded.Success? ==> LegacyModuleLoader.IsValidModule(loaded.value)
    ensures r.moduleName == name && !r.status.Skipped?
    ensures loaded.Failure? ==> r == ModuleMigrationResult(name, MigrationFailed, None, Some(loaded.error))
    ensures loaded.Success? && dryRun ==> r == ModuleMigrationResult(name, Migrated, None, None)
    ensures loaded.Success? && !dryRun ==>
              (r.status == Migrated <==> ModuleLoader.Prop(loaded.value, "migrate").call.Resolves?)
    ensures loaded.Success? && !dryRun && r.status == Migrated ==> r.durationMs == Some(duration) && r.error.None?
    ensures loaded.Success? && !dryRun && !ModuleLoader.Prop(loaded.value, "migrate").call.Resolves? ==>
              r.error == Some(ModuleLoader.Prop(loaded.value, "migrate").call.message)
  {
    match loaded
    case Failure(e) => ModuleMigrationResult(name, MigrationFailed, None, Some(e))
    case Success(m) =>
      if dryRun then ModuleMigrationResult(name, Migrated, None, None)
      else match Migrate(m)
        case Ok => ModuleMigrationResult(name, Migrated, Some(duration), None)
        case Throws(msg) => ModuleMigrationResult(name, MigrationFailed, None, Some(msg))
  }

  /** One module's result: FAILED with the message, or "success", with a duration only when `migrate` ran. */
  function MigrationResult(name: string, importOf: string -> ModuleLoader.ImportResult, dryRun: bool, duration: nat): (r: ModuleMigrationResult)
    ensures r.moduleName == name && !r.status.Skipped?
    ensures r.status == MigrationFailed <==> r.error.Some?
    ensures r.durationMs.Some? <==> r.status == Migrated && !dryRun
    ensures LegacyModuleLoader.LoadModuleAsWritten(name, importOf(name)).Failure? ==>
              r.status == MigrationFailed && r.error == Some(LegacyModuleLoader.LoadModuleAsWritten(name, importOf(name)).error)
    ensures dryRun ==> (r.status == Migrated <==> LegacyModuleLoader.LoadModuleAsWritten(name, importOf(name)).Success?)
  {
    RecordMigration(name, LegacyModuleLoader.LoadModuleAsWritten(name, importOf(name)), dryRun, duration)
  }

  /** The per-module results, one per enabled module, in order; `elapsed(j)` is the j-th `migrate`'s measured time. */
  function MigrationResults(enabled: seq<EnabledModule>, importOf: string -> ModuleLoader.ImportResult, dryRun: bool, elapsed: nat -> nat)
      : (rs: seq<ModuleMigrationResult>)
    ensures |rs| == |enabled|
  {
    seq(|enabled|, j requires 0 <= j < |enabled| =>
      RecordMigration(enabled[j].name, LegacyModuleLoader.LoadModuleAsWritten(enabled[j].name, importOf(enabled[j].name)), dryRun, elapsed(j)))
  }

  /** The modules whose `migrate` is called, in order: every loadable one, and none in a dry run. */
  function MigrateCalls(enabled: seq<EnabledModule>, importOf: string -> ModuleLoader.ImportResult, dryRun: bool): (names: seq<string>)
    ensures |names| <= |enabled|
    ensures dryRun ==> names == []
    decreases |enabled|
  {
    if enabled == [] then []
    else
      var last := enabled[|enabled| - 1].name;
      MigrateCalls(enabled[..|enabled| - 1], importOf, dryRun)
        + (if !dryRun && LegacyModuleLoader.LoadModuleAsWritten(last, importOf(last)).Success? then [last] else [])
  }

  class StartMigration {
    const dryRun: bool

    constructor (dryRun: bool)
      ensures this.dryRun == dryRun
    {
      this.dryRun := dryRun;
    }

    /**
      `execute()`: the report, and the names of the modules whose `migrate`
      was called. `totalDuration` is the measured time of the whole run.
     */
    method Execute(enabled: seq<EnabledModule>, importOf: string -> ModuleLoader.ImportResult, elapsed: nat -> nat, totalDuration: nat)
        returns (report: MigrationReport, migrated: seq<string>)
      ensures report.results == MigrationResults(enabled, importOf, dryRun, elapsed)
      ensures report.totalDurationMs == totalDuration
      ensures report.successCount == CountMigrationStatus(report.results, Migrated)
      ensures report.failureCount == CountMigrationStatus(report.results, MigrationFailed)
      ensures report.successCount + report.failureCount == |enabled|
      ensures migrated == MigrateCalls(enabled, importOf, dryRun)
    {
      var results;
      results, migrated := MigrateEach(enabled, importOf, elapsed);
      NoneSkipped(enabled, importOf, dryRun, elapsed);
      MigrationCountsPartition(results);
      report := MigrationReport(results, totalDuration, CountMigrationStatus(results, Migrated), CountMigrationStatus(results, MigrationFailed));
    }

    /** The per-module loop: every module is attempted, a failure is recorded and the loop goes on. */
    method MigrateEach(enabled: seq<EnabledModule>, importOf: string -> ModuleLoader.ImportResult, elapsed: nat -> nat)
        returns (results: seq<ModuleMigrationResult>, migrated: seq<string>)
      ensures results == MigrationResults(enabled, importOf, dryRun, elapsed)
      ensures migrated == MigrateCalls(enabled, importOf, dryRun)
    {
      results := [];
      migrated := [];
      var i := 0;
      while i < |enabled|
        invariant 0 <= i <= |enabled|
        invariant results == MigrationResults(enabled, importOf, dryRun, elapsed)[..i]
        invariant migrated == MigrateCalls(enabled[..i], importOf, dryRun)
      {
        var name := enabled[i].name;
        var loaded := LegacyModuleLoader.LoadModuleAsWritten(name, importOf(name));
        var result := MigrateOne(name, loaded, elapsed(i));
        PrefixExtends(MigrationResults(enabled, importOf, dryRun, elapsed), i);
        MigrateCallsStep(enabled, importOf, dryRun, i);
        if !dryRun && loaded.Success? {
          migrated := migrated + [name];
        }
        results := results + [result];
        i := i + 1;
      }
      assert enabled[..i] == enabled;
    }

    /** The loop's body once the module is loaded: in a real run, await its `migrate`. */
    method MigrateOne(name: string, loaded: Result<JsValue, string>, duration: nat) returns (result: ModuleMigrationResult)
      requires loaded.Success? ==> LegacyModuleLoader.IsValidModule(loaded.value)
      ensures result == RecordMigration(name, loaded, dryRun, duration)
    {
      match loaded {
        case Failure(e) =>
          result := ModuleMigrationResult(name, MigrationFailed, None, Some(e));
        case Success(m) =>
          if dryRun {
            result := ModuleMigrationResult(name, Migrated, None, None);
          } else {
            match Migrate(m) {
              case Ok =>
                result := ModuleMigrationResult(name, Migrated, Some(duration), None);
              case Throws(msg) =>
                result := ModuleMigrationResult(name, MigrationFailed, None, Some(msg));
            }
          }
      }
    }
  }

  /** One more module extends the calls by its name when its `migrate` is called. */
  lemma MigrateCallsStep(enabled: seq<EnabledModule>, importOf: string -> ModuleLoader.ImportResult, dryRun: bool, i: nat)
    requires i < |enabled|
    ensures MigrateCalls(enabled[..i + 1], importOf, dryRun)
              == MigrateCalls(enabled[..i], importOf, dryRun)
                 + (if !dryRun && LegacyModuleLoader.LoadModuleAsWritten(enabled[i].name, importOf(enabled[i].name)).Success? then [enabled[i].name] else [])
  {
    assert enabled[..i + 1][..i] == enabled[..i];
  }

  /** The j-th result is the j-th module's. */
  lemma MigrationResultAt(enabled: seq<EnabledModule>, importOf: string -> ModuleLoader.ImportResult, dryRun: bool, elapsed: nat -> nat, j: nat)
    requires j < |enabled|
    ensures MigrationResults(enabled, importOf, dryRun, elapsed)[j] == MigrationResult(enabled[j].name, importOf, dryRun, elapsed(j))
  {
  }

  /** No module is ever recorded as skipped, so the two counts cover every result. */
  lemma NoneSkipped(enabled: seq<EnabledModule>, importOf: string -> ModuleLoader.ImportResult, dryRun: bool, elapsed: nat -> nat)
    ensures var rs := MigrationResults(enabled, importOf, dryRun, elapsed);
            forall j :: 0 <= j < |rs| ==> rs[j].status != Skipped
  {
    var rs := MigrationResults(enabled, importOf, dryRun, elapsed);
    forall j | 0 <= j < |rs| ensures rs[j].status != Skipped {
      MigrationResultAt(enabled, importOf, dryRun, elapsed, j);
    }
  }

  /** A package whose default export is `null` is recorded as failed with the wrapped TypeError, in either mode. */
  lemma NullExportRecordedAsTypeError(name: string, dryRun: bool, duration: nat)
    ensures var importOf := (n: string) => ModuleLoader.Resolved(Object(map["default" := Null]));
            MigrationResult(name, importOf, dryRun, duration)
              == ModuleMigrationResult(name, MigrationFailed, None,
                                       Some(ModuleLoader.FailurePrefix(name) + LegacyModuleLoader.NullNameRead))
  {
    assert ModuleLoader.Unwrap(Object(map["default" := Null])) == Null;
  }

  /** A module with a resolving `migrate` is migrated with its duration in a real run, and without one in a dry run. */
  lemma ResolvingMigrationSucceeds(name: string, moduleName: string, dryRun: bool, duration: nat)
    ensures var importOf := (n: string) => ModuleLoader.Resolved(Object(map["default" := Object(map["name" := Str(moduleName), "migrate" := Function(Resolves)])]));
            MigrationResult(name, importOf, dryRun, duration)
              == ModuleMigrationResult(name, Migrated, if dryRun then None else Some(duration), None)
  {
    var m := Object(map["name" := Str(moduleName), "migrate" := Function(Resolves)]);
    assert LegacyModuleLoader.IsValidModule(m);
  }

  /** A `migrate` that rejects is recorded as a failure with its message in a real run only. */
  lemma RejectingMigrationFails(name: string, moduleName: string, message: string, duration: nat)
    ensures var importOf := (n: string) => ModuleLoader.Resolved(Object(map["default" := Object(map["name" := Str(moduleName), "migrate" := Function(Rejects(message))])]));
            && MigrationResult(name, importOf, false, duration) == ModuleMigrationResult(name, MigrationFailed, None, Some(message))
            && MigrationResult(name, importOf, true, duration) == ModuleMigrationResult(name, Migrated, None, None)
  {
    var m := Object(map["name" := Str(moduleName), "migrate" := Function(Rejects(message))]);
    assert LegacyModuleLoader.IsValidModule(m);
  }
}
