/**
  The records the lifecycle use cases produce: one `OperationResult` per step
  with status SUCCESS or FAILED, and an `OperationReport` (or, for
  migrations, a `MigrationReport`) that counts them.
 */
module Reports {
  import opened Wrappers

  /** `OperationStatus.SUCCESS` / `OperationStatus.FAILED` */
  datatype OperationStatus = SUCCESS | FAILED

  /** `{ moduleName, status, durationMs?, error? }` */
  datatype OperationResult = OperationResult(moduleName: string, status: OperationStatus, durationMs: Option<nat>, error: Option<string>)

  /** `{ results, totalDurationMs?, successCount, failureCount }` */
  datatype OperationReport = OperationReport(results: seq<OperationResult>, totalDurationMs: Option<nat>, successCount: nat, failureCount: nat)

  /** `results.filter(r => r.status === s).length` */
  function CountStatus(results: seq<OperationResult>, s: OperationStatus): (n: nat)
    ensures n <= |results|
  {
    if results == [] then 0
    else CountStatus(results[..|results| - 1], s) + (if results[|results| - 1].status == s then 1 else 0)
  }

  /** Every result is SUCCESS or FAILED, so the two counts partition the results. */
  lemma {:induction false} CountsPartition(results: seq<OperationResult>)
    ensures CountStatus(results, SUCCESS) + CountStatus(results, FAILED) == |results|
  {
    if results != [] {
      CountsPartition(results[..|results| - 1]);
    }
  }

  /** Appending a result adds one to its own status's count only. */
  lemma CountStatusAppend(results: seq<OperationResult>, r: OperationResult, s: OperationStatus)
    ensures CountStatus(results + [r], s) == CountStatus(results, s) + (if r.status == s then 1 else 0)
  {
    assert (results + [r])[..|results|] == results;
  }

  /** The report over `results`: its counts partition them. */
  function MakeReport(results: seq<OperationResult>, totalDurationMs: nat): (r: OperationReport)
    ensures r.results == results && r.totalDurationMs == Some(totalDurationMs)
    ensures r.successCount == CountStatus(results, SUCCESS) && r.failureCount == CountStatus(results, FAILED)
    ensures r.successCount + r.failureCount == |results|
  {
    CountsPartition(results);
    OperationReport(results, Some(totalDurationMs), CountStatus(results, SUCCESS), CountStatus(results, FAILED))
  }

  /** `'success' | 'skipped' | 'failed'` */
  datatype MigrationStatus = Migrated | Skipped | MigrationFailed

  /** `{ moduleName, status, durationMs?, error? }` of one module's migration. */
  datatype ModuleMigrationResult = ModuleMigrationResult(moduleName: string, status: MigrationStatus, durationMs: Option<nat>, error: Option<string>)

  /** `{ results, totalDurationMs, successCount, failureCount }` */
  datatype MigrationReport = MigrationReport(results: seq<ModuleMigrationResult>, totalDurationMs: nat, successCount: nat, failureCount: nat)

  /** `results.filter(r => r.status === s).length` */
  function CountMigrationStatus(results: seq<ModuleMigrationResult>, s: MigrationStatus): (n: nat)
    ensures n <= |results|
  {
    if results == [] then 0
    else CountMigrationStatus(results[..|results| - 1], s) + (if results[|results| - 1].status == s then 1 else 0)
  }

  /** When no result is skipped, the success and failure counts partition the results. */
  lemma {:induction false} MigrationCountsPartition(results: seq<ModuleMigrationResult>)
    requires forall j :: 0 <= j < |results| ==> results[j].status != Skipped
    ensures CountMigrationStatus(results, Migrated) + CountMigrationStatus(results, MigrationFailed) == |results|
  {
    if results != [] {
      MigrationCountsPartition(results[..|results| - 1]);
    }
  }
}
