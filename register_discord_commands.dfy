/**
  RegisterDiscordCommands.execute(): for each enabled module in order, load
  it and await its optional `discoverCommands` hook, recording SUCCESS with
  the elapsed time or FAILED with the error and going on to the next module;
  then one aggregate step, recorded under "discord-api-registration", that
  submits every discovered command (or, in a dry run, only summarises them).
 */
module RegisterDiscordCommandsUseCase {
  import opened Wrappers
  import opened OrderedMaps
  import opened CapabilityRegistry
  import opened Js
  import opened Config
  import opened Reports
  import opened CommandTool
  import opened CommandService
  import ModuleLoader
  import opened ModuleSteps
  import opened SeqLemmas

  /** The reserved name of the aggregate step's result. */
  const AggregateName: string := "discord-api-registration"

  /** How a module's step is recorded: the elapsed time on success, the error message on failure. */
  function Recorded(name: string, o: Outcome, duration: nat): (r: OperationResult)
    ensures r.moduleName == name
    ensures r.status == SUCCESS <==> o.Ok?
    ensures r.status == SUCCESS ==> r.durationMs == Some(duration) && r.error.None?
    ensures r.status == FAILED ==> r.durationMs.None? && r.error == Some(o.message)
  {
    match o
    case Ok => OperationResult(name, SUCCESS, Some(duration), None)
    case Throws(m) => OperationResult(name, FAILED, None, Some(m))
  }

  /** One module's result: load it, then await `loaded.discoverCommands?.()`. */
  function DiscoveryResult(name: string, importOf: string -> ModuleLoader.ImportResult, duration: nat): (r: OperationResult)
    ensures r.moduleName == name
    ensures r.status == SUCCESS <==>
              && ModuleLoader.LoadModule(name, importOf(name)).Success?
              && CallOptional(CommandDiscovery.receiver, ModuleLoader.LoadModule(name, importOf(name)).value.value, CommandDiscovery.hook).Resolves?
  {
    Recorded(name, Discover(CommandDiscovery, name, importOf), duration)
  }

  /** The per-module results, one per enabled module, in order; `elapsed(j)` is the j-th module's measured time. */
  function DiscoveryResults(enabled: seq<EnabledModule>, importOf: string -> ModuleLoader.ImportResult, elapsed: nat -> nat): (rs: seq<OperationResult>)
    ensures |rs| == |enabled|
  {
    seq(|enabled|, j requires 0 <= j < |enabled| => Recorded(enabled[j].name, Discover(CommandDiscovery, enabled[j].name, importOf), elapsed(j)))
  }

  /** The j-th result is the j-th module's. */
  lemma DiscoveryResultAt(enabled: seq<EnabledModule>, importOf: string -> ModuleLoader.ImportResult, elapsed: nat -> nat, j: nat)
    requires j < |enabled|
    ensures DiscoveryResults(enabled, importOf, elapsed)[j] == DiscoveryResult(enabled[j].name, importOf, elapsed(j))
  {
  }

  /** The aggregate step's result: a dry run always succeeds; otherwise a failed registration is FAILED with its error. */
  function AggregateResult(dryRun: bool, registration: RegistrationOutcome, duration: nat): (r: OperationResult)
    ensures r.moduleName == AggregateName
    ensures r.status == FAILED <==> !dryRun && registration.RegistrationFailed?
  {
    if !dryRun && registration.RegistrationFailed? then OperationResult(AggregateName, FAILED, None, Some(registration.error))
    else OperationResult(AggregateName, SUCCESS, Some(duration), None)
  }

  class RegisterDiscordCommands {
    const dryRun: bool

    constructor (dryRun: bool)
      ensures this.dryRun == dryRun
    {
      this.dryRun := dryRun;
    }

    /**
      `execute()`. The three registries are those the discovery hooks filled;
      `build` is each command class's `buildCommand().toJSON()`,
      `registerCommands` the repository's bulk call, and the durations are
      measured times. `submitted` is what the repository received, if it was
      called.
     */
    method Execute(enabled: seq<EnabledModule>, importOf: string -> ModuleLoader.ImportResult, elapsed: nat -> nat,
                   slash: OrderedMap<string, ClassId>, user: OrderedMap<string, ClassId>, message: OrderedMap<string, ClassId>,
                   build: ClassId -> Result<CommandJson, string>, registerCommands: seq<CommandJson> -> Result<nat, string>,
                   registrationDuration: nat, totalDuration: nat)
        returns (report: OperationReport, submitted: Option<seq<CommandJson>>)
      requires slash.Valid() && user.Valid() && message.Valid()
      ensures var registration := RegisterDiscoveredCommands(BuildFrom([], DiscoveredClasses(slash, user, message), build), registerCommands);
              report == MakeReport(DiscoveryResults(enabled, importOf, elapsed) + [AggregateResult(dryRun, registration, registrationDuration)], totalDuration)
      ensures dryRun ==> submitted.None?
      ensures var built := BuildFrom([], DiscoveredClasses(slash, user, message), build);
              !dryRun ==> (submitted.Some? <==> (built.Success? && built.value != []))
      ensures submitted.Some? ==> BuildFrom([], DiscoveredClasses(slash, user, message), build) == Success(submitted.value)
    {
      var results := DiscoverAll(enabled, importOf, elapsed);
      var aggregate;
      aggregate, submitted := RegisterAll(slash, user, message, build, registerCommands, registrationDuration);
      report := MakeReport(results + [aggregate], totalDuration);
    }

    /** The per-module loop: every module is attempted, a failure is recorded and the loop goes on. */
    method DiscoverAll(enabled: seq<EnabledModule>, importOf: string -> ModuleLoader.ImportResult, elapsed: nat -> nat)
        returns (results: seq<OperationResult>)
      ensures results == DiscoveryResults(enabled, importOf, elapsed)
    {
      results := [];
      var i := 0;
      while i < |enabled|
        invariant 0 <= i <= |enabled|
        invariant results == DiscoveryResults(enabled, importOf, elapsed)[..i]
      {
        var outcome := Discover(CommandDiscovery, enabled[i].name, importOf);
        var result := Recorded(enabled[i].name, outcome, elapsed(i));
        PrefixExtends(DiscoveryResults(enabled, importOf, elapsed), i);
        results := results + [result];
        i := i + 1;
      }
    }

    /** The aggregate step: skipped in a dry run, otherwise build every discovered command and submit them. */
    method RegisterAll(slash: OrderedMap<string, ClassId>, user: OrderedMap<string, ClassId>, message: OrderedMap<string, ClassId>,
                       build: ClassId -> Result<CommandJson, string>, registerCommands: seq<CommandJson> -> Result<nat, string>,
                       registrationDuration: nat)
        returns (aggregate: OperationResult, submitted: Option<seq<CommandJson>>)
      requires slash.Valid() && user.Valid() && message.Valid()
      ensures var built := BuildFrom([], DiscoveredClasses(slash, user, message), build);
              && aggregate == AggregateResult(dryRun, RegisterDiscoveredCommands(built, registerCommands), registrationDuration)
              && (dryRun ==> submitted.None?)
              && (!dryRun ==> (submitted.Some? <==> (built.Success? && built.value != [])))
              && (submitted.Some? ==> built == Success(submitted.value))
    {
      submitted := None;
      if dryRun {
        aggregate := OperationResult(AggregateName, SUCCESS, Some(registrationDuration), None);
      } else {
        var built := BuildCommandsFromRegistry(slash, user, message, build);
        var registration := RegisterDiscoveredCommands(built, registerCommands);
        if built.Success? && built.value != [] {
          submitted := Some(built.value);
        }
        if registration.RegistrationFailed? {
          aggregate := OperationResult(AggregateName, FAILED, None, Some(registration.error));
        } else {
          aggregate := OperationResult(AggregateName, SUCCESS, Some(registrationDuration), None);
        }
      }
    }
  }

  /**
    The report lists every enabled module once, in order, then exactly one
    "discord-api-registration" entry, and its counts partition the entries.
   */
  lemma ReportShape(enabled: seq<EnabledModule>, importOf: string -> ModuleLoader.ImportResult, elapsed: nat -> nat,
                    dryRun: bool, registration: RegistrationOutcome, registrationDuration: nat, totalDuration: nat)
    ensures var r := MakeReport(DiscoveryResults(enabled, importOf, elapsed) + [AggregateResult(dryRun, registration, registrationDuration)], totalDuration);
            && |r.results| == |enabled| + 1
            && (forall j :: 0 <= j < |enabled| ==> r.results[j].moduleName == enabled[j].name)
            && r.results[|enabled|].moduleName == AggregateName
            && r.successCount + r.failureCount == |r.results|
  {
    var rs := DiscoveryResults(enabled, importOf, elapsed);
    forall j | 0 <= j < |enabled| ensures rs[j].moduleName == enabled[j].name {
      DiscoveryResultAt(enabled, importOf, elapsed, j);
    }
  }

  /** A module that loads and has no `discoverCommands` hook is recorded SUCCESS with its duration. */
  lemma ModuleWithoutHookSucceeds(name: string, importOf: string -> ModuleLoader.ImportResult, duration: nat)
    requires ModuleLoader.LoadModule(name, importOf(name)).Success?
    requires "discoverCommands" !in ModuleLoader.LoadModule(name, importOf(name)).value.value.props
    ensures DiscoveryResult(name, importOf, duration) == OperationResult(name, SUCCESS, Some(duration), None)
  {
    LoadThenCallSucceeds(name, importOf(name), CommandDiscovery.receiver, CommandDiscovery.hook);
  }

  /** A module that fails to load is recorded FAILED with the loader's message and no duration. */
  lemma LoadFailureIsRecorded(name: string, importOf: string -> ModuleLoader.ImportResult, duration: nat)
    requires ModuleLoader.LoadModule(name, importOf(name)).Failure?
    ensures DiscoveryResult(name, importOf, duration) == OperationResult(name, FAILED, None, Some(ModuleLoader.LoadModule(name, importOf(name)).error))
  {
  }

  /** In a dry run the aggregate entry is SUCCESS whatever registering would have done. */
  lemma DryRunAggregateSucceeds(registration: RegistrationOutcome, duration: nat)
    ensures AggregateResult(true, registration, duration).status == SUCCESS
  {
  }
}
