/**
  RegisterCommands.execute(): for each enabled module, load it and await its
  optional `discoverCommands` hook, logging a failure and going on; then
  register every discovered command once, logging a failure of that step.
  Nothing is returned: the model's observable results are the error lines
  and what the command repository receives.
 */
module RegisterCommandsUseCase {
  import opened Wrappers
  import opened OrderedMaps
  import opened CapabilityRegistry
  import opened Config
  import opened CommandTool
  import opened CommandService
  import ModuleLoader
  import opened ModuleSteps

  /** The error line logged when registering with Discord failed. */
  function RegistrationFailureLine(message: string): string {
    "Failed to register commands with Discord: " + message
  }

  /** The aggregate step's error log. */
  function RegistrationLog(outcome: RegistrationOutcome): (lines: seq<string>)
    ensures lines != [] <==> outcome.RegistrationFailed?
  {
    if outcome.RegistrationFailed? then [RegistrationFailureLine(outcome.error)] else []
  }

  class RegisterCommands {
    constructor ()
    {
    }

    /**
      `execute()`: `errorLog` is what reaches `console.error`, in order,
      `registration` how the aggregate registration step ended and
      `submitted` what the repository received, if it was called. The
      registration step depends only on the registries, never on how the
      modules' discovery went.
     */
    method Execute(enabled: seq<EnabledModule>, importOf: string -> ModuleLoader.ImportResult,
                   slash: OrderedMap<string, ClassId>, user: OrderedMap<string, ClassId>, message: OrderedMap<string, ClassId>,
                   build: ClassId -> Result<CommandJson, string>, registerCommands: seq<CommandJson> -> Result<nat, string>)
        returns (errorLog: seq<string>, registration: RegistrationOutcome, submitted: Option<seq<CommandJson>>)
      requires slash.Valid() && user.Valid() && message.Valid()
      ensures registration == RegisterDiscoveredCommands(BuildFrom([], DiscoveredClasses(slash, user, message), build), registerCommands)
      ensures errorLog == DiscoveryErrors(CommandDiscovery, enabled, importOf) + RegistrationLog(registration)
      ensures var built := BuildFrom([], DiscoveredClasses(slash, user, message), build);
              && (submitted.Some? <==> (built.Success? && built.value != []))
              && (submitted.Some? ==> built == Success(submitted.value))
    {
      errorLog := DiscoverEach(CommandDiscovery, enabled, importOf);
      var built := BuildCommandsFromRegistry(slash, user, message, build);
      registration := RegisterDiscoveredCommands(built, registerCommands);
      submitted := if built.Success? && built.value != [] then Some(built.value) else None;
      if registration.RegistrationFailed? {
        errorLog := errorLog + [RegistrationFailureLine(registration.error)];
      }
    }
  }

  /**
    A failed discovery does not stop the run: even when every module's
    discovery fails, each module has its own line, in order, and the
    registration step's line, if any, follows them.
   */
  lemma RegistrationRunsAfterEveryModule(enabled: seq<EnabledModule>, importOf: string -> ModuleLoader.ImportResult,
                                         registration: RegistrationOutcome)
    requires forall j :: 0 <= j < |enabled| ==> Discover(CommandDiscovery, enabled[j].name, importOf).Throws?
    ensures var log := DiscoveryErrors(CommandDiscovery, enabled, importOf) + RegistrationLog(registration);
            && |log| == |enabled| + |RegistrationLog(registration)|
            && (forall j :: 0 <= j < |enabled| ==>
                  log[j] == DiscoveryFailureLine(CommandDiscovery, enabled[j].name, Discover(CommandDiscovery, enabled[j].name, importOf).message))
            && log[|enabled|..] == RegistrationLog(registration)
  {
    AllFailedLogsEach(CommandDiscovery, enabled, importOf);
  }
}
