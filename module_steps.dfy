/**
  The step every lifecycle use case repeats per enabled module: load the
  module with the newer loader, then call one of its optional hooks; a
  failure at either point is caught by the use case as an error message.
 */
module ModuleSteps {
  import opened Wrappers
  import opened Js
  import ModuleLoader
  import opened Config

  /**
    `const m = await loadModule(name); m.<hook>?.()`, with the hook's
    promise awaited or not: how the step ends as seen by the surrounding
    `try`.
   */
  function LoadThenCall(name: string, imported: ModuleLoader.ImportResult, receiver: string, hook: string, awaited: bool): (o: Outcome)
    ensures ModuleLoader.LoadModule(name, imported).Failure? ==> o == Throws(ModuleLoader.LoadModule(name, imported).error)
    ensures ModuleLoader.LoadModule(name, imported).Success? ==>
              var c := CallOptional(receiver, ModuleLoader.LoadModule(name, imported).value.value, hook);
              o == if awaited then Awaited(c) else NotAwaited(c)
  {
    match ModuleLoader.LoadModule(name, imported)
    case Failure(e) => Throws(e)
    case Success(loaded) =>
      var c := CallOptional(receiver, loaded.value, hook);
      if awaited then Awaited(c) else NotAwaited(c)
  }

  /**
    The step succeeds exactly when the module loads and its hook, if it has
    one, completes; a loaded module without the hook always succeeds.
   */
  lemma LoadThenCallSucceeds(name: string, imported: ModuleLoader.ImportResult, receiver: string, hook: string)
    ensures LoadThenCall(name, imported, receiver, hook, true).Ok? <==>
              && ModuleLoader.LoadModule(name, imported).Success?
              && CallOptional(receiver, ModuleLoader.LoadModule(name, imported).value.value, hook).Resolves?
    ensures (&& ModuleLoader.LoadModule(name, imported).Success?
             && hook !in ModuleLoader.LoadModule(name, imported).value.value.props) ==>
              LoadThenCall(name, imported, receiver, hook, true).Ok?
  {
    if ModuleLoader.LoadModule(name, imported).Success? {
      ModuleLoader.LoadedModuleShape(name, imported);
    }
  }

  /**
    Not awaiting the hook only loses its asynchronous rejections: the step
    then ends the same way as an awaited one unless the hook rejects.
   */
  lemma NotAwaitingLosesOnlyRejections(name: string, imported: ModuleLoader.ImportResult, receiver: string, hook: string)
    ensures (|| ModuleLoader.LoadModule(name, imported).Failure?
             || !CallOptional(receiver, ModuleLoader.LoadModule(name, imported).value.value, hook).Rejects?) ==>
              LoadThenCall(name, imported, receiver, hook, false) == LoadThenCall(name, imported, receiver, hook, true)
    ensures (&& ModuleLoader.LoadModule(name, imported).Success?
             && CallOptional(receiver, ModuleLoader.LoadModule(name, imported).value.value, hook).Rejects?) ==>
              && LoadThenCall(name, imported, receiver, hook, false).Ok?
              && LoadThenCall(name, imported, receiver, hook, true).Throws?
  {
  }

  /**
    A discovery hook as a use case calls it: the name the module is bound to
    (which appears in "is not a function" messages), the hook, and the noun
    of the failure line.
   */
  datatype HookStep = HookStep(receiver: string, hook: string, noun: string)

  /** `await loaded.discoverCommands?.()`, logged as "Failed to discover commands for module ...". */
  const CommandDiscovery: HookStep := HookStep("loaded", "discoverCommands", "commands")

  /** `await module.discoverListeners?.()`, logged as "Failed to discover listeners for module ...". */
  const ListenerDiscovery: HookStep := HookStep("module", "discoverListeners", "listeners")

  /**
    One module's discovery: load it, then await `<receiver>.<hook>?.()`. It
    succeeds exactly when the module loads and its hook, if any, resolves; a
    load failure is thrown with the loader's message.
   */
  function Discover(step: HookStep, name: string, importOf: string -> ModuleLoader.ImportResult): (o: Outcome)
    ensures o.Ok? <==> && ModuleLoader.LoadModule(name, importOf(name)).Success?
                       && CallOptional(step.receiver, ModuleLoader.LoadModule(name, importOf(name)).value.value, step.hook).Resolves?
    ensures ModuleLoader.LoadModule(name, importOf(name)).Failure? ==> o == Throws(ModuleLoader.LoadModule(name, importOf(name)).error)
  {
    LoadThenCallSucceeds(name, importOf(name), step.receiver, step.hook);
    LoadThenCall(name, importOf(name), step.receiver, step.hook, true)
  }

  /** The error line logged for a module whose discovery failed. */
  function DiscoveryFailureLine(step: HookStep, name: string, message: string): string {
    "Failed to discover " + step.noun + " for module \"" + name + "\": " + message
  }

  /** The line one module contributes to the error log: none when its discovery succeeds. */
  function DiscoveryLog(step: HookStep, name: string, importOf: string -> ModuleLoader.ImportResult): (lines: seq<string>)
    ensures |lines| <= 1
    ensures lines == [] <==> Discover(step, name, importOf).Ok?
  {
    match Discover(step, name, importOf)
    case Ok => []
    case Throws(m) => [DiscoveryFailureLine(step, name, m)]
  }

  /** The discovery loop's error log over the enabled modules, in order. */
  function DiscoveryErrors(step: HookStep, enabled: seq<EnabledModule>, importOf: string -> ModuleLoader.ImportResult): (lines: seq<string>)
    ensures |lines| <= |enabled|
    decreases |enabled|
  {
    if enabled == [] then []
    else DiscoveryErrors(step, enabled[..|enabled| - 1], importOf) + DiscoveryLog(step, enabled[|enabled| - 1].name, importOf)
  }

  /**
    The discovery loop: every enabled module is attempted in order; a failure
    is logged and the loop goes on with the next module.
   */
  method DiscoverEach(step: HookStep, enabled: seq<EnabledModule>, importOf: string -> ModuleLoader.ImportResult)
      returns (errorLog: seq<string>)
    ensures errorLog == DiscoveryErrors(step, enabled, importOf)
  {
    errorLog := [];
    var i := 0;
    while i < |enabled|
      invariant 0 <= i <= |enabled|
      invariant errorLog == DiscoveryErrors(step, enabled[..i], importOf)
    {
      assert enabled[..i + 1][..i] == enabled[..i];
      var name := enabled[i].name;
      match Discover(step, name, importOf) {
        case Ok =>
        case Throws(m) =>
          errorLog := errorLog + [DiscoveryFailureLine(step, name, m)];
      }
      i := i + 1;
    }
    assert enabled[..i] == enabled;
  }

  /** The error log is empty exactly when every module's discovery succeeds. */
  lemma NoErrorsIffAllDiscovered(step: HookStep, enabled: seq<EnabledModule>, importOf: string -> ModuleLoader.ImportResult)
    ensures DiscoveryErrors(step, enabled, importOf) == [] <==> forall j :: 0 <= j < |enabled| ==> Discover(step, enabled[j].name, importOf).Ok?
  {
    if DiscoveryErrors(step, enabled, importOf) == [] {
      forall j | 0 <= j < |enabled| ensures Discover(step, enabled[j].name, importOf).Ok? {
        if Discover(step, enabled[j].name, importOf).Throws? {
          FailureIsLogged(step, enabled, importOf, j);
        }
      }
    }
    if forall j :: 0 <= j < |enabled| ==> Discover(step, enabled[j].name, importOf).Ok? {
      AllDiscoveredLogsNothing(step, enabled, importOf);
    }
  }

  /** When every module's discovery succeeds, nothing is logged. */
  lemma {:induction false} AllDiscoveredLogsNothing(step: HookStep, enabled: seq<EnabledModule>, importOf: string -> ModuleLoader.ImportResult)
    requires forall j :: 0 <= j < |enabled| ==> Discover(step, enabled[j].name, importOf).Ok?
    ensures DiscoveryErrors(step, enabled, importOf) == []
    decreases |enabled|
  {
    if enabled != [] {
      var init := enabled[..|enabled| - 1];
      assert forall j :: 0 <= j < |init| ==> init[j] == enabled[j];
      AllDiscoveredLogsNothing(step, init, importOf);
      assert Discover(step, enabled[|enabled| - 1].name, importOf).Ok?;
    }
  }

  /** When every module's discovery fails, the log holds exactly one line per module, in order. */
  lemma {:induction false} AllFailedLogsEach(step: HookStep, enabled: seq<EnabledModule>, importOf: string -> ModuleLoader.ImportResult)
    requires forall j :: 0 <= j < |enabled| ==> Discover(step, enabled[j].name, importOf).Throws?
    ensures |DiscoveryErrors(step, enabled, importOf)| == |enabled|
    ensures forall j :: 0 <= j < |enabled| ==>
              DiscoveryErrors(step, enabled, importOf)[j]
                == DiscoveryFailureLine(step, enabled[j].name, Discover(step, enabled[j].name, importOf).message)
    decreases |enabled|
  {
    if enabled != [] {
      var k := |enabled| - 1;
      var init := enabled[..k];
      assert forall j :: 0 <= j < |init| ==> init[j] == enabled[j];
      AllFailedLogsEach(step, init, importOf);
      var log := DiscoveryErrors(step, enabled, importOf);
      assert DiscoveryLog(step, enabled[k].name, importOf)
               == [DiscoveryFailureLine(step, enabled[k].name, Discover(step, enabled[k].name, importOf).message)];
      assert log == DiscoveryErrors(step, init, importOf) + DiscoveryLog(step, enabled[k].name, importOf);
    }
  }

  /** A module whose discovery fails has its line in the error log. */
  lemma {:induction false} FailureIsLogged(step: HookStep, enabled: seq<EnabledModule>, importOf: string -> ModuleLoader.ImportResult, j: nat)
    requires j < |enabled| && Discover(step, enabled[j].name, importOf).Throws?
    ensures DiscoveryFailureLine(step, enabled[j].name, Discover(step, enabled[j].name, importOf).message) in DiscoveryErrors(step, enabled, importOf)
    decreases |enabled|
  {
    var init := enabled[..|enabled| - 1];
    if j < |init| {
      assert init[j] == enabled[j];
      FailureIsLogged(step, init, importOf, j);
    }
  }
}
