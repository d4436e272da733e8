/**
  SetupModuleHandlers.execute(): the module names whose configuration is
  enabled, in configuration order; for each, load it and call its optional
  `setupHandlers` hook, recording SUCCESS or FAILED (both with the elapsed
  time); then set up every discovered listener through the domain
  ListenerSetupService. The per-module results are returned; the aggregate
  step has no entry of its own.

  The hook's promise is not awaited, so the use case records what the code
  does (`HandlerResults`); `CorrectedHandlerResults` awaits it as the other
  lifecycle use cases do, and the lemmas below relate the two.
 */
module SetupModuleHandlersUseCase {
  import opened Wrappers
  import opened Js
  import opened Config
  import opened Reports
  import opened EventRegistries
  import opened EventWalk
  import opened Interactions
  import opened ListenerRepositories
  import ModuleLoader
  import opened ModuleSteps
  import opened SeqLemmas
  import DomainListenerSetup

  /** `module.setupHandlers?.()`; a failure is caught as the error message. */
  const HandlerSetup: HookStep := HookStep("module", "setupHandlers", "handlers")

  /** How a module's step is recorded: the elapsed time always, the error message on failure. */
  function Recorded(name: string, o: Outcome, duration: nat): (r: OperationResult)
    ensures r.moduleName == name && r.durationMs == Some(duration)
    ensures r.status == SUCCESS <==> o.Ok?
    ensures r.error.Some? <==> o.Throws?
  {
    match o
    case Ok => OperationResult(name, SUCCESS, Some(duration), None)
    case Throws(m) => OperationResult(name, FAILED, Some(duration), Some(m))
  }

  /**
    As written: the hook's promise is not awaited, so only a synchronous
    throw reaches the `catch`; a rejection is recorded as SUCCESS.
   */
  function HandlerResultAsWritten(name: string, importOf: string -> ModuleLoader.ImportResult, duration: nat): (r: OperationResult)
    ensures r.moduleName == name && r.durationMs == Some(duration)
    ensures r.status == SUCCESS <==>
              && ModuleLoader.LoadModule(name, importOf(name)).Success?
              && !CallOptional(HandlerSetup.receiver, ModuleLoader.LoadModule(name, importOf(name)).value.value, HandlerSetup.hook).Raises?
  {
    Recorded(name, LoadThenCall(name, importOf(name), HandlerSetup.receiver, HandlerSetup.hook, false), duration)
  }

  /**
    Corrected: the hook is awaited like every other lifecycle hook, so a
    module succeeds exactly when it loads and its hook, if any, resolves.
   */
  function HandlerResult(name: string, importOf: string -> ModuleLoader.ImportResult, duration: nat): (r: OperationResult)
    ensures r.moduleName == name && r.durationMs == Some(duration)
    ensures r.status == SUCCESS <==>
              && ModuleLoader.LoadModule(name, importOf(name)).Success?
              && CallOptional(HandlerSetup.receiver, ModuleLoader.LoadModule(name, importOf(name)).value.value, HandlerSetup.hook).Resolves?
    ensures r.status == FAILED ==> r.error == Some(Discover(HandlerSetup, name, importOf).message)
  {
    Recorded(name, Discover(HandlerSetup, name, importOf), duration)
  }

  /** The un-awaited step of one module, as the loop of `execute()` runs it. */
  function SetupAsWritten(name: string, importOf: string -> ModuleLoader.ImportResult): Outcome {
    LoadThenCall(name, importOf(name), HandlerSetup.receiver, HandlerSetup.hook, false)
  }

  /**
    The per-module results as written, one per enabled name, in order;
    `elapsed(j)` is the j-th module's measured time.
   */
  function HandlerResults(names: seq<string>, importOf: string -> ModuleLoader.ImportResult, elapsed: nat -> nat): (rs: seq<OperationResult>)
    ensures |rs| == |names|
  {
    seq(|names|, j requires 0 <= j < |names| => Recorded(names[j], SetupAsWritten(names[j], importOf), elapsed(j)))
  }

  /** The j-th result is the j-th module's un-awaited step, recorded. */
  lemma HandlerResultAt(names: seq<string>, importOf: string -> ModuleLoader.ImportResult, elapsed: nat -> nat, j: nat)
    requires j < |names|
    ensures HandlerResults(names, importOf, elapsed)[j] == HandlerResultAsWritten(names[j], importOf, elapsed(j))
  {
  }

  /** The per-module results with the hook awaited, one per enabled name, in order. */
  function CorrectedHandlerResults(names: seq<string>, importOf: string -> ModuleLoader.ImportResult, elapsed: nat -> nat)
      : (rs: seq<OperationResult>)
    ensures |rs| == |names|
  {
    seq(|names|, j requires 0 <= j < |names| => Recorded(names[j], Discover(HandlerSetup, names[j], importOf), elapsed(j)))
  }

  /** The j-th corrected result is the j-th module's awaited step, recorded. */
  lemma CorrectedHandlerResultAt(names: seq<string>, importOf: string -> ModuleLoader.ImportResult, elapsed: nat -> nat, j: nat)
    requires j < |names|
    ensures CorrectedHandlerResults(names, importOf, elapsed)[j] == HandlerResult(names[j], importOf, elapsed(j))
  {
  }

  /** The module loads and its `setupHandlers` returns a promise that rejects. */
  predicate HookRejects(name: string, importOf: string -> ModuleLoader.ImportResult) {
    && ModuleLoader.LoadModule(name, importOf(name)).Success?
    && CallOptional(HandlerSetup.receiver, ModuleLoader.LoadModule(name, importOf(name)).value.value, HandlerSetup.hook).Rejects?
  }

  class SetupModuleHandlers {
    const listenerSetupService: DomainListenerSetup.ListenerSetupService

    constructor (listenerRepository: InMemoryListenerRepository)
      ensures listenerSetupService.listenerRepository == listenerRepository
    {
      listenerSetupService := new DomainListenerSetup.ListenerSetupService(listenerRepository);
    }

    /**
      `execute()` over the configuration held by `config`: the results, the
      two counts of the summary line and the total number of listeners.
     */
    method Execute(config: ConfigManager, importOf: string -> ModuleLoader.ImportResult, elapsed: nat -> nat,
                   regs: InteractionRegistries, events: EventTable)
        returns (results: seq<OperationResult>, successCount: nat, failureCount: nat, totalListeners: nat)
      requires events.Valid()
      modifies listenerSetupService.listenerRepository
      ensures results == HandlerResults(EnabledNames(config.GetConfig()), importOf, elapsed)
      ensures successCount == CountStatus(results, SUCCESS) && failureCount == CountStatus(results, FAILED)
      ensures successCount + failureCount == |EnabledNames(config.GetConfig())|
      ensures totalListeners == InteractionListenerCount(regs) + |Walk(events)|
      ensures var repository := listenerSetupService.listenerRepository;
              && repository.interactionListeners == old(repository.interactionListeners) + [RouterCallback]
              && repository.eventListeners == old(repository.eventListeners) + DomainListenerSetup.EventListenerEntries(Walk(events))
              && repository.eventHandlerClasses == old(repository.eventHandlerClasses)
    {
      var enabledNames := EnabledNames(config.GetConfig());
      results := SetupEach(enabledNames, importOf, elapsed);
      totalListeners := listenerSetupService.SetupDiscoveredListeners(regs, events);
      successCount := CountStatus(results, SUCCESS);
      failureCount := CountStatus(results, FAILED);
      CountsPartition(results);
    }

    /**
      The per-module loop: every module is attempted and recorded, a failure
      does not stop the loop; the hook's promise is not awaited.
     */
    method SetupEach(names: seq<string>, importOf: string -> ModuleLoader.ImportResult, elapsed: nat -> nat)
        returns (results: seq<OperationResult>)
      ensures results == HandlerResults(names, importOf, elapsed)
    {
      results := [];
      var i := 0;
      while i < |names|
        invariant 0 <= i <= |names|
        invariant results == HandlerResults(names, importOf, elapsed)[..i]
      {
        var outcome := SetupAsWritten(names[i], importOf);
        var result := Recorded(names[i], outcome, elapsed(i));
        PrefixExtends(HandlerResults(names, importOf, elapsed), i);
        results := results + [result];
        i := i + 1;
      }
    }
  }

  /** A module that loads and has no `setupHandlers` hook is recorded SUCCESS with its duration. */
  lemma ModuleWithoutHookSucceeds(name: string, importOf: string -> ModuleLoader.ImportResult, duration: nat)
    requires ModuleLoader.LoadModule(name, importOf(name)).Success?
    requires HandlerSetup.hook !in ModuleLoader.LoadModule(name, importOf(name)).value.value.props
    ensures HandlerResultAsWritten(name, importOf, duration) == OperationResult(name, SUCCESS, Some(duration), None)
    ensures HandlerResult(name, importOf, duration) == OperationResult(name, SUCCESS, Some(duration), None)
  {
    LoadThenCallSucceeds(name, importOf(name), HandlerSetup.receiver, HandlerSetup.hook);
    NotAwaitingLosesOnlyRejections(name, importOf(name), HandlerSetup.receiver, HandlerSetup.hook);
  }

  /**
    One module: the two versions record it alike exactly when its hook does
    not reject, and the corrected version never records a success the
    version as written does not.
   */
  lemma StepsAgreeIffNoRejection(name: string, importOf: string -> ModuleLoader.ImportResult, duration: nat)
    ensures (HandlerResultAsWritten(name, importOf, duration) == HandlerResult(name, importOf, duration))
              <==> !HookRejects(name, importOf)
    ensures HandlerResult(name, importOf, duration).status == SUCCESS ==>
              HandlerResultAsWritten(name, importOf, duration).status == SUCCESS
  {
    NotAwaitingLosesOnlyRejections(name, importOf(name), HandlerSetup.receiver, HandlerSetup.hook);
  }

  /** The same, for the j-th entry of a run. */
  lemma EntryAgreesIffNoRejection(names: seq<string>, importOf: string -> ModuleLoader.ImportResult, elapsed: nat -> nat, j: nat)
    requires j < |names|
    ensures (HandlerResults(names, importOf, elapsed)[j] == CorrectedHandlerResults(names, importOf, elapsed)[j])
              <==> !HookRejects(names[j], importOf)
    ensures CorrectedHandlerResults(names, importOf, elapsed)[j].status == SUCCESS ==>
              HandlerResults(names, importOf, elapsed)[j].status == SUCCESS
  {
    HandlerResultAt(names, importOf, elapsed, j);
    CorrectedHandlerResultAt(names, importOf, elapsed, j);
    StepsAgreeIffNoRejection(names[j], importOf, elapsed(j));
  }

  /**
    Over a whole run, the results as written are the corrected results
    exactly when no module's hook rejects.
   */
  lemma ListsAgreeIffNoRejection(names: seq<string>, importOf: string -> ModuleLoader.ImportResult, elapsed: nat -> nat)
    ensures (HandlerResults(names, importOf, elapsed) == CorrectedHandlerResults(names, importOf, elapsed))
              <==> (forall j :: 0 <= j < |names| ==> !HookRejects(names[j], importOf))
  {
    var written := HandlerResults(names, importOf, elapsed);
    var corrected := CorrectedHandlerResults(names, importOf, elapsed);
    if forall j :: 0 <= j < |names| ==> !HookRejects(names[j], importOf) {
      forall j | 0 <= j < |names|
        ensures written[j] == corrected[j]
      {
        EntryAgreesIffNoRejection(names, importOf, elapsed, j);
      }
    } else {
      var j :| 0 <= j < |names| && HookRejects(names[j], importOf);
      EntryAgreesIffNoRejection(names, importOf, elapsed, j);
    }
  }

  /** Over the first `i` modules, the corrected run counts no more successes than the run as written. */
  lemma {:induction false} SuccessesUpTo(names: seq<string>, importOf: string -> ModuleLoader.ImportResult, elapsed: nat -> nat, i: nat)
    requires i <= |names|
    ensures CountStatus(CorrectedHandlerResults(names, importOf, elapsed)[..i], SUCCESS)
              <= CountStatus(HandlerResults(names, importOf, elapsed)[..i], SUCCESS)
  {
    if i > 0 {
      var written := HandlerResults(names, importOf, elapsed);
      var corrected := CorrectedHandlerResults(names, importOf, elapsed);
      SuccessesUpTo(names, importOf, elapsed, i - 1);
      PrefixExtends(written, i - 1);
      PrefixExtends(corrected, i - 1);
      CountStatusAppend(written[..i - 1], written[i - 1], SUCCESS);
      CountStatusAppend(corrected[..i - 1], corrected[i - 1], SUCCESS);
      EntryAgreesIffNoRejection(names, importOf, elapsed, i - 1);
    }
  }

  /** As written, a run never records fewer successes than the corrected run would. */
  lemma AsWrittenSucceedsAtLeastAsOften(names: seq<string>, importOf: string -> ModuleLoader.ImportResult, elapsed: nat -> nat)
    ensures CountStatus(CorrectedHandlerResults(names, importOf, elapsed), SUCCESS)
              <= CountStatus(HandlerResults(names, importOf, elapsed), SUCCESS)
  {
    SuccessesUpTo(names, importOf, elapsed, |names|);
    assert HandlerResults(names, importOf, elapsed)[..|names|] == HandlerResults(names, importOf, elapsed);
    assert CorrectedHandlerResults(names, importOf, elapsed)[..|names|] == CorrectedHandlerResults(names, importOf, elapsed);
  }

  /** A valid module whose `setupHandlers` returns a rejected promise. */
  function RejectingModule(name: string, message: string): ModuleLoader.ImportResult {
    ModuleLoader.Resolved(Object(map["default" := Object(map[
      "name" := Str(name),
      "migrate" := Function(Resolves),
      "register" := Function(Resolves),
      "setupHandlers" := Function(Rejects(message))])]))
  }

  /**
    The discrepancy: a module whose `setupHandlers` rejects is recorded
    SUCCESS as written; the corrected step records it FAILED with the
    rejection's message.
   */
  lemma RejectedSetupRecordedAsSuccess(name: string, message: string, duration: nat)
    ensures HandlerResultAsWritten(name, (n: string) => RejectingModule(name, message), duration).status == SUCCESS
    ensures HandlerResult(name, (n: string) => RejectingModule(name, message), duration)
              == OperationResult(name, FAILED, Some(duration), Some(message))
  {
    var importOf := (n: string) => RejectingModule(name, message);
    var exports := Object(map[
      "name" := Str(name),
      "migrate" := Function(Resolves),
      "register" := Function(Resolves),
      "setupHandlers" := Function(Rejects(message))]);
    assert ModuleLoader.Unwrap(importOf(name).exports) == exports;
    assert ModuleLoader.IsValidModule(exports);
    assert ModuleLoader.LoadModule(name, importOf(name)).value.value == exports;
    assert GetProperty(exports, "setupHandlers") == Success(Function(Rejects(message)));
  }
}
