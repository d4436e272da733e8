/**
  RegisterListeners.execute(): for each enabled module, load it and await its
  optional `discoverListeners` hook, logging a failure and going on; then set
  up every discovered listener through the infrastructure
  ListenerSetupService and report how many were registered.
 */
module RegisterListenersUseCase {
  import opened Config
  import opened EventRegistries
  import opened EventWalk
  import opened Interactions
  import opened ListenerRepositories
  import ModuleLoader
  import opened ModuleSteps
  import InfraListenerSetup

  class RegisterListeners {
    const listenerSetupService: InfraListenerSetup.ListenerSetupService

    constructor (listenerRepository: InMemoryListenerRepository)
      ensures listenerSetupService.listenerRepository == listenerRepository
    {
      listenerSetupService := new InfraListenerSetup.ListenerSetupService(listenerRepository);
    }

    /**
      `execute()`: `errorLog` is what reaches `console.error`, and `total` the
      count in the success line. The registries are those the discovery hooks
      filled.
     */
    method Execute(enabled: seq<EnabledModule>, importOf: string -> ModuleLoader.ImportResult,
                   regs: InteractionRegistries, events: EventTable)
        returns (errorLog: seq<string>, total: nat)
      requires events.Valid()
      modifies listenerSetupService.listenerRepository
      ensures errorLog == DiscoveryErrors(ListenerDiscovery, enabled, importOf)
      ensures total == InteractionListenerCount(regs) + |Walk(events)|
      ensures var repository := listenerSetupService.listenerRepository;
              && repository.interactionListeners == old(repository.interactionListeners) + [RouterCallback]
              && repository.eventHandlerClasses == old(repository.eventHandlerClasses) + InfraListenerSetup.HandlerClassEntries(Walk(events))
              && repository.eventListeners == old(repository.eventListeners)
    {
      errorLog := DiscoverEach(ListenerDiscovery, enabled, importOf);
      total := listenerSetupService.SetupDiscoveredListeners(regs, events);
    }
  }
}
