/**
  InMemoryListenerRepository: the repository the listener setup services hand
  their callbacks and handler classes to. It only records what it is given,
  in order and without deduplication, and reports how many records it holds.
 */
module ListenerRepositories {
  import opened CapabilityRegistry

  /**
    A callback handed to the repository: the interaction router, or a closure
    that calls `handle` on one instance of an event handler class.
   */
  datatype Callback = RouterCallback | HandleCallback(handlerClass: ClassId)

  /** `{ eventName, handler, once }` */
  datatype EventListenerEntry = EventListenerEntry(eventName: string, handler: Callback, once: bool)

  /** `{ eventName, handlerClass, once }` */
  datatype EventHandlerClassEntry = EventHandlerClassEntry(eventName: string, handlerClass: ClassId, once: bool)

  /** What `getListenerSummary()` returns. */
  datatype ListenerSummary = ListenerSummary(eventListeners: nat, interactionListeners: nat, total: nat)

  class InMemoryListenerRepository {
    var eventListeners: seq<EventListenerEntry>
    var eventHandlerClasses: seq<EventHandlerClassEntry>
    var interactionListeners: seq<Callback>

    constructor ()
      ensures eventListeners == [] && eventHandlerClasses == [] && interactionListeners == []
    {
      eventListeners := [];
      eventHandlerClasses := [];
      interactionListeners := [];
    }

    /** `registerEventListener`: appends the record; the other lists are untouched. */
    method RegisterEventListener(eventName: string, handler: Callback, once: bool)
      modifies this
      ensures eventListeners == old(eventListeners) + [EventListenerEntry(eventName, handler, once)]
      ensures eventHandlerClasses == old(eventHandlerClasses) && interactionListeners == old(interactionListeners)
    {
      eventListeners := eventListeners + [EventListenerEntry(eventName, handler, once)];
    }

    /** `registerEventHandlerClass`: appends the record; the other lists are untouched. */
    method RegisterEventHandlerClass(eventName: string, handlerClass: ClassId, once: bool)
      modifies this
      ensures eventHandlerClasses == old(eventHandlerClasses) + [EventHandlerClassEntry(eventName, handlerClass, once)]
      ensures eventListeners == old(eventListeners) && interactionListeners == old(interactionListeners)
    {
      eventHandlerClasses := eventHandlerClasses + [EventHandlerClassEntry(eventName, handlerClass, once)];
    }

    /** `registerInteractionListener`: appends the callback; the other lists are untouched. */
    method RegisterInteractionListener(handler: Callback)
      modifies this
      ensures interactionListeners == old(interactionListeners) + [handler]
      ensures eventListeners == old(eventListeners) && eventHandlerClasses == old(eventHandlerClasses)
    {
      interactionListeners := interactionListeners + [handler];
    }

    /**
      `getListenerSummary()`: callbacks and handler classes both count as event
      listeners, and the total is the number of records of all three kinds.
     */
    function GetListenerSummary(): (s: ListenerSummary)
      reads this
      ensures s.eventListeners == |eventListeners| + |eventHandlerClasses|
      ensures s.interactionListeners == |interactionListeners|
      ensures s.total == |eventListeners| + |eventHandlerClasses| + |interactionListeners|
    {
      var events := |eventListeners| + |eventHandlerClasses|;
      ListenerSummary(events, |interactionListeners|, events + |interactionListeners|)
    }
  }

  /**
    Nothing is deduplicated: registering the same handler class twice for the
    same event, then the router, yields a summary of two event listeners and
    three in total.
   */
  method RepeatedRegistrationsAreCounted(eventName: string, handlerClass: ClassId, once: bool) returns (s: ListenerSummary)
    ensures s == ListenerSummary(2, 1, 3)
  {
    var repository := new InMemoryListenerRepository();
    repository.RegisterEventHandlerClass(eventName, handlerClass, once);
    repository.RegisterEventHandlerClass(eventName, handlerClass, once);
    repository.RegisterInteractionListener(RouterCallback);
    s := repository.GetListenerSummary();
  }
}
