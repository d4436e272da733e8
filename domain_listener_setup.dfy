/**
  The domain ListenerSetupService: the same router as the infrastructure
  variant, except that key extractors read the interaction's field without a
  type guard and the identifier has no "unknown" fallback; and event handler
  classes are instantiated at setup, the repository receiving a callback
  bound to the instance instead of the class.
 */
module DomainListenerSetup {
  import opened Wrappers
  import opened OrderedMaps
  import opened CapabilityRegistry
  import opened EventRegistries
  import opened EventWalk
  import opened Interactions
  import opened ListenerRepositories
  import Infra = InfraListenerSetup

  /**
    The strategy's `getKey`: `commandName` for commands and autocomplete,
    `customId` for selects, without a type guard; for the strategy that
    matched, it reads the same key as the infrastructure variant.
   */
  function KeyOf(s: StrategyName, i: Interaction): (r: Option<string>)
    ensures Matches(s, i) ==> r == Infra.KeyOf(s, i)
  {
    match s
    case StringSelect | UserSelect | RoleSelect | ChannelSelect | MentionableSelect => i.customId
    case _ => i.commandName
  }

  /** A possibly undefined string as a template literal renders it. */
  function Rendered(name: Option<string>): (r: string)
    ensures name.Some? ==> r == name.value
    ensures name.None? ==> r == "undefined"
  {
    if name.Some? then name.value else "undefined"
  }

  /**
    `getInteractionIdentifier(interaction)`: the raw command name or custom
    id. It is the infrastructure variant's identifier unless that one shows
    "unknown" for an empty or absent name, which renders here as "" or
    "undefined".
   */
  function Identifier(i: Interaction): (r: string)
    ensures r != "" && r != "undefined" ==> r == Infra.Identifier(i)
    ensures r == "" ==> Infra.Identifier(i) == "unknown"
  {
    if IsCommand(i) then Rendered(i.commandName)
    else if IsMessageComponent(i) then Rendered(i.customId)
    else if IsAutocomplete(i) then Rendered(i.commandName)
    else if IsModalSubmit(i) then Rendered(i.customId)
    else "unknown"
  }

  /** `handleIncomingInteraction(interaction)` of this variant. */
  function HandleIncomingInteraction(i: Interaction, regs: InteractionRegistries,
                                     invoke: (ClassId, InvocationMethod) -> Outcome): (r: RouterOutcome)
    ensures r.Unhandled? ==> r.identifier == Identifier(i)
    ensures r.Handled? ==> FindMatchingHandler(i) == Some(r.strategy)
  {
    Route(i, regs, invoke, KeyOf, Identifier(i))
  }

  /**
    The two variants route every interaction alike: the same class is called
    (or none), and the interaction is handled by the same strategy or by
    neither. Only the identifier in the "Unhandled" warning may differ.
   */
  lemma VariantsRouteAlike(i: Interaction, regs: InteractionRegistries, invoke: (ClassId, InvocationMethod) -> Outcome)
    ensures var d, f := HandleIncomingInteraction(i, regs, invoke), Infra.HandleIncomingInteraction(i, regs, invoke);
            && InvokedClass(d) == InvokedClass(f)
            && d.Handled? == f.Handled?
            && (d.Handled? ==> d == f)
            && (d.Unhandled? ==> d.typeName == f.typeName && d.attempt == f.attempt)
  {
    match FindMatchingHandler(i)
    case None =>
    case Some(s) =>
      assert KeyOf(s, i) == Infra.KeyOf(s, i);
  }

  /**
    Where the identifiers differ: a component with an empty custom id shows
    as "" here and as "unknown" in the infrastructure variant, and a command
    with no name shows as "undefined".
   */
  lemma IdentifierDifferences(i: Interaction)
    ensures IsMessageComponent(i) && i.customId == Some("") ==> Identifier(i) == "" && Infra.Identifier(i) == "unknown"
    ensures IsCommand(i) && i.commandName.None? ==> Identifier(i) == "undefined" && Infra.Identifier(i) == "unknown"
    ensures (IsCommand(i) || IsAutocomplete(i)) && i.commandName.Some? && i.commandName.value != "" ==>
              Identifier(i) == Infra.Identifier(i) == i.commandName.value
  {
  }

  /** The domain record of each visited pair: a callback bound to a fresh instance of the class. */
  function EventListenerEntries(rs: seq<Registration>): (r: seq<EventListenerEntry>)
    ensures |r| == |rs|
  {
    if rs == [] then []
    else EventListenerEntries(rs[..|rs| - 1]) + [EventListenerEntry(rs[|rs| - 1].eventName, HandleCallback(rs[|rs| - 1].entry.handlerClass), rs[|rs| - 1].entry.once)]
  }

  /** The `j`-th record is made from the `j`-th visited pair. */
  lemma {:induction false} EventListenerEntryAt(rs: seq<Registration>, j: nat)
    requires j < |rs|
    ensures EventListenerEntries(rs)[j] == EventListenerEntry(rs[j].eventName, HandleCallback(rs[j].entry.handlerClass), rs[j].entry.once)
  {
    if j < |rs| - 1 {
      EventListenerEntryAt(rs[..|rs| - 1], j);
    }
  }

  /** Recording two runs of pairs records the first run's callbacks, then the second's. */
  lemma {:induction false} EventListenerEntriesConcat(a: seq<Registration>, b: seq<Registration>)
    ensures EventListenerEntries(a + b) == EventListenerEntries(a) + EventListenerEntries(b)
  {
    var l, r := EventListenerEntries(a + b), EventListenerEntries(a) + EventListenerEntries(b);
    forall j | 0 <= j < |l| ensures l[j] == r[j] {
      EventListenerEntryAt(a + b, j);
      if j < |a| {
        EventListenerEntryAt(a, j);
      } else {
        EventListenerEntryAt(b, j - |a|);
      }
    }
  }

  /** Recording one more pair appends one record. */
  lemma EventListenerEntriesExtend(rs: seq<Registration>, r: Registration)
    ensures EventListenerEntries(rs + [r]) == EventListenerEntries(rs) + [EventListenerEntry(r.eventName, HandleCallback(r.entry.handlerClass), r.entry.once)]
  {
    assert (rs + [r])[..|rs|] == rs;
  }

  class ListenerSetupService {
    const listenerRepository: InMemoryListenerRepository

    constructor (listenerRepository: InMemoryListenerRepository)
      ensures this.listenerRepository == listenerRepository
    {
      this.listenerRepository := listenerRepository;
    }

    /** `setupInteractionRouter()`: registers the router once and returns the interaction handler count. */
    method SetupInteractionRouter(regs: InteractionRegistries) returns (count: nat)
      modifies listenerRepository
      ensures listenerRepository.interactionListeners == old(listenerRepository.interactionListeners) + [RouterCallback]
      ensures listenerRepository.eventListeners == old(listenerRepository.eventListeners)
      ensures listenerRepository.eventHandlerClasses == old(listenerRepository.eventHandlerClasses)
      ensures count == InteractionListenerCount(regs)
    {
      listenerRepository.RegisterInteractionListener(RouterCallback);
      count := InteractionListenerCount(regs);
    }

    /**
      `setupEventListeners()`: for each event in table order and each of its
      classes in order, instantiates the class and registers a callback bound
      to the instance with the class's `once` flag; returns how many it
      registered.
     */
    method SetupEventListeners(events: EventTable) returns (count: nat)
      requires events.Valid()
      modifies listenerRepository
      ensures listenerRepository.eventListeners == old(listenerRepository.eventListeners) + EventListenerEntries(Walk(events))
      ensures listenerRepository.eventHandlerClasses == old(listenerRepository.eventHandlerClasses)
      ensures listenerRepository.interactionListeners == old(listenerRepository.interactionListeners)
      ensures count == |Walk(events)|
    {
      count := 0;
      ghost var visited: seq<Registration> := [];
      var k := 0;
      while k < |events.keys|
        invariant 0 <= k <= |events.keys|
        invariant visited == WalkPrefix(events, k)
        invariant listenerRepository.eventListeners == old(listenerRepository.eventListeners) + EventListenerEntries(visited)
        invariant count == |visited|
        invariant listenerRepository.eventHandlerClasses == old(listenerRepository.eventHandlerClasses)
        invariant listenerRepository.interactionListeners == old(listenerRepository.interactionListeners)
      {
        var eventName := events.keys[k];
        WalkPrefixStep(events, k);
        var handlerList := events.values[eventName];
        EventListenerEntriesConcat(visited, Tagged(eventName, handlerList));
        AppendAssociates(old(listenerRepository.eventListeners), EventListenerEntries(visited), EventListenerEntries(Tagged(eventName, handlerList)));
        var registered := RegisterEventCallbacks(eventName, handlerList);
        visited := visited + Tagged(eventName, handlerList);
        count := count + registered;
        k := k + 1;
      }
    }

    /** The inner loop of `setupEventListeners()`: one event's classes, in order. */
    method RegisterEventCallbacks(eventName: string, handlerList: seq<EventEntry>) returns (count: nat)
      modifies listenerRepository
      ensures listenerRepository.eventListeners == old(listenerRepository.eventListeners) + EventListenerEntries(Tagged(eventName, handlerList))
      ensures listenerRepository.eventHandlerClasses == old(listenerRepository.eventHandlerClasses)
      ensures listenerRepository.interactionListeners == old(listenerRepository.interactionListeners)
      ensures count == |handlerList|
    {
      count := 0;
      while count < |handlerList|
        invariant 0 <= count <= |handlerList|
        invariant listenerRepository.eventListeners == old(listenerRepository.eventListeners) + EventListenerEntries(Tagged(eventName, handlerList[..count]))
        invariant listenerRepository.eventHandlerClasses == old(listenerRepository.eventHandlerClasses)
        invariant listenerRepository.interactionListeners == old(listenerRepository.interactionListeners)
      {
        Infra.TaggedExtends(eventName, handlerList, count);
        EventListenerEntriesExtend(Tagged(eventName, handlerList[..count]), Registration(eventName, handlerList[count]));
        listenerRepository.RegisterEventListener(eventName, HandleCallback(handlerList[count].handlerClass), handlerList[count].once);
        count := count + 1;
      }
      assert handlerList[..count] == handlerList;
    }

    /**
      `setupDiscoveredListeners()`: registers the router, then a callback per
      event handler class; the total is the interaction handler count plus
      the number of event registrations.
     */
    method SetupDiscoveredListeners(regs: InteractionRegistries, events: EventTable) returns (total: nat)
      requires events.Valid()
      modifies listenerRepository
      ensures listenerRepository.interactionListeners == old(listenerRepository.interactionListeners) + [RouterCallback]
      ensures listenerRepository.eventListeners == old(listenerRepository.eventListeners) + EventListenerEntries(Walk(events))
      ensures listenerRepository.eventHandlerClasses == old(listenerRepository.eventHandlerClasses)
      ensures total == InteractionListenerCount(regs) + |Walk(events)|
    {
      total := 0;
      var routed := SetupInteractionRouter(regs);
      total := total + routed;
      var registered := SetupEventListeners(events);
      total := total + registered;
    }
  }

  /** Setup records a bound callback exactly for each (event, class, once) the event table lists. */
  lemma SetupRecordsExactlyTheTable(events: EventTable, e: EventListenerEntry)
    requires events.Valid()
    ensures e in EventListenerEntries(Walk(events)) <==>
              e.handler.HandleCallback? && events.Has(e.eventName) &&
              EventEntry(e.handler.handlerClass, e.once) in events.values[e.eventName]
  {
    var rs := Walk(events);
    if e in EventListenerEntries(rs) {
      var j :| 0 <= j < |rs| && EventListenerEntries(rs)[j] == e;
      EventListenerEntryAt(rs, j);
      WalkVisitsExactlyTheEntries(events, rs[j]);
    }
    if e.handler.HandleCallback? {
      var r := Registration(e.eventName, EventEntry(e.handler.handlerClass, e.once));
      WalkVisitsExactlyTheEntries(events, r);
      if r in rs {
        var j :| 0 <= j < |rs| && rs[j] == r;
        EventListenerEntryAt(rs, j);
      }
    }
  }
}
