/**
  The infrastructure ListenerSetupService: registers one interaction router
  with the repository, hands every discovered event handler class to the
  repository as a class (the repository instantiates it later), and routes
  interactions with key extractors that guard on the interaction's type and
  an identifier that falls back to "unknown".
 */
module InfraListenerSetup {
  import opened Wrappers
  import opened OrderedMaps
  import opened CapabilityRegistry
  import opened EventRegistries
  import opened EventWalk
  import opened Interactions
  import opened ListenerRepositories

  /**
    The strategy's `getKey`: commands read `commandName` when the interaction
    is a command, selects read `customId` when it is a component or a modal
    submission, autocomplete reads `commandName` when it is a command or an
    autocomplete; otherwise the key is the empty string.
   */
  function KeyOf(s: StrategyName, i: Interaction): (r: Option<string>)
    ensures Matches(s, i) ==> r == (if s in {StringSelect, UserSelect, RoleSelect, ChannelSelect, MentionableSelect}
                                    then i.customId else i.commandName)
    ensures r == Some("") || r == i.commandName || r == i.customId
  {
    match s
    case SlashCommand | UserContextMenu | MessageContextMenu =>
      if IsCommand(i) then i.commandName else Some("")
    case StringSelect | UserSelect | RoleSelect | ChannelSelect | MentionableSelect =>
      if IsMessageComponent(i) || IsModalSubmit(i) then i.customId else Some("")
    case Autocomplete =>
      if IsCommand(i) || IsAutocomplete(i) then i.commandName else Some("")
  }

  /** `x || 'unknown'`: an absent or empty name shows as "unknown". */
  function OrUnknown(name: Option<string>): (r: string)
    ensures r != ""
    ensures name.Some? && name.value != "" ==> r == name.value
  {
    if name.Some? && name.value != "" then name.value else "unknown"
  }

  /** `getInteractionIdentifier(interaction)`: the command name or custom id, never empty. */
  function Identifier(i: Interaction): (r: string)
    ensures r != ""
  {
    if IsCommand(i) then OrUnknown(i.commandName)
    else if IsMessageComponent(i) then OrUnknown(i.customId)
    else if IsAutocomplete(i) then OrUnknown(i.commandName)
    else if IsModalSubmit(i) then OrUnknown(i.customId)
    else "unknown"
  }

  /** `handleIncomingInteraction(interaction)` of this variant. */
  function HandleIncomingInteraction(i: Interaction, regs: InteractionRegistries,
                                     invoke: (ClassId, InvocationMethod) -> Outcome): (r: RouterOutcome)
    ensures r.Unhandled? ==> r.identifier == Identifier(i) && r.identifier != ""
    ensures r.Handled? ==> FindMatchingHandler(i) == Some(r.strategy)
  {
    Route(i, regs, invoke, KeyOf, Identifier(i))
  }

  /** The identifier is the interaction's non-empty name, or "unknown" when it has none. */
  lemma IdentifierOfNamedInteraction(i: Interaction)
    ensures ((IsCommand(i) || IsAutocomplete(i)) && i.commandName.Some? && i.commandName.value != "")
              ==> Identifier(i) == i.commandName.value
    ensures ((IsMessageComponent(i) || IsModalSubmit(i)) && i.customId.Some? && i.customId.value != "")
              ==> Identifier(i) == i.customId.value
    ensures i.kind == Ping ==> Identifier(i) == "unknown"
  {
  }

  /** The infrastructure record of each visited pair: the class itself. */
  function HandlerClassEntries(rs: seq<Registration>): (r: seq<EventHandlerClassEntry>)
    ensures |r| == |rs|
  {
    if rs == [] then []
    else HandlerClassEntries(rs[..|rs| - 1]) + [EventHandlerClassEntry(rs[|rs| - 1].eventName, rs[|rs| - 1].entry.handlerClass, rs[|rs| - 1].entry.once)]
  }

  /** The `j`-th class record is made from the `j`-th visited pair. */
  lemma {:induction false} HandlerClassEntryAt(rs: seq<Registration>, j: nat)
    requires j < |rs|
    ensures HandlerClassEntries(rs)[j] == EventHandlerClassEntry(rs[j].eventName, rs[j].entry.handlerClass, rs[j].entry.once)
  {
    if j < |rs| - 1 {
      HandlerClassEntryAt(rs[..|rs| - 1], j);
    }
  }

  /** Tagging one more entry of a list appends one pair. */
  lemma TaggedExtends(eventName: string, list: seq<EventEntry>, j: nat)
    requires j < |list|
    ensures Tagged(eventName, list[..j + 1]) == Tagged(eventName, list[..j]) + [Registration(eventName, list[j])]
  {
  }

  /** Recording one more pair appends one class record. */
  lemma HandlerClassEntriesExtend(rs: seq<Registration>, r: Registration)
    ensures HandlerClassEntries(rs + [r]) == HandlerClassEntries(rs) + [EventHandlerClassEntry(r.eventName, r.entry.handlerClass, r.entry.once)]
  {
    assert (rs + [r])[..|rs|] == rs;
  }

  /** Recording two runs of pairs records the first run's classes, then the second's. */
  lemma {:induction false} HandlerClassEntriesConcat(a: seq<Registration>, b: seq<Registration>)
    ensures HandlerClassEntries(a + b) == HandlerClassEntries(a) + HandlerClassEntries(b)
  {
    var l, r := HandlerClassEntries(a + b), HandlerClassEntries(a) + HandlerClassEntries(b);
    assert |l| == |r|;
    forall j | 0 <= j < |l| ensures l[j] == r[j] {
      HandlerClassEntryAt(a + b, j);
      if j < |a| {
        HandlerClassEntryAt(a, j);
      } else {
        HandlerClassEntryAt(b, j - |a|);
      }
    }
  }

  class ListenerSetupService {
    const listenerRepository: InMemoryListenerRepository

    constructor (listenerRepository: InMemoryListenerRepository)
      ensures this.listenerRepository == listenerRepository
    {
      this.listenerRepository := listenerRepository;
    }

    /** `setupInteractionRouter()`: registers the router once and returns the interaction handler count. */
    method SetupInteractionRouter(regs: InteractionRegistries) returns (count: nat)
      modifies listenerRepository
      ensures listenerRepository.interactionListeners == old(listenerRepository.interactionListeners) + [RouterCallback]
      ensures listenerRepository.eventListeners == old(listenerRepository.eventListeners)
      ensures listenerRepository.eventHandlerClasses == old(listenerRepository.eventHandlerClasses)
      ensures count == InteractionListenerCount(regs)
    {
      listenerRepository.RegisterInteractionListener(RouterCallback);
      count := InteractionListenerCount(regs);
    }

    /**
      `setupEventListeners()`: for each event in table order and each of its
      classes in order, registers the class with its `once` flag; returns how
      many it registered.
     */
    method SetupEventListeners(events: EventTable) returns (count: nat)
      requires events.Valid()
      modifies listenerRepository
      ensures listenerRepository.eventHandlerClasses == old(listenerRepository.eventHandlerClasses) + HandlerClassEntries(Walk(events))
      ensures listenerRepository.eventListeners == old(listenerRepository.eventListeners)
      ensures listenerRepository.interactionListeners == old(listenerRepository.interactionListeners)
      ensures count == |Walk(events)|
    {
      count := 0;
      ghost var visited: seq<Registration> := [];
      var k := 0;
      while k < |events.keys|
        invariant 0 <= k <= |events.keys|
        invariant visited == WalkPrefix(events, k)
        invariant listenerRepository.eventHandlerClasses == old(listenerRepository.eventHandlerClasses) + HandlerClassEntries(visited)
        invariant count == |visited|
        invariant listenerRepository.eventListeners == old(listenerRepository.eventListeners)
        invariant listenerRepository.interactionListeners == old(listenerRepository.interactionListeners)
      {
        var eventName := events.keys[k];
        WalkPrefixStep(events, k);
        var handlerList := events.values[eventName];
        HandlerClassEntriesConcat(visited, Tagged(eventName, handlerList));
        AppendAssociates(old(listenerRepository.eventHandlerClasses), HandlerClassEntries(visited), HandlerClassEntries(Tagged(eventName, handlerList)));
        var registered := RegisterEventClasses(eventName, handlerList);
        visited := visited + Tagged(eventName, handlerList);
        count := count + registered;
        k := k + 1;
      }
    }

    /** The inner loop of `setupEventListeners()`: one event's classes, in order. */
    method RegisterEventClasses(eventName: string, handlerList: seq<EventEntry>) returns (count: nat)
      modifies listenerRepository
      ensures listenerRepository.eventHandlerClasses == old(listenerRepository.eventHandlerClasses) + HandlerClassEntries(Tagged(eventName, handlerList))
      ensures listenerRepository.eventListeners == old(listenerRepository.eventListeners)
      ensures listenerRepository.interactionListeners == old(listenerRepository.interactionListeners)
      ensures count == |handlerList|
    {
      count := 0;
      while count < |handlerList|
        invariant 0 <= count <= |handlerList|
        invariant listenerRepository.eventHandlerClasses == old(listenerRepository.eventHandlerClasses) + HandlerClassEntries(Tagged(eventName, handlerList[..count]))
        invariant listenerRepository.eventListeners == old(listenerRepository.eventListeners)
        invariant listenerRepository.interactionListeners == old(listenerRepository.interactionListeners)
      {
        TaggedExtends(eventName, handlerList, count);
        HandlerClassEntriesExtend(Tagged(eventName, handlerList[..count]), Registration(eventName, handlerList[count]));
        listenerRepository.RegisterEventHandlerClass(eventName, handlerList[count].handlerClass, handlerList[count].once);
        count := count + 1;
      }
      assert handlerList[..count] == handlerList;
    }

    /**
      `setupDiscoveredListeners()`: registers the router, then every event
      handler class; the total is the interaction handler count plus the
      number of event registrations.
     */
    method SetupDiscoveredListeners(regs: InteractionRegistries, events: EventTable) returns (total: nat)
      requires events.Valid()
      modifies listenerRepository
      ensures listenerRepository.interactionListeners == old(listenerRepository.interactionListeners) + [RouterCallback]
      ensures listenerRepository.eventHandlerClasses == old(listenerRepository.eventHandlerClasses) + HandlerClassEntries(Walk(events))
      ensures listenerRepository.eventListeners == old(listenerRepository.eventListeners)
      ensures total == InteractionListenerCount(regs) + |Walk(events)|
    {
      total := 0;
      var routed := SetupInteractionRouter(regs);
      total := total + routed;
      var registered := SetupEventListeners(events);
      total := total + registered;
    }
  }

  /**
    What the repository holds after setup on a fresh repository: one router,
    and a class record exactly for each (event, class, once) the event table
    lists.
   */
  lemma SetupRecordsExactlyTheTable(events: EventTable, e: EventHandlerClassEntry)
    requires events.Valid()
    ensures e in HandlerClassEntries(Walk(events)) <==>
              events.Has(e.eventName) && EventEntry(e.handlerClass, e.once) in events.values[e.eventName]
  {
    var rs := Walk(events);
    var r := Registration(e.eventName, EventEntry(e.handlerClass, e.once));
    WalkVisitsExactlyTheEntries(events, r);
    if e in HandlerClassEntries(rs) {
      var j :| 0 <= j < |rs| && HandlerClassEntries(rs)[j] == e;
      HandlerClassEntryAt(rs, j);
      assert rs[j] == r;
    }
    if r in rs {
      var j :| 0 <= j < |rs| && rs[j] == r;
      HandlerClassEntryAt(rs, j);
      assert HandlerClassEntries(rs)[j] == e;
    }
  }
}
