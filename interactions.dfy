/**
  What both ListenerSetupService variants share: the platform interaction and
  its type guards, the ordered table of nine handler strategies, the
  first-match search, the registry lookup and handler invocation, the type
  name used in log lines, and the count of registered interaction handlers.
  The variants differ only in how a strategy reads its key and how an
  interaction is identified in a log line (see InfraListenerSetup and
  DomainListenerSetup).
 */
module Interactions {
  import opened Wrappers
  import opened OrderedMaps
  import opened CapabilityRegistry

  /** The concrete kinds of interaction the platform delivers. */
  datatype InteractionKind =
    | ChatInputCommand | UserContextMenuCommand | MessageContextMenuCommand | PrimaryEntryPointCommand
    | Button | StringSelectMenu | UserSelectMenu | RoleSelectMenu | ChannelSelectMenu | MentionableSelectMenu
    | ApplicationCommandAutocomplete | ModalSubmit | Ping

  /** An incoming interaction: its kind and the optional `commandName` / `customId` it carries. */
  datatype Interaction = Interaction(kind: InteractionKind, commandName: Option<string>, customId: Option<string>)

  /** The numeric `interaction.type` (Ping 1, ApplicationCommand 2, MessageComponent 3, Autocomplete 4, ModalSubmit 5). */
  function InteractionType(i: Interaction): (t: nat)
    ensures 1 <= t <= 5
  {
    match i.kind
    case Ping => 1
    case ChatInputCommand | UserContextMenuCommand | MessageContextMenuCommand | PrimaryEntryPointCommand => 2
    case ApplicationCommandAutocomplete => 4
    case ModalSubmit => 5
    case _ => 3
  }

  // The type guards of a platform interaction.
  predicate IsChatInputCommand(i: Interaction) { i.kind == ChatInputCommand }
  predicate IsUserContextMenuCommand(i: Interaction) { i.kind == UserContextMenuCommand }
  predicate IsMessageContextMenuCommand(i: Interaction) { i.kind == MessageContextMenuCommand }
  predicate IsButton(i: Interaction) { i.kind == Button }
  predicate IsStringSelectMenu(i: Interaction) { i.kind == StringSelectMenu }
  predicate IsUserSelectMenu(i: Interaction) { i.kind == UserSelectMenu }
  predicate IsRoleSelectMenu(i: Interaction) { i.kind == RoleSelectMenu }
  predicate IsChannelSelectMenu(i: Interaction) { i.kind == ChannelSelectMenu }
  predicate IsMentionableSelectMenu(i: Interaction) { i.kind == MentionableSelectMenu }
  predicate IsAutocomplete(i: Interaction) { i.kind == ApplicationCommandAutocomplete }
  predicate IsModalSubmit(i: Interaction) { i.kind == ModalSubmit }
  /** Every application command, whatever its command type. */
  predicate IsCommand(i: Interaction) { InteractionType(i) == 2 }
  /** Buttons and all select menus. */
  predicate IsMessageComponent(i: Interaction) { InteractionType(i) == 3 }

  /** The `name` of a handler strategy. */
  datatype StrategyName =
    | SlashCommand | UserContextMenu | MessageContextMenu
    | StringSelect | UserSelect | RoleSelect | ChannelSelect | MentionableSelect
    | Autocomplete

  /** Which method of the handler instance a strategy calls. */
  datatype InvocationMethod = Execute | Handle

  /**
    The strategy table in priority order: the three command strategies, the
    five select-menu strategies, then autocomplete.
   */
  const Strategies: seq<StrategyName> := [
    SlashCommand, UserContextMenu, MessageContextMenu,
    StringSelect, UserSelect, RoleSelect, ChannelSelect, MentionableSelect,
    Autocomplete
  ]

  /** The strategy's `name` string, as it appears in log lines. */
  function NameText(s: StrategyName): string {
    match s
    case SlashCommand => "SlashCommand"
    case UserContextMenu => "UserContextMenu"
    case MessageContextMenu => "MessageContextMenu"
    case StringSelect => "StringSelect"
    case UserSelect => "UserSelect"
    case RoleSelect => "RoleSelect"
    case ChannelSelect => "ChannelSelect"
    case MentionableSelect => "MentionableSelect"
    case Autocomplete => "Autocomplete"
  }

  /**
    The strategy's `matches` predicate: a command strategy matches only
    commands, a select strategy only components and autocomplete only
    autocomplete interactions; buttons, modal submissions, pings and
    entry-point commands match nothing.
   */
  predicate Matches(s: StrategyName, i: Interaction): (b: bool)
    ensures b ==> InteractionType(i) == (if s == Autocomplete then 4 else if MethodOf(s) == Execute then 2 else 3)
    ensures b ==> i.kind !in {Button, ModalSubmit, Ping, PrimaryEntryPointCommand}
  {
    match s
    case SlashCommand => IsChatInputCommand(i)
    case UserContextMenu => IsUserContextMenuCommand(i)
    case MessageContextMenu => IsMessageContextMenuCommand(i)
    case StringSelect => IsStringSelectMenu(i)
    case UserSelect => IsUserSelectMenu(i)
    case RoleSelect => IsRoleSelectMenu(i)
    case ChannelSelect => IsChannelSelectMenu(i)
    case MentionableSelect => IsMentionableSelectMenu(i)
    case Autocomplete => IsAutocomplete(i)
  }

  /** The strategy's `method`: commands are executed, everything else is handled. */
  function MethodOf(s: StrategyName): (m: InvocationMethod)
    ensures m == Execute <==> s in {SlashCommand, UserContextMenu, MessageContextMenu}
  {
    if s.SlashCommand? || s.UserContextMenu? || s.MessageContextMenu? then Execute else Handle
  }

  /** The registries the router reads, one per strategy (all of them the *Listener tables). */
  datatype InteractionRegistries = InteractionRegistries(
    slashCommands: OrderedMap<string, ClassId>,
    userContextMenus: OrderedMap<string, ClassId>,
    messageContextMenus: OrderedMap<string, ClassId>,
    stringSelectListeners: OrderedMap<string, ClassId>,
    userSelectListeners: OrderedMap<string, ClassId>,
    roleSelectListeners: OrderedMap<string, ClassId>,
    channelSelectListeners: OrderedMap<string, ClassId>,
    mentionableSelectListeners: OrderedMap<string, ClassId>,
    autocompleteListeners: OrderedMap<string, ClassId>)

  /** The strategy's `getRegistry()`. */
  function RegistryOf(regs: InteractionRegistries, s: StrategyName): OrderedMap<string, ClassId> {
    match s
    case SlashCommand => regs.slashCommands
    case UserContextMenu => regs.userContextMenus
    case MessageContextMenu => regs.messageContextMenus
    case StringSelect => regs.stringSelectListeners
    case UserSelect => regs.userSelectListeners
    case RoleSelect => regs.roleSelectListeners
    case ChannelSelect => regs.channelSelectListeners
    case MentionableSelect => regs.mentionableSelectListeners
    case Autocomplete => regs.autocompleteListeners
  }

  /** `Strategies.find(...)` from position `k` on: the index of the first strategy that matches. */
  function FindFrom(i: Interaction, k: nat): (r: Option<nat>)
    requires k <= |Strategies|
    ensures r.Some? ==> k <= r.value < |Strategies| && Matches(Strategies[r.value], i)
    ensures r.Some? ==> forall j :: k <= j < r.value ==> !Matches(Strategies[j], i)
    ensures r.None? ==> forall j :: k <= j < |Strategies| ==> !Matches(Strategies[j], i)
    decreases |Strategies| - k
  {
    if k == |Strategies| then None
    else if Matches(Strategies[k], i) then Some(k)
    else FindFrom(i, k + 1)
  }

  /**
    `findMatchingHandler(interaction)`: the first strategy in table order whose
    predicate holds, and none exactly when no predicate holds.
   */
  function FindMatchingHandler(i: Interaction): (r: Option<StrategyName>)
    ensures r.None? <==> forall j :: 0 <= j < |Strategies| ==> !Matches(Strategies[j], i)
    ensures r.Some? ==> Matches(r.value, i)
    ensures r.Some? ==> exists k :: 0 <= k < |Strategies| && Strategies[k] == r.value &&
                          forall j :: 0 <= j < k ==> !Matches(Strategies[j], i)
  {
    match FindFrom(i, 0)
    case Some(k) => Some(Strategies[k])
    case None => None
  }

  /** `registry.get(key)`; an `undefined` key finds nothing, since only strings are registered. */
  function Lookup(m: OrderedMap<string, ClassId>, key: Option<string>): (r: Option<ClassId>)
    ensures r.Some? <==> key.Some? && m.Has(key.value)
  {
    if key.None? then None else m.Get(key.value)
  }

  /** What `executeHandler` did: found no class, or instantiated one and called it. */
  datatype Execution =
    | NoHandler
    | Invoked(cls: ClassId, via: InvocationMethod, outcome: Outcome)

  /** `executeHandler`'s boolean: true only when the handler's call completed. */
  predicate Succeeded(e: Execution) {
    e.Invoked? && e.outcome.Ok?
  }

  /**
    `executeHandler(interaction, strategy)` with the key already extracted:
    look the key up in the strategy's registry; with no class, invoke nothing;
    otherwise instantiate the class and call `execute` or `handle` as the
    strategy says. `invoke` says how that call ends; a throw is caught here.
   */
  function ExecuteHandler(regs: InteractionRegistries, s: StrategyName, key: Option<string>,
                          invoke: (ClassId, InvocationMethod) -> Outcome): (r: Execution)
    ensures r.NoHandler? <==> Lookup(RegistryOf(regs, s), key).None?
    ensures r.Invoked? ==> Some(r.cls) == Lookup(RegistryOf(regs, s), key) && r.via == MethodOf(s)
    ensures Succeeded(r) <==> r.Invoked? && invoke(r.cls, r.via) == Ok
  {
    match Lookup(RegistryOf(regs, s), key)
    case None => NoHandler
    case Some(cls) => Invoked(cls, MethodOf(s), invoke(cls, MethodOf(s)))
  }

  /** How one pass of the router over an interaction ends; it never throws. */
  datatype RouterOutcome =
    | Handled(strategy: StrategyName, cls: ClassId)
    | Unhandled(typeName: string, identifier: string, attempt: Option<Execution>)

  /** The handler class whose method the router called, if it called one. */
  function InvokedClass(o: RouterOutcome): Option<ClassId> {
    match o
    case Handled(_, cls) => Some(cls)
    case Unhandled(_, _, attempt) =>
      if attempt.Some? && attempt.value.Invoked? then Some(attempt.value.cls) else None
  }

  /** A single decimal digit as text. */
  function DigitText(d: nat): string
    requires d < 10
  {
    [('0' as int + d) as char]
  }

  /**
    `getInteractionTypeName(interaction)`: the first guard that holds names
    the type, so any strategy that matches gives its own name; only pings and
    entry-point commands fall through to "Unknown(<type>)".
   */
  function TypeName(i: Interaction): (r: string)
    ensures forall s :: Matches(s, i) ==> r == NameText(s)
    ensures i.kind == Button ==> r == "Button"
    ensures i.kind == ModalSubmit ==> r == "ModalSubmit"
    ensures i.kind in {Ping, PrimaryEntryPointCommand} ==> r == "Unknown(" + DigitText(InteractionType(i)) + ")"
  {
    if IsChatInputCommand(i) then "SlashCommand"
    else if IsUserContextMenuCommand(i) then "UserContextMenu"
    else if IsMessageContextMenuCommand(i) then "MessageContextMenu"
    else if IsButton(i) then "Button"
    else if IsStringSelectMenu(i) then "StringSelect"
    else if IsUserSelectMenu(i) then "UserSelect"
    else if IsRoleSelectMenu(i) then "RoleSelect"
    else if IsChannelSelectMenu(i) then "ChannelSelect"
    else if IsMentionableSelectMenu(i) then "MentionableSelect"
    else if IsAutocomplete(i) then "Autocomplete"
    else if IsModalSubmit(i) then "ModalSubmit"
    else "Unknown(" + DigitText(InteractionType(i)) + ")"
  }

  /**
    `handleIncomingInteraction(interaction)` for a variant whose strategies
    read their key with `keyOf` and whose log lines identify the interaction
    by `identifier`: find the first matching strategy, execute its handler,
    and report success only when the call completed. No match, no registered
    class and a handler that threw all end in the "Unhandled" warning.
   */
  function Route(i: Interaction, regs: InteractionRegistries, invoke: (ClassId, InvocationMethod) -> Outcome,
                 keyOf: (StrategyName, Interaction) -> Option<string>, identifier: string): (r: RouterOutcome)
    ensures FindMatchingHandler(i).None? ==> r == Unhandled(TypeName(i), identifier, None)
    ensures r.Handled? <==>
              FindMatchingHandler(i).Some? &&
              Succeeded(ExecuteHandler(regs, FindMatchingHandler(i).value, keyOf(FindMatchingHandler(i).value, i), invoke))
    ensures r.Unhandled? ==> r.typeName == TypeName(i) && r.identifier == identifier
  {
    match FindMatchingHandler(i)
    case None => Unhandled(TypeName(i), identifier, None)
    case Some(s) =>
      var e := ExecuteHandler(regs, s, keyOf(s, i), invoke);
      if Succeeded(e) then Handled(s, e.cls) else Unhandled(TypeName(i), identifier, Some(e))
  }

  /** `calculateInteractionListenerCount()` over a part of the table: the sum of the registry sizes. */
  function CountOver(regs: InteractionRegistries, ss: seq<StrategyName>): nat {
    if ss == [] then 0 else CountOver(regs, ss[..|ss| - 1]) + RegistryOf(regs, ss[|ss| - 1]).Size()
  }

  /** `calculateInteractionListenerCount()`: the sizes of the nine registries, summed in table order. */
  function InteractionListenerCount(regs: InteractionRegistries): (n: nat)
    ensures n == regs.slashCommands.Size() + regs.userContextMenus.Size() + regs.messageContextMenus.Size()
                 + regs.stringSelectListeners.Size() + regs.userSelectListeners.Size() + regs.roleSelectListeners.Size()
                 + regs.channelSelectListeners.Size() + regs.mentionableSelectListeners.Size()
                 + regs.autocompleteListeners.Size()
  {
    CountOverTableIsSum(regs);
    CountOver(regs, Strategies)
  }

  // ---------------------------------------------------------------------------
  // Properties of the table and the router.

  /** The table is the nine strategies in this exact order. */
  lemma StrategyOrder()
    ensures |Strategies| == 9
    ensures Strategies[0] == SlashCommand && Strategies[1] == UserContextMenu && Strategies[2] == MessageContextMenu
    ensures Strategies[3] == StringSelect && Strategies[4] == UserSelect && Strategies[5] == RoleSelect
    ensures Strategies[6] == ChannelSelect && Strategies[7] == MentionableSelect && Strategies[8] == Autocomplete
    ensures forall j :: 0 <= j < |Strategies| ==> (MethodOf(Strategies[j]) == Execute <==> j < 3)
  {
  }

  /** No interaction satisfies two strategies' predicates, so the priority order never has to break a tie. */
  lemma AtMostOneStrategyMatches(i: Interaction, a: StrategyName, b: StrategyName)
    requires Matches(a, i) && Matches(b, i)
    ensures a == b
  {
  }

  /** The strategy each kind of interaction selects; buttons, modal submissions, pings and entry-point commands select none. */
  lemma {:induction false} MatchedStrategyOfKind(i: Interaction)
    ensures i.kind == ChatInputCommand ==> FindMatchingHandler(i) == Some(SlashCommand)
    ensures i.kind == UserContextMenuCommand ==> FindMatchingHandler(i) == Some(UserContextMenu)
    ensures i.kind == MessageContextMenuCommand ==> FindMatchingHandler(i) == Some(MessageContextMenu)
    ensures i.kind == StringSelectMenu ==> FindMatchingHandler(i) == Some(StringSelect)
    ensures i.kind == UserSelectMenu ==> FindMatchingHandler(i) == Some(UserSelect)
    ensures i.kind == RoleSelectMenu ==> FindMatchingHandler(i) == Some(RoleSelect)
    ensures i.kind == ChannelSelectMenu ==> FindMatchingHandler(i) == Some(ChannelSelect)
    ensures i.kind == MentionableSelectMenu ==> FindMatchingHandler(i) == Some(MentionableSelect)
    ensures i.kind == ApplicationCommandAutocomplete ==> FindMatchingHandler(i) == Some(Autocomplete)
    ensures i.kind in {Button, ModalSubmit, Ping, PrimaryEntryPointCommand} <==> FindMatchingHandler(i).None?
  {
    var r := FindMatchingHandler(i);
    if r.Some? {
      var s := r.value;
      assert Matches(s, i);
      forall s' | Matches(s', i) ensures s' == s { AtMostOneStrategyMatches(i, s, s'); }
    }
    assert Strategies[0] == SlashCommand && Strategies[3] == StringSelect && Strategies[8] == Autocomplete;
  }

  /**
    The type name of a matched interaction is the name of the strategy that
    matched it; an unmatched one is a button, a modal submission or unknown.
   */
  lemma {:induction false} TypeNameAgreesWithStrategy(i: Interaction)
    ensures FindMatchingHandler(i).Some? ==> TypeName(i) == NameText(FindMatchingHandler(i).value)
    ensures FindMatchingHandler(i).None? ==> TypeName(i) in {"Button", "ModalSubmit", "Unknown(1)", "Unknown(2)"}
  {
    MatchedStrategyOfKind(i);
    if i.kind == Ping {
      assert InteractionType(i) == 1 && DigitText(1) == "1";
      assert TypeName(i) == "Unknown(" + "1" + ")" == "Unknown(1)";
    } else if i.kind == PrimaryEntryPointCommand {
      assert InteractionType(i) == 2 && DigitText(2) == "2";
      assert TypeName(i) == "Unknown(" + "2" + ")" == "Unknown(2)";
    }
  }

  /**
    Priority: when the router calls a handler at all, it is the one registered
    in the first matching strategy's registry under that strategy's key, called
    with that strategy's method; a later strategy's registry is never consulted.
   */
  lemma OnlyFirstMatchIsInvoked(i: Interaction, regs: InteractionRegistries, invoke: (ClassId, InvocationMethod) -> Outcome,
                                keyOf: (StrategyName, Interaction) -> Option<string>, identifier: string)
    ensures var o := Route(i, regs, invoke, keyOf, identifier);
            InvokedClass(o).Some? ==>
              && FindMatchingHandler(i).Some?
              && InvokedClass(o) == Lookup(RegistryOf(regs, FindMatchingHandler(i).value), keyOf(FindMatchingHandler(i).value, i))
  {
  }

  /** An interaction no strategy matches invokes nothing and ends in the "Unhandled" warning; a button is one. */
  lemma UnmatchedInvokesNothing(i: Interaction, regs: InteractionRegistries, invoke: (ClassId, InvocationMethod) -> Outcome,
                                keyOf: (StrategyName, Interaction) -> Option<string>, identifier: string)
    requires FindMatchingHandler(i).None? || i.kind == Button
    ensures InvokedClass(Route(i, regs, invoke, keyOf, identifier)).None?
    ensures Route(i, regs, invoke, keyOf, identifier) == Unhandled(TypeName(i), identifier, None)
  {
    MatchedStrategyOfKind(i);
  }

  /**
    A handler that throws is caught: the router reports the interaction as
    unhandled (the same warning as for no handler) instead of failing.
   */
  lemma ThrowingHandlerIsUnhandled(i: Interaction, regs: InteractionRegistries, invoke: (ClassId, InvocationMethod) -> Outcome,
                                   keyOf: (StrategyName, Interaction) -> Option<string>, identifier: string, s: StrategyName, cls: ClassId, msg: string)
    requires FindMatchingHandler(i) == Some(s)
    requires Lookup(RegistryOf(regs, s), keyOf(s, i)) == Some(cls)
    requires invoke(cls, MethodOf(s)) == Throws(msg)
    ensures Route(i, regs, invoke, keyOf, identifier) == Unhandled(TypeName(i), identifier, Some(Invoked(cls, MethodOf(s), Throws(msg))))
  {
  }

  /** A registered handler whose call completes handles the interaction. */
  lemma CompletingHandlerHandles(i: Interaction, regs: InteractionRegistries, invoke: (ClassId, InvocationMethod) -> Outcome,
                                 keyOf: (StrategyName, Interaction) -> Option<string>, identifier: string, s: StrategyName, cls: ClassId)
    requires FindMatchingHandler(i) == Some(s)
    requires Lookup(RegistryOf(regs, s), keyOf(s, i)) == Some(cls)
    requires invoke(cls, MethodOf(s)) == Ok
    ensures Route(i, regs, invoke, keyOf, identifier) == Handled(s, cls)
  {
  }

  /** The running sum over the whole table, unfolded one strategy at a time. */
  lemma {:induction false} CountOverTableIsSum(regs: InteractionRegistries)
    ensures CountOver(regs, Strategies) ==
              regs.slashCommands.Size() + regs.userContextMenus.Size() + regs.messageContextMenus.Size()
            + regs.stringSelectListeners.Size() + regs.userSelectListeners.Size() + regs.roleSelectListeners.Size()
            + regs.channelSelectListeners.Size() + regs.mentionableSelectListeners.Size() + regs.autocompleteListeners.Size()
  {
    var ss := Strategies;
    assert ss[..0] == [];
    assert ss[..1][..0] == ss[..0];
    assert CountOver(regs, ss[..1]) == CountOver(regs, ss[..0]) + regs.slashCommands.Size();
    assert ss[..2][..1] == ss[..1];
    assert CountOver(regs, ss[..2]) == CountOver(regs, ss[..1]) + regs.userContextMenus.Size();
    assert ss[..3][..2] == ss[..2];
    assert CountOver(regs, ss[..3]) == CountOver(regs, ss[..2]) + regs.messageContextMenus.Size();
    assert ss[..4][..3] == ss[..3];
    assert CountOver(regs, ss[..4]) == CountOver(regs, ss[..3]) + regs.stringSelectListeners.Size();
    assert ss[..5][..4] == ss[..4];
    assert CountOver(regs, ss[..5]) == CountOver(regs, ss[..4]) + regs.userSelectListeners.Size();
    assert ss[..6][..5] == ss[..5];
    assert CountOver(regs, ss[..6]) == CountOver(regs, ss[..5]) + regs.roleSelectListeners.Size();
    assert ss[..7][..6] == ss[..6];
    assert CountOver(regs, ss[..7]) == CountOver(regs, ss[..6]) + regs.channelSelectListeners.Size();
    assert ss[..8][..7] == ss[..7];
    assert CountOver(regs, ss[..8]) == CountOver(regs, ss[..7]) + regs.mentionableSelectListeners.Size();
    assert ss[..9][..8] == ss[..8];
    assert CountOver(regs, ss[..9]) == CountOver(regs, ss[..8]) + regs.autocompleteListeners.Size();
    assert ss[..9] == ss;
  }
}
