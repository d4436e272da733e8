# Discord bot module runtime — Dafny model

This project models the core of a plugin runtime for a Discord bot:

- **Capability registries.** Decorators fill process-wide lookup tables while a module's code is imported. There are fourteen keyed registries: the context menus, the five kinds of select menu (a listener and a handler registry for each), and the autocomplete listeners and handlers. There are two event registries (event listeners and event handlers), plus the central `DiscordRegistry` of slash commands and interaction handlers.
- **Interaction dispatch.** The two `ListenerSetupService` routers (infrastructure and domain variants) send each incoming interaction to the first matching strategy of a fixed nine-entry table. They look the handler class up in that strategy's registry and call its method. They also register the event handler classes, or callbacks, with a listener repository.
- **Lifecycle use cases.**
  - `RegisterDiscordCommands` and `RegisterCommands` discover commands in every enabled module and then register them with Discord.
  - `RegisterListeners` and `SetupModuleHandlers` discover listeners or set up handlers in every enabled module, then wire the routers.
  - `StartMigration` runs each module's migration.
  - Each use case catches a module's failure inside its per-module loop, goes on with the next module, and collects the failures into a report or an error log. Steps after that loop are not all guarded: `SetupModuleHandlers` lets a failure of `setupDiscoveredListeners` propagate, and `StartMigration` and `SetupModuleHandlers` run their per-module step as the code is written, including the two defects listed under "## Findings".
- **Support code.**
  - the two `ModuleLoader`s (the service loader and the older module loader);
  - `CommandRegistrationTool` and `CommandRegistrationService`;
  - `InMemoryListenerRepository`;
  - `ConfigManager`;
  - the CLI `Migrator` singleton.

How the source becomes Dafny:

- A JavaScript `Map` is an insertion-ordered `OrderedMaps.OrderedMap`.
- The registries and everything else the source mutates in place are classes with `modifies` clauses. Those are the registries, the command tool, the listener repository, the setup services, the use cases and the migrator.
- Loading and routing are functions over explicit inputs:
  - An `import()` is an oracle `importOf: string -> ImportResult`.
  - A handler call is an oracle that returns how the call completed.
  - A module is a JavaScript value (`Js.JsValue`).
  - A hook call distinguishes a synchronous throw (`Raises`) from a rejected promise (`Rejects`). An awaited call catches both; a call that is not awaited catches only the throw.
- Each loop of the source is a method proved against a specification function, for example `DiscoverEach` against `DiscoveryErrors` and `MigrateModules` against `RunFrom`. The lemmas then state what that function means.
- Timings (`performance.now()`, `Date.now()`) are oracles `elapsed: nat -> nat` or plain parameters.
- Console output is modelled only where a property is about it: error logs, warnings that are returned, and "Unhandled" outcomes.

## Model

| member | source | states |
|---|---|---|
| OrderedMaps.Set | src/infrastructure/decorator/StringSelectListener.ts:7-13 | `Map.set`: the key maps to the new value, every other key is untouched, the size grows by one exactly when the key was new, insertion order is kept |
| OrderedMaps.OrderedValues | src/infrastructure/service/ListenerSetupService.ts:190-193 | `Map.values()` in insertion order: one value per key, in key order |
| CapabilityRegistry.Registry.constructor | src/infrastructure/decorator/StringSelectListener.ts:4 | every keyed registry starts as an empty Map |
| CapabilityRegistry.Registry.Register | src/infrastructure/decorator/StringSelectListener.ts:7-13 | last write wins: the key now maps to the class, other keys are unchanged, the size grows only for a new key, and the "already registered" warning is returned exactly when the key was present |
| CapabilityRegistry.Registry.GetAll | src/infrastructure/decorator/StringSelectListener.ts:15-17 | returns a copy with the same keys, order and classes |
| CapabilityRegistry.Registry.Get | src/infrastructure/decorator/StringSelectListener.ts:19-21 | a class is returned exactly when the key is registered, and it is the registered one |
| CapabilityRegistry.Registry.Clear | src/infrastructure/decorator/StringSelectListener.ts:23-26 | afterwards no key is registered |
| CapabilityRegistry.Decorate | src/infrastructure/decorator/StringSelectListener.ts:47-58 | a decorator returns the class itself, adds its static metadata and registers the class under the key |
| CapabilityRegistry.LastWriteWins | src/infrastructure/decorator/StringSelectListener.ts:7-13 | registering twice under one key keeps the second class and does not grow the registry |
| UserContextMenuDecorator.UserContextMenu | src/infrastructure/decorator/UserContextMenu.ts:49-60 | sets `contextMenuName` and `contextMenuType` "USER", registers the class under the menu name |
| MessageContextMenuDecorator.MessageContextMenu | src/infrastructure/decorator/MessageContextMenu.ts:49-60 | sets `contextMenuName` and `contextMenuType` "MESSAGE", registers the class under the menu name |
| StringSelectListenerDecorator.StringSelectListener | src/infrastructure/decorator/StringSelectListener.ts:47-58 | sets `selectMenuCustomId` and `selectMenuType` "STRING", registers under the custom id |
| StringSelectHandlerDecorator.StringSelectHandler | src/infrastructure/decorator/StringSelectHandler.ts:47-58 | sets `selectMenuCustomId` and `selectMenuType` "STRING", registers under the custom id |
| UserSelectListenerDecorator.UserSelectListener | src/infrastructure/decorator/UserSelectListener.ts:47-58 | sets `selectMenuCustomId` and `selectMenuType` "USER", registers under the custom id |
| UserSelectHandlerDecorator.UserSelectHandler | src/infrastructure/decorator/UserSelectHandler.ts:47-58 | sets `selectMenuCustomId` and `selectMenuType` "USER", registers under the custom id |
| RoleSelectListenerDecorator.RoleSelectListener | src/infrastructure/decorator/RoleSelectListener.ts:47-58 | sets `selectMenuCustomId` and `selectMenuType` "ROLE", registers under the custom id |
| RoleSelectHandlerDecorator.RoleSelectHandler | src/infrastructure/decorator/RoleSelectHandler.ts:47-58 | sets `selectMenuCustomId` and `selectMenuType` "ROLE", registers under the custom id |
| ChannelSelectListenerDecorator.ChannelSelectListener | src/infrastructure/decorator/ChannelSelectListener.ts:47-58 | sets `selectMenuCustomId` and `selectMenuType` "CHANNEL", registers under the custom id |
| ChannelSelectHandlerDecorator.ChannelSelectHandler | src/infrastructure/decorator/ChannelSelectHandler.ts:47-58 | sets `selectMenuCustomId` and `selectMenuType` "CHANNEL", registers under the custom id |
| MentionableSelectListenerDecorator.MentionableSelectListener | src/infrastructure/decorator/MentionableSelectListener.ts:47-58 | sets `selectMenuCustomId` and `selectMenuType` "MENTIONABLE", registers under the custom id |
| MentionableSelectHandlerDecorator.MentionableSelectHandler | src/infrastructure/decorator/MentionableSelectHandler.ts:47-58 | sets `selectMenuCustomId` and `selectMenuType` "MENTIONABLE", registers under the custom id |
| AutocompleteListenerDecorator.AutocompleteListener | src/infrastructure/decorator/AutocompleteListener.ts:53-63 | sets `autocompleteCommandName`, registers under the command name |
| AutocompleteHandlerDecorator.AutocompleteHandler | src/infrastructure/decorator/AutocompleteHandler.ts:53-63 | sets `autocompleteCommandName`, registers under the command name |
| DiscordRegistry.Tables.constructor | src/infrastructure/registry/DiscordRegistry.ts:11-12 | both tables start empty |
| DiscordRegistry.Tables.RegisterSlashCommand | src/infrastructure/registry/DiscordRegistry.ts:15-21 | last write wins under the name, the overwrite warning is returned exactly when the name was present, interaction handlers are untouched |
| DiscordRegistry.Tables.GetAllSlashCommands | src/infrastructure/registry/DiscordRegistry.ts:23-25 | returns a copy with the same names, order and classes |
| DiscordRegistry.Tables.GetSlashCommand | src/infrastructure/registry/DiscordRegistry.ts:27-29 | a class is returned exactly when the name is registered |
| DiscordRegistry.Tables.ClearSlashCommands | src/infrastructure/registry/DiscordRegistry.ts:31-33 | empties the slash commands only |
| DiscordRegistry.Tables.RegisterInteractionHandler | src/infrastructure/registry/DiscordRegistry.ts:36-43 | a class already in the list is skipped with a warning, otherwise it is appended; the list stays duplicate-free |
| DiscordRegistry.Tables.GetAllInteractionHandlers | src/infrastructure/registry/DiscordRegistry.ts:45-47 | returns a copy of the list |
| DiscordRegistry.Tables.ClearInteractionHandlers | src/infrastructure/registry/DiscordRegistry.ts:49-51 | empties the list only |
| DiscordRegistry.Tables.ClearDiscordRegistry | src/infrastructure/registry/DiscordRegistry.ts:54-58 | empties both tables |
| DiscordRegistry.Tables.GetDiscordRegistrationSummary | src/infrastructure/registry/DiscordRegistry.ts:60-70 | counts the distinct slash command names and the distinct handler classes; total is their sum |
| EventRegistries.EventRegistry.constructor | src/infrastructure/decorator/EventListener.ts:5 | the event registry starts empty |
| EventRegistries.EventRegistry.Register | src/infrastructure/decorator/EventListener.ts:8-31 | skipped exactly when the class is already listed for the event; otherwise `{class, once}` is appended to that event's list, which is created empty if missing; no event's list ever holds a class twice |
| EventRegistries.EventRegistry.GetAll | src/infrastructure/decorator/EventListener.ts:33-35 | returns a copy with the same events, order and lists |
| EventRegistries.EventRegistry.Get | src/infrastructure/decorator/EventListener.ts:37-39 | the event's list, or the empty list for an unknown event |
| EventRegistries.EventRegistry.Clear | src/infrastructure/decorator/EventListener.ts:41-44 | afterwards every event's list is empty |
| EventRegistries.EntriesOf | src/infrastructure/decorator/EventListener.ts:37-39 | `get(eventName) \|\| []`: unknown events have no entries |
| EventRegistries.Registered | src/infrastructure/decorator/EventListener.ts:8-31 | afterwards the class is listed for the event; a class already listed leaves the table unchanged, a new one is appended to that event's list; no other event's list changes |
| EventRegistries.RegisteredKeepsNoDuplicates | src/infrastructure/decorator/EventListener.ts:22-29 | registration preserves "no class twice under one event" |
| EventRegistries.RegisterAppends | src/infrastructure/decorator/EventListener.ts:13-29 | a new class is appended at the end of its event's list, other events are unchanged, and existing events keep their order |
| EventRegistries.DuplicateIsSkipped | src/infrastructure/decorator/EventListener.ts:22-27 | re-registering a listed class changes nothing, not even its `once` flag |
| EventRegistries.DistinctClassesCoexist | src/infrastructure/decorator/EventListener.ts:8-31 | two different classes under one event are both kept, in registration order |
| EventRegistries.SameClassUnderTwoEvents | src/infrastructure/decorator/EventListener.ts:8-31 | the duplicate check is per event: one class may listen to two events |
| EventRegistries.ReadyScenario | src/infrastructure/decorator/EventListener.ts:8-31 | a `once` and an `on` listener on "ready" are listed in that order with their flags |
| EventListenerDecorator.EventListener | src/infrastructure/decorator/EventListener.ts:71-82 | sets `eventName` and `eventOnce`, registers with the skip-duplicate semantics |
| EventHandlerDecorator.EventHandler | src/infrastructure/decorator/EventHandler.ts:66-77 | sets `eventName` and `eventOnce`, registers with the skip-duplicate semantics |
| EventWalk.WalkPrefixStep | src/infrastructure/service/ListenerSetupService.ts:255-271 | the nested `for` walk visits one event's whole list, then moves to the next event |
| EventWalk.WalkVisitsExactlyTheEntries | src/infrastructure/service/ListenerSetupService.ts:255-271 | the walk visits a registration exactly when it is in the registry |
| Interactions.InteractionType | src/domain/interface/InteractionHandler.ts:5-26 | the Discord interaction type of each kind lies in 1..5 |
| Interactions.MethodOf | src/infrastructure/service/ListenerSetupService.ts:60-149 | the three command strategies call `execute`, the other six call `handle` |
| Interactions.Matches | src/infrastructure/service/ListenerSetupService.ts:60-149 | a command strategy matches only application commands (type 2), a select strategy only message components (type 3), autocomplete only type 4; buttons, modal submissions, pings and entry-point commands match no strategy |
| Interactions.FindFrom | src/infrastructure/service/ListenerSetupService.ts:190-193 | `Array.find`: the first strategy from the start index whose predicate holds, or none if none holds |
| Interactions.FindMatchingHandler | src/infrastructure/service/ListenerSetupService.ts:190-193 | none exactly when no strategy matches; otherwise a matching strategy before which none matches |
| Interactions.Lookup | src/infrastructure/service/ListenerSetupService.ts:197-204 | a class is found exactly when the key is present and registered |
| Interactions.ExecuteHandler | src/infrastructure/service/ListenerSetupService.ts:195-219 | "no handler" exactly when the lookup misses; otherwise the looked-up class is called with the strategy's method; success exactly when that call completes |
| Interactions.Route | src/infrastructure/service/ListenerSetupService.ts:160-188 | handled exactly when a strategy matches and its handler runs to completion; every other path ends in the "Unhandled" warning with the interaction's type name and identifier |
| Interactions.StrategyOrder | src/infrastructure/service/ListenerSetupService.ts:60-149 | the table lists nine strategies in source order, and only the first three use `execute` |
| Interactions.AtMostOneStrategyMatches | src/infrastructure/service/ListenerSetupService.ts:60-149 | no interaction satisfies two strategies' predicates |
| Interactions.MatchedStrategyOfKind | src/infrastructure/service/ListenerSetupService.ts:60-149 | which strategy each kind of interaction selects; buttons, modal submissions, pings and entry-point commands select none |
| Interactions.TypeNameAgreesWithStrategy | src/infrastructure/service/ListenerSetupService.ts:232-245 | a matched interaction's type name is its strategy's name; an unmatched one is "Button", "ModalSubmit" or "Unknown(n)" |
| Interactions.TypeName | src/infrastructure/service/ListenerSetupService.ts:232-245 | the type name is the name of any strategy that matches; buttons and modal submissions get their own names; only pings and entry-point commands fall through to "Unknown(<type>)" |
| Interactions.OnlyFirstMatchIsInvoked | src/infrastructure/service/ListenerSetupService.ts:160-193 | any class invoked is the one registered under the first matching strategy's key |
| Interactions.UnmatchedInvokesNothing | src/infrastructure/service/ListenerSetupService.ts:160-188 | an unmatched interaction, a button for example, invokes nothing and is reported unhandled |
| Interactions.ThrowingHandlerIsUnhandled | src/infrastructure/service/ListenerSetupService.ts:214-217 | a throwing handler is caught and the interaction is reported unhandled |
| Interactions.CompletingHandlerHandles | src/infrastructure/service/ListenerSetupService.ts:167-174 | a registered handler whose call completes handles the interaction |
| Interactions.InteractionListenerCount | src/infrastructure/service/ListenerSetupService.ts:221-230 | the listener count is the sum of the nine registry sizes |
| InfraListenerSetup.OrUnknown | src/infrastructure/service/ListenerSetupService.ts:247-253 | `name \|\| 'unknown'`: never empty, and a non-empty name is kept |
| InfraListenerSetup.Identifier | src/infrastructure/service/ListenerSetupService.ts:247-253 | the identifier in a log line is never empty |
| InfraListenerSetup.HandleIncomingInteraction | src/infrastructure/service/ListenerSetupService.ts:160-188 | unhandled outcomes carry the identifier; a handled one names the first matching strategy |
| InfraListenerSetup.KeyOf | src/infrastructure/service/ListenerSetupService.ts:60-149 | for the strategy that matched, the type guard in `getKey` holds: a select is keyed by its custom id, a command or autocomplete by its command name; in every case the key is one of those or the empty-string fallback |
| InfraListenerSetup.IdentifierOfNamedInteraction | src/infrastructure/service/ListenerSetupService.ts:247-253 | commands and autocompletes are identified by their name, components and modals by their custom id, and pings as "unknown" |
| InfraListenerSetup.HandlerClassEntries | src/infrastructure/service/ListenerSetupService.ts:255-271 | one repository entry per registration, in walk order |
| InfraListenerSetup.HandlerClassEntryAt | src/infrastructure/service/ListenerSetupService.ts:261-265 | each entry carries its registration's event name, class and `once` flag |
| InfraListenerSetup.HandlerClassEntriesConcat | src/infrastructure/service/ListenerSetupService.ts:255-271 | registering two walks in turn registers their concatenation |
| InfraListenerSetup.ListenerSetupService.SetupInteractionRouter | src/infrastructure/service/ListenerSetupService.ts:151-158 | registers exactly one router callback and returns the summed registry sizes |
| InfraListenerSetup.ListenerSetupService.SetupEventListeners | src/infrastructure/service/ListenerSetupService.ts:255-271 | registers one handler-class entry per registration, in walk order, touches nothing else, and returns their number |
| InfraListenerSetup.ListenerSetupService.RegisterEventClasses | src/infrastructure/service/ListenerSetupService.ts:260-267 | the inner loop registers one event's list in order |
| InfraListenerSetup.ListenerSetupService.SetupDiscoveredListeners | src/infrastructure/service/ListenerSetupService.ts:42-55 | router callback plus event classes; the total is the interaction count plus the event registrations |
| InfraListenerSetup.SetupRecordsExactlyTheTable | src/infrastructure/service/ListenerSetupService.ts:255-271 | the repository receives an entry exactly when the event registry holds that registration |
| DomainListenerSetup.Rendered | src/domain/service/ListenerSetupService.ts:249-255 | a template literal renders a missing name as "undefined" |
| DomainListenerSetup.KeyOf | src/domain/service/ListenerSetupService.ts:62-151 | `getKey` has no type guard here, yet for the strategy that matched it reads the same key as the infrastructure variant |
| DomainListenerSetup.Identifier | src/domain/service/ListenerSetupService.ts:249-255 | the raw name is the infrastructure identifier whenever it is neither "" nor "undefined"; an empty name here shows as "unknown" there |
| DomainListenerSetup.HandleIncomingInteraction | src/domain/service/ListenerSetupService.ts:162-190 | unhandled outcomes carry this variant's identifier; a handled one names the first matching strategy |
| DomainListenerSetup.VariantsRouteAlike | src/domain/service/ListenerSetupService.ts:162-221 | both variants invoke the same class and agree on handled or unhandled; they differ only in the identifier logged |
| DomainListenerSetup.IdentifierDifferences | src/domain/service/ListenerSetupService.ts:249-255 | an empty custom id logs "" here and "unknown" in the other variant; a missing command name logs "undefined" here and "unknown" there |
| DomainListenerSetup.EventListenerEntries | src/domain/service/ListenerSetupService.ts:257-275 | one repository callback per registration, in walk order |
| DomainListenerSetup.EventListenerEntryAt | src/domain/service/ListenerSetupService.ts:263-269 | each callback invokes its own registration's class, with its event name and `once` flag |
| DomainListenerSetup.EventListenerEntriesConcat | src/domain/service/ListenerSetupService.ts:257-275 | registering two walks in turn registers their concatenation |
| DomainListenerSetup.ListenerSetupService.SetupInteractionRouter | src/domain/service/ListenerSetupService.ts:153-160 | registers exactly one router callback and returns the summed registry sizes |
| DomainListenerSetup.ListenerSetupService.SetupEventListeners | src/domain/service/ListenerSetupService.ts:257-275 | registers one callback per registration, in walk order, touches nothing else, and returns their number |
| DomainListenerSetup.ListenerSetupService.RegisterEventCallbacks | src/domain/service/ListenerSetupService.ts:262-271 | the inner loop registers one event's list in order |
| DomainListenerSetup.ListenerSetupService.SetupDiscoveredListeners | src/domain/service/ListenerSetupService.ts:44-57 | router callback plus event callbacks; the total is the interaction count plus the event registrations |
| DomainListenerSetup.SetupRecordsExactlyTheTable | src/domain/service/ListenerSetupService.ts:257-275 | the repository receives a callback exactly when the event registry holds that registration |
| ListenerRepositories.InMemoryListenerRepository.constructor | src/infrastructure/repository/inMemory/InMemoryListenerRepository.ts:17-19 | all three lists start empty |
| ListenerRepositories.InMemoryListenerRepository.RegisterEventListener | src/infrastructure/repository/inMemory/InMemoryListenerRepository.ts:21-27 | appends one entry; the other lists are unchanged |
| ListenerRepositories.InMemoryListenerRepository.RegisterEventHandlerClass | src/infrastructure/repository/inMemory/InMemoryListenerRepository.ts:29-35 | appends one entry; the other lists are unchanged |
| ListenerRepositories.InMemoryListenerRepository.RegisterInteractionListener | src/infrastructure/repository/inMemory/InMemoryListenerRepository.ts:37-41 | appends one callback; the other lists are unchanged |
| ListenerRepositories.InMemoryListenerRepository.GetListenerSummary | src/infrastructure/repository/inMemory/InMemoryListenerRepository.ts:43-51 | event listeners count both event lists; total is everything |
| ListenerRepositories.RepeatedRegistrationsAreCounted | src/infrastructure/repository/inMemory/InMemoryListenerRepository.ts:21-51 | the repository does not deduplicate: the same class registered twice counts twice |
| CommandTool.CountOf | src/domain/service/CommandRegistrationTool.ts:109-125 | a per-type count never exceeds the number of commands |
| CommandTool.CountsPartition | src/domain/service/CommandRegistrationTool.ts:109-125 | the three per-type counts add up to the total |
| CommandTool.Payload | src/domain/service/CommandRegistrationTool.ts:153 | one JSON descriptor per collected command, in order |
| CommandTool.CommandRegistrationTool.constructor | src/domain/service/CommandRegistrationTool.ts:29 | records the dry-run flag; no commands yet |
| CommandTool.CommandRegistrationTool.AddSlashCommand | src/domain/service/CommandRegistrationTool.ts:39-54 | in a dry run nothing is collected; otherwise the slash command is appended |
| CommandTool.CommandRegistrationTool.AddUserContextMenu | src/domain/service/CommandRegistrationTool.ts:61-75 | in a dry run nothing is collected; otherwise the user context menu is appended |
| CommandTool.CommandRegistrationTool.AddMessageContextMenu | src/domain/service/CommandRegistrationTool.ts:82-96 | in a dry run nothing is collected; otherwise the message context menu is appended |
| CommandTool.CommandRegistrationTool.GetCommands | src/domain/service/CommandRegistrationTool.ts:102-104 | returns a copy of the collected commands |
| CommandTool.CommandRegistrationTool.GetCommandSummary | src/domain/service/CommandRegistrationTool.ts:109-125 | per-type counts of the collected commands, summing to the total |
| CommandTool.CommandRegistrationTool.Clear | src/domain/service/CommandRegistrationTool.ts:131-134 | empties the collected commands |
| CommandTool.CommandRegistrationTool.PerformDiscordRegistration | src/domain/service/CommandRegistrationTool.ts:140-169 | a dry run only announces; no commands means nothing to register; otherwise the whole payload is submitted; without an application nothing is sent and 0 is reported; the submission is recorded as sent exactly when `set` succeeds, with its count, and rethrown exactly when it fails |
| CommandTool.DryRunNeverSubmits | src/domain/service/CommandRegistrationTool.ts:39-54 | a dry-run tool never collects, so it announces zero commands and submits nothing |
| CommandTool.DeclareOneOfEach | src/domain/service/CommandRegistrationTool.ts:39-125 | one command of each kind yields the summary 1/1/1, total 3 |
| CommandService.DiscoveredClasses | src/domain/service/CommandRegistrationService.ts:66-94 | the classes to build are the slash commands, then the user menus, then the message menus |
| CommandService.BuildFrom | src/domain/service/CommandRegistrationService.ts:66-94 | a successful build keeps what was built and adds one descriptor per class; a failed build carries the error of one of the classes' own builds |
| CommandService.BuildFromMeaning | src/domain/service/CommandRegistrationService.ts:66-94 | building succeeds exactly when every class builds; the result is the built descriptors in order |
| CommandService.BuildFromFirstFailure | src/domain/service/CommandRegistrationService.ts:66-94 | a failed build carries the error of the first class whose build fails; every class before it built |
| CommandService.BuildFromConcat | src/domain/service/CommandRegistrationService.ts:66-94 | building a concatenation means building the first part, then continuing with the second |
| CommandService.BuildEach | src/domain/service/CommandRegistrationService.ts:69-91 | the build loop computes `BuildFrom` |
| CommandService.BuildCommandsFromRegistry | src/domain/service/CommandRegistrationService.ts:66-94 | builds the descriptors of all discovered classes in registry order |
| CommandService.GetDiscoveredCommandsSummary | src/domain/service/CommandRegistrationService.ts:41-52 | the per-registry sizes and their sum |
| CommandService.RegisterDiscoveredCommands | src/domain/service/CommandRegistrationService.ts:21-35 | a build failure fails the registration; no commands is reported as nothing to register; otherwise the built list is submitted |
| CommandService.SubmittedPayloadMatchesSummary | src/domain/service/CommandRegistrationService.ts:21-52 | when every class builds, the submitted payload is as long as the summary's total |
| Js.GetProperty | src/domain/service/ModuleLoader.ts:26-34 | property access throws exactly on `undefined` and `null`; an own property is returned as is |
| Js.CallOptional | src/application/useCase/RegisterDiscordCommands.ts:29 | `obj.hook?.()`: a function is called, `undefined` or `null` means nothing happens |
| Js.Awaited | src/application/useCase/RegisterDiscordCommands.ts:27-45 | `await` in `try`: success exactly when the call resolved |
| Js.NotAwaited | src/application/useCase/SetupModuleHandlers.ts:29 | a call in `try` without `await`: success exactly when it did not throw synchronously |
| ModuleLoader.Unwrap | src/domain/service/ModuleLoader.ts:6-7 | the default export when there is one, else the namespace itself |
| ModuleLoader.IsValidModule | src/domain/service/ModuleLoader.ts:26-34 | the `typeof` checks hold exactly for an object with a string `name` and function `migrate` and `register` properties; `null` is excluded |
| ModuleLoader.LoadModule | src/domain/service/ModuleLoader.ts:3-24 | success exactly when the import resolves to a valid module, and then that module is returned; an import failure and an invalid shape each give their own prefixed message |
| ModuleLoader.LoadedModuleShape | src/domain/service/ModuleLoader.ts:14-16 | a loaded module has a string `name` and `migrate` and `register` functions; the mismatch warning is raised exactly when that name differs from the requested one |
| ModuleLoader.FailuresArePrefixed | src/domain/service/ModuleLoader.ts:18-23 | every failure message starts with "Failed to load module" and the name |
| ModuleLoader.ShapeRejections | src/domain/service/ModuleLoader.ts:26-34 | a module without `register`, a `null` default and a string default are all rejected as not implementing the interface |
| LegacyModuleLoader.LoadModuleAsWritten | src/domain/module/ModuleLoader.ts:3-19 | the older loader as written, which the migration use case calls: success exactly when the unwrapped export is a valid module, returned as is; an import failure and a wrong shape give their prefixed messages; a `null` export gives the prefixed TypeError of reading `null.name` |
| LegacyModuleLoader.IsValidModule | src/domain/module/ModuleLoader.ts:21-27 | the corrected check: an object with a string `name` and a function `migrate`; `register` is not required |
| LegacyModuleLoader.LoadModule | src/domain/module/ModuleLoader.ts:3-19 | the older loader with the null check added: success exactly when the unwrapped export is a valid module; otherwise the prefixed "does not implement ModuleInterface" error, also for `null` |
| LegacyModuleLoader.IsValidModuleAsWritten | src/domain/module/ModuleLoader.ts:21-27 | the check as written throws on a `null` module and answers on every other value |
| LegacyModuleLoader.CheckAgreesExceptOnNull | src/domain/module/ModuleLoader.ts:21-27 | off `null`, the check as written and the corrected check agree |
| LegacyModuleLoader.LoadersAgreeExceptOnNull | src/domain/module/ModuleLoader.ts:3-27 | both loaders agree on every import whose unwrapped export is not `null` |
| LegacyModuleLoader.NullDefaultExport | src/domain/module/ModuleLoader.ts:21-27 | `{default: null}` fails with a TypeError message instead of "does not implement ModuleInterface" |
| LegacyModuleLoader.LooserThanNewerLoader | src/domain/module/ModuleLoader.ts:21-27 | whatever the newer loader accepts, the older one accepts too, and it also accepts a module without `register` |
| ModuleSteps.LoadThenCall | src/application/useCase/RegisterCommands.ts:16-24 | a failed load is the thrown error; otherwise the outcome of the optional hook call, awaited or not |
| ModuleSteps.LoadThenCallSucceeds | src/application/useCase/RegisterCommands.ts:16-24 | an awaited step succeeds exactly when the module loads and the hook resolves; a module without the hook succeeds |
| ModuleSteps.Discover | src/application/useCase/RegisterCommands.ts:16-24 | one module's awaited discovery succeeds exactly when the module loads and its hook, if any, resolves; a load failure is thrown with the loader's message |
| ModuleSteps.NotAwaitingLosesOnlyRejections | src/application/useCase/SetupModuleHandlers.ts:27-31 | not awaiting changes the outcome only for a rejecting hook, which then counts as a success |
| ModuleSteps.DiscoveryLog | src/application/useCase/RegisterCommands.ts:20-23 | a module logs at most one line, and none exactly when its discovery succeeded |
| ModuleSteps.DiscoveryErrors | src/application/useCase/RegisterCommands.ts:16-24 | at most one error line per enabled module |
| ModuleSteps.DiscoverEach | src/application/useCase/RegisterListeners.ts:16-24 | the per-module loop logs exactly `DiscoveryErrors`, in module order |
| ModuleSteps.NoErrorsIffAllDiscovered | src/application/useCase/RegisterCommands.ts:16-24 | the error log is empty exactly when every module's discovery succeeded |
| ModuleSteps.AllDiscoveredLogsNothing | src/application/useCase/RegisterCommands.ts:16-24 | when every discovery succeeds, nothing is logged |
| ModuleSteps.FailureIsLogged | src/application/useCase/RegisterCommands.ts:20-23 | one module's failure does not stop the loop: its line "Failed to discover … for module" appears in the log |
| ModuleSteps.AllFailedLogsEach | src/application/useCase/RegisterCommands.ts:16-24 | when every module fails, the log holds exactly one line per module, in module order, each with that module's message |
| RegisterDiscordCommandsUseCase.Recorded | src/application/useCase/RegisterDiscordCommands.ts:31-44 | a successful module is SUCCESS with its duration; a failed one is FAILED with the error and no duration |
| RegisterDiscordCommandsUseCase.DiscoveryResult | src/application/useCase/RegisterDiscordCommands.ts:23-46 | SUCCESS exactly when the module loads and `discoverCommands` resolves |
| RegisterDiscordCommandsUseCase.DiscoveryResults | src/application/useCase/RegisterDiscordCommands.ts:23-46 | one result per enabled module |
| RegisterDiscordCommandsUseCase.DiscoveryResultAt | src/application/useCase/RegisterDiscordCommands.ts:23-46 | the j-th result is the j-th module's, timed by the j-th clock reading |
| RegisterDiscordCommandsUseCase.AggregateResult | src/application/useCase/RegisterDiscordCommands.ts:48-71 | the "discord-api-registration" entry is FAILED exactly when it is not a dry run and registration failed |
| RegisterDiscordCommandsUseCase.RegisterDiscordCommands.constructor | src/application/useCase/RegisterDiscordCommands.ts:14-16 | records the dry-run flag |
| RegisterDiscordCommandsUseCase.RegisterDiscordCommands.Execute | src/application/useCase/RegisterDiscordCommands.ts:18-81 | the report is the per-module results followed by the aggregate entry, with counts and total duration; a dry run submits nothing; any submission is the built payload |
| RegisterDiscordCommandsUseCase.RegisterDiscordCommands.DiscoverAll | src/application/useCase/RegisterDiscordCommands.ts:23-46 | the loop produces `DiscoveryResults` |
| RegisterDiscordCommandsUseCase.RegisterDiscordCommands.RegisterAll | src/application/useCase/RegisterDiscordCommands.ts:48-71 | builds from the registries, submits unless in a dry run, and returns the aggregate entry |
| RegisterDiscordCommandsUseCase.ReportShape | src/application/useCase/RegisterDiscordCommands.ts:73-80 | the report has one entry more than there are modules, the aggregate last, and its counts partition the entries |
| RegisterDiscordCommandsUseCase.ModuleWithoutHookSucceeds | src/application/useCase/RegisterDiscordCommands.ts:29 | a loaded module without `discoverCommands` is a SUCCESS |
| RegisterDiscordCommandsUseCase.LoadFailureIsRecorded | src/application/useCase/RegisterDiscordCommands.ts:39-44 | a load failure is recorded as FAILED with the loader's message |
| RegisterDiscordCommandsUseCase.DryRunAggregateSucceeds | src/application/useCase/RegisterDiscordCommands.ts:48-71 | in a dry run the aggregate entry is always SUCCESS |
| RegisterCommandsUseCase.RegistrationLog | src/application/useCase/RegisterCommands.ts:26-31 | a line is logged exactly when registration with Discord failed |
| RegisterCommandsUseCase.RegisterCommands.Execute | src/application/useCase/RegisterCommands.ts:13-32 | the registration outcome is determined by the registries, the build function and the repository alone, whatever the modules' discovery did; the log is every module's discovery error, then the registration error if any; the submission is the built payload |
| RegisterCommandsUseCase.RegistrationRunsAfterEveryModule | src/application/useCase/RegisterCommands.ts:16-31 | even when every module's discovery fails, each module has its own line in order and the registration step's line, if any, follows them |
| RegisterListenersUseCase.RegisterListeners.constructor | src/application/useCase/RegisterListeners.ts:9-11 | wires the setup service to the repository |
| RegisterListenersUseCase.RegisterListeners.Execute | src/application/useCase/RegisterListeners.ts:13-33 | logs each module's discovery error, then registers the router and the event classes once; returns the listener total |
| SetupModuleHandlersUseCase.Recorded | src/application/useCase/SetupModuleHandlers.ts:25-44 | every entry carries its duration; SUCCESS exactly when the step succeeded; the error is present exactly on failure |
| SetupModuleHandlersUseCase.HandlerResultAsWritten | src/application/useCase/SetupModuleHandlers.ts:25-44 | without `await`: SUCCESS exactly when the module loads and `setupHandlers` does not throw synchronously |
| SetupModuleHandlersUseCase.HandlerResult | src/application/useCase/SetupModuleHandlers.ts:25-44 | corrected, with the call awaited: SUCCESS exactly when the module loads and `setupHandlers` resolves; a failure records the message |
| SetupModuleHandlersUseCase.HandlerResults | src/application/useCase/SetupModuleHandlers.ts:25-44 | as written: one result per enabled module, each from the un-awaited step |
| SetupModuleHandlersUseCase.HandlerResultAt | src/application/useCase/SetupModuleHandlers.ts:25-44 | the j-th result is the j-th module's un-awaited step, timed by the j-th clock reading |
| SetupModuleHandlersUseCase.CorrectedHandlerResults | src/application/useCase/SetupModuleHandlers.ts:25-44 | corrected: one result per enabled module, each from the awaited step |
| SetupModuleHandlersUseCase.CorrectedHandlerResultAt | src/application/useCase/SetupModuleHandlers.ts:25-44 | the j-th corrected result is the j-th module's awaited step |
| SetupModuleHandlersUseCase.SetupModuleHandlers.constructor | src/application/useCase/SetupModuleHandlers.ts:13-15 | wires the domain setup service to the repository |
| SetupModuleHandlersUseCase.SetupModuleHandlers.Execute | src/application/useCase/SetupModuleHandlers.ts:17-55 | as written: results for the enabled modules in config order from the un-awaited step, success and failure counts partitioning them, the router and event callbacks registered once, and the listener total |
| SetupModuleHandlersUseCase.SetupModuleHandlers.SetupEach | src/application/useCase/SetupModuleHandlers.ts:25-44 | the loop, with `setupHandlers` not awaited, produces `HandlerResults` |
| SetupModuleHandlersUseCase.ModuleWithoutHookSucceeds | src/application/useCase/SetupModuleHandlers.ts:28-35 | a loaded module without `setupHandlers` is a SUCCESS with its duration, as written and corrected alike |
| SetupModuleHandlersUseCase.StepsAgreeIffNoRejection | src/application/useCase/SetupModuleHandlers.ts:28-43 | one module is recorded alike as written and corrected exactly when its `setupHandlers` does not reject; a corrected SUCCESS is a SUCCESS as written too |
| SetupModuleHandlersUseCase.EntryAgreesIffNoRejection | src/application/useCase/SetupModuleHandlers.ts:25-44 | the same for the j-th entry of a run |
| SetupModuleHandlersUseCase.ListsAgreeIffNoRejection | src/application/useCase/SetupModuleHandlers.ts:25-44 | a run's results as written equal the corrected results exactly when no module's `setupHandlers` rejects |
| SetupModuleHandlersUseCase.SuccessesUpTo | src/application/useCase/SetupModuleHandlers.ts:25-49 | over the first i modules, the corrected run counts no more successes than the run as written |
| SetupModuleHandlersUseCase.AsWrittenSucceedsAtLeastAsOften | src/application/useCase/SetupModuleHandlers.ts:25-49 | the success count as written is never below the corrected one, so rejections can only inflate it |
| SetupModuleHandlersUseCase.RejectedSetupRecordedAsSuccess | src/application/useCase/SetupModuleHandlers.ts:29 | a rejecting `setupHandlers` is SUCCESS as written and FAILED when awaited |
| StartMigrationUseCase.Migrate | src/application/useCase/StartMigration.ts:29-32 | the awaited `migrate(...)` call succeeds exactly when it resolves; otherwise it fails with the throw's or rejection's message |
| StartMigrationUseCase.RecordMigration | src/application/useCase/StartMigration.ts:23-44 | a load failure is FAILED with its message and no duration; in a dry run a loaded module is "success" without calling `migrate`; otherwise "success" with the duration exactly when `migrate` resolves, FAILED with its message if not |
| StartMigrationUseCase.MigrationResult | src/application/useCase/StartMigration.ts:22-45 | with the older loader as written: never "skipped"; FAILED exactly when there is an error; a duration exactly for a real, successful migration; a load failure is FAILED with the loader's message; in a dry run success means the module loaded |
| StartMigrationUseCase.MigrationResults | src/application/useCase/StartMigration.ts:22-45 | one result per enabled module |
| StartMigrationUseCase.MigrationResultAt | src/application/useCase/StartMigration.ts:22-45 | the j-th result is the j-th module's |
| StartMigrationUseCase.MigrateCalls | src/application/useCase/StartMigration.ts:25-37 | `migrate` is never called in a dry run and at most once per module |
| StartMigrationUseCase.MigrateCallsStep | src/application/useCase/StartMigration.ts:25-37 | the calls grow by the next module exactly when it loads and it is not a dry run |
| StartMigrationUseCase.StartMigration.constructor | src/application/useCase/StartMigration.ts:11-13 | records the dry-run flag |
| StartMigrationUseCase.StartMigration.Execute | src/application/useCase/StartMigration.ts:15-55 | the report holds the per-module results, the total duration and counts that partition them; `migrate` is called exactly for the loaded modules outside a dry run |
| StartMigrationUseCase.StartMigration.MigrateEach | src/application/useCase/StartMigration.ts:22-45 | the loop produces the results and the calls |
| StartMigrationUseCase.StartMigration.MigrateOne | src/application/useCase/StartMigration.ts:23-44 | one module's try/catch body |
| StartMigrationUseCase.NoneSkipped | src/application/useCase/StartMigration.ts:47-54 | no result is "skipped", so success and failure counts cover every module |
| StartMigrationUseCase.ResolvingMigrationSucceeds | src/application/useCase/StartMigration.ts:25-37 | a resolving `migrate` is recorded as success, with a duration unless in a dry run |
| StartMigrationUseCase.RejectingMigrationFails | src/application/useCase/StartMigration.ts:38-44 | a rejecting `migrate` is FAILED with its message in a real run; a dry run never calls it and records success |
| StartMigrationUseCase.NullExportRecordedAsTypeError | src/application/useCase/StartMigration.ts:23-44 | a `null` default export is recorded as FAILED with the prefixed TypeError message, in a dry run as well |
| Reports.CountStatus | src/application/useCase/SetupModuleHandlers.ts:48-49 | a status count never exceeds the number of results |
| Reports.CountsPartition | src/application/useCase/SetupModuleHandlers.ts:48-49 | SUCCESS and FAILED counts add up to the number of results |
| Reports.MakeReport | src/application/useCase/RegisterDiscordCommands.ts:73-80 | a report keeps its results and total duration, and its counts partition the results |
| Reports.CountMigrationStatus | src/application/useCase/StartMigration.ts:47-54 | a migration status count never exceeds the number of results |
| Reports.MigrationCountsPartition | src/application/useCase/StartMigration.ts:47-54 | without skipped results, the success and failure counts add up to the number of results |
| Config.LoadConfig | src/domain/config/ConfigManager.ts:14-38 | each failure (missing, unreadable, invalid JSON, invalid structure) has its own message; success exactly when every step succeeds, giving the schema's result |
| Config.EnabledAmong | src/domain/config/ConfigManager.ts:51-55 | filtering never adds entries |
| Config.EnabledAmongMembership | src/domain/config/ConfigManager.ts:51-55 | an entry is kept exactly when its name is listed and its config is enabled |
| Config.EnabledAmongDistinct | src/domain/config/ConfigManager.ts:51-55 | distinct names stay distinct |
| Config.EnabledModulesAreTheEnabledEntries | src/domain/config/ConfigManager.ts:51-55 | the enabled modules are exactly the enabled config entries, each named once |
| Config.EnabledNames | src/application/useCase/SetupModuleHandlers.ts:18-21 | the names of the enabled modules, in config order |
| Config.ConfigManager.constructor | src/domain/config/ConfigManager.ts:10-12 | holds the loaded configuration |
| Config.ConfigManager.GetModuleConfig | src/domain/config/ConfigManager.ts:40-45 | a module's config when it exists, else "Module config for … not found." |
| Config.ConfigManager.GetConfig | src/domain/config/ConfigManager.ts:47-49 | the configuration holds exactly the modules `getModuleConfig` finds |
| Config.ConfigManager.GetEnabledModules | src/domain/config/ConfigManager.ts:51-55 | exactly the modules whose config exists and is enabled |
| Config.NewConfigManager | src/domain/config/ConfigManager.ts:10-38 | construction fails with `loadConfig`'s error or holds its configuration |
| Migrators.AllResolveMeans | src/infrastructure/cli/Migrator.ts:28-31 | the run's success condition holds exactly when every registered module's `migrate()` resolves |
| Migrators.RunFrom | src/infrastructure/cli/Migrator.ts:27-32 | earlier calls are kept and each module is called at most once; the run completes exactly when every `migrate()` resolves, and then every module was called |
| Migrators.Names | src/infrastructure/cli/Migrator.ts:27-32 | the names of the modules, in order |
| Migrators.FirstFailure | src/infrastructure/cli/Migrator.ts:27-32 | every migration before the index resolves, and the one at it does not |
| Migrators.RunFromStep | src/infrastructure/cli/Migrator.ts:28-31 | a resolving migration is recorded and the loop moves on |
| Migrators.RunCompletes | src/infrastructure/cli/Migrator.ts:27-32 | when every migration resolves, all of them run in order and the run succeeds |
| Migrators.RunStops | src/infrastructure/cli/Migrator.ts:27-32 | the first failing migration ends the run with its error, and no later one is called |
| Migrators.Strip | src/infrastructure/cli/Migrator.ts:23 | the replace removes every `-`, `:`, `.`, `T` and `Z` |
| Migrators.StripDigitsThenSeparator | src/infrastructure/cli/Migrator.ts:23 | digits are kept and a separator is dropped |
| Migrators.IsoTimestampStripsToDigits | src/infrastructure/cli/Migrator.ts:22-25 | an ISO timestamp becomes its 17 digits, year to milliseconds |
| Migrators.GenerateMigrationName | src/infrastructure/cli/Migrator.ts:22-25 | the name ends with `_` and the module name, the stamp before it has no separator left, and a well-formed timestamp gives exactly seventeen digits |
| Migrators.Migrator.constructor | src/infrastructure/cli/Migrator.ts:6-8 | a new migrator has no modules |
| Migrators.Migrator.RegisterModule | src/infrastructure/cli/Migrator.ts:18-20 | appends the module |
| Migrators.Migrator.MigrateModules | src/infrastructure/cli/Migrator.ts:27-32 | the loop computes `RunFrom` over the registered modules |
| Migrators.MigratorInstance.constructor | src/infrastructure/cli/Migrator.ts:4 | no instance yet |
| Migrators.MigratorInstance.GetInstance | src/infrastructure/cli/Migrator.ts:11-16 | returns the existing instance, or creates an empty one once |
| Migrators.RegistrationsShareTheInstance | src/infrastructure/cli/Migrator.ts:11-20 | two registrations through two `getInstance` calls land in the same module list |

## Left out

- Console output is not modelled: log lines, emoji and timing text. It appears only where a property is about it, as error-log lines, returned warning flags and "Unhandled" outcomes. `logSetupSummary`, `logDryRunSummary` and `logRegistrationSummary` only print, so they are not modelled.
- Clocks (`performance.now()`, `Date.now()`, `new Date().toISOString()`) are parameters: an `elapsed` oracle per module, or a plain number or string.
- Asynchrony is reduced to how one call completes (resolves, throws synchronously, rejects). Interleaving between events and promises is not modelled.
- The Discord client, the Discord repositories (`DiscordListenerRepository`, `DiscordCommandRepository`), the platform adapter and the Prisma client are outside the model. Command building (`toJSON`) and the REST submission are input functions.
- The shared identity of the per-event arrays is not modelled. Because the registries are values, `getAllEventListeners()` returning a Map that shares its arrays with the registry shows up only as a copy.
- Object identity of handler classes is a `ClassId`. Instantiating a class is not modelled; invoking it is the oracle.
- `DomainListenerSetup.ListenerSetupService.SetupEventListeners`: one instance is created per (event, class) registration at setup (`new handlerClass()` inside the loop over an event's list, src/domain/service/ListenerSetupService.ts:261-263), and every emission of that event reuses it. A class registered under two events gets two instances. The model treats a callback as a class to invoke, so it does not capture the instance's state across emissions. A constructor that throws would abort the walk and everything after it; the model's walk always completes.
- `SetupModuleHandlersUseCase.SetupModuleHandlers.Execute`: `setupDiscoveredListeners` runs outside any `try` (src/application/useCase/SetupModuleHandlers.ts:46). A throwing handler constructor would make `execute()` reject without returning its results; the model always returns them.
- `Object.entries` order of the configuration is taken as the stored key order. Inherited keys that `this.config[moduleName]` would find on the prototype are not modelled.
- The zod schema and `JSON.parse` are input functions of `Config.LoadConfig`. `ConfigSchema.ts` is not part of this model.
- `Config.ConfigManager`: the use cases read the exported `config` of `src/domain/config/Config.ts`, which has its own private manager. That manager reads `dbmconfig.json`, merges the `MODULES` environment variable, and falls back to defaults when the file is missing. The model assumes it answers `getConfig()` and `getEnabledModules()` like the manager of `src/domain/config/ConfigManager.ts`, and does not model `Config.ts` itself.
- `Config.LoadConfig`: the source checks for `.dbmrc.json` but reports a missing "dbmconfig.json". The model keeps the message as written, and a missing file is an input.
- `Migrators.Migrator.MigrateModules`: the migration name is computed for each module and never used. The model takes the ISO time as a parameter and proves the name's shape separately (`Migrators.IsoTimestampStripsToDigits`).
- `StartMigrationUseCase.Migrate`: the `{prisma, dryRun}` context passed to `migrate` is not modelled, since the persistence handle is opaque.
- `SetupModuleHandlersUseCase.HandlerResult`: `setupHandlers` is called without the client argument, as in the source.
- Errors that are not `Error` objects (`String(error)`) are modelled as their message string.
- Catch blocks that cannot fire with the in-memory repository are not modelled, for example the one in `calculateInteractionListenerCount`.
- The registries that module discovery fills as an import side effect are inputs to the use cases. The interleaving of imports and registrations is not modelled.
- `register(context)`, `RegisterModule.ts`, the CLI scripts (`migrate.ts`, `register-commands.ts`) and `index.ts` are not part of this model.
- The `InteractionHandler` and `InteractionListener` decorators and `SlashCommand` only register into `DiscordRegistry`. They are covered by `DiscordRegistry.Tables.RegisterInteractionHandler` and `DiscordRegistry.Tables.RegisterSlashCommand`.

## Findings

The use cases keep each defect as the code has it: `StartMigrationUseCase` loads through `LegacyModuleLoader.LoadModuleAsWritten`, and `SetupModuleHandlersUseCase.SetupModuleHandlers.Execute` records the un-awaited step. The corrected definitions stand beside them. Lemmas relate each pair: `LegacyModuleLoader.LoadersAgreeExceptOnNull`, and `SetupModuleHandlersUseCase.ListsAgreeIffNoRejection` with `SetupModuleHandlersUseCase.AsWrittenSucceedsAtLeastAsOften`.

| source | as written | input that shows it | evidently intended | confidence | as-written member | corrected member |
|---|---|---|---|---|---|---|
| src/domain/module/ModuleLoader.ts:21-27 | `isValidModule` tests `typeof module === "object"` and then reads `module.name`, with no null check | a module whose default export is `null` | the import is rejected with "does not implement ModuleInterface", as the newer loader does | not executed | LegacyModuleLoader.NullDefaultExport | LegacyModuleLoader.LoadModule |
| src/application/useCase/SetupModuleHandlers.ts:29 | `module.setupHandlers?.()` is called inside `try` without `await`, so a rejection escapes the `try` and is also left unhandled (fatal by default from Node 15 on; that process-level effect is outside the model) | a module whose `setupHandlers` returns a rejected promise | the rejection is caught and the module is recorded as FAILED, as the other use cases do with `await` | not executed | SetupModuleHandlersUseCase.RejectedSetupRecordedAsSuccess | SetupModuleHandlersUseCase.HandlerResult |
