/**
  The decorators of the keyed registries, one module per decorator file. Each
  stores its metadata on the class, registers the class in that file's table
  and returns the class itself.
 */

module UserContextMenuDecorator {
  import opened Wrappers
  import opened CapabilityRegistry

  /** The static properties `@UserContextMenu(name)` stores on the class. */
  function Metadata(name: string): map<string, StaticValue> {
    map["contextMenuName" := Text(name), "contextMenuType" := Text("USER")]
  }

  /**
    `@UserContextMenu(name)`: records `name` on the class, tags it `USER`, registers it as the
    user context menu for `name` (replacing any earlier one) and returns the class unchanged.
   */
  method UserContextMenu(name: string, target: HandlerClass, registry: Registry) returns (r: HandlerClass)
    requires registry.Valid() && registry.kind == UserContextMenus
    modifies target, registry
    ensures r == target
    ensures target.statics == old(target.statics) + Metadata(name)
    ensures target.statics["contextMenuName"] == Text(name)
    ensures target.statics["contextMenuType"] == Text("USER")
    ensures registry.Valid()
    ensures registry.table == old(registry.table).Set(name, target.id)
    ensures registry.table.Get(name) == Some(target.id)
  {
    r := Decorate(registry, name, target, Metadata(name));
  }
}

module MessageContextMenuDecorator {
  import opened Wrappers
  import opened CapabilityRegistry

  /** The static properties `@MessageContextMenu(name)` stores on the class. */
  function Metadata(name: string): map<string, StaticValue> {
    map["contextMenuName" := Text(name), "contextMenuType" := Text("MESSAGE")]
  }

  /**
    `@MessageContextMenu(name)`: records `name` on the class, tags it `MESSAGE`, registers it as the
    message context menu for `name` (replacing any earlier one) and returns the class unchanged.
   */
  method MessageContextMenu(name: string, target: HandlerClass, registry: Registry) returns (r: HandlerClass)
    requires registry.Valid() && registry.kind == MessageContextMenus
    modifies target, registry
    ensures r == target
    ensures target.statics == old(target.statics) + Metadata(name)
    ensures target.statics["contextMenuName"] == Text(name)
    ensures target.statics["contextMenuType"] == Text("MESSAGE")
    ensures registry.Valid()
    ensures registry.table == old(registry.table).Set(name, target.id)
    ensures registry.table.Get(name) == Some(target.id)
  {
    r := Decorate(registry, name, target, Metadata(name));
  }
}

module StringSelectListenerDecorator {
  import opened Wrappers
  import opened CapabilityRegistry

  /** The static properties `@StringSelectListener(customId)` stores on the class. */
  function Metadata(customId: string): map<string, StaticValue> {
    map["selectMenuCustomId" := Text(customId), "selectMenuType" := Text("STRING")]
  }

  /**
    `@StringSelectListener(customId)`: records `customId` on the class, tags it `STRING`, registers it as the
    string select listener for `customId` (replacing any earlier one) and returns the class unchanged.
   */
  method StringSelectListener(customId: string, target: HandlerClass, registry: Registry) returns (r: HandlerClass)
    requires registry.Valid() && registry.kind == StringSelectListeners
    modifies target, registry
    ensures r == target
    ensures target.statics == old(target.statics) + Metadata(customId)
    ensures target.statics["selectMenuCustomId"] == Text(customId)
    ensures target.statics["selectMenuType"] == Text("STRING")
    ensures registry.Valid()
    ensures registry.table == old(registry.table).Set(customId, target.id)
    ensures registry.table.Get(customId) == Some(target.id)
  {
    r := Decorate(registry, customId, target, Metadata(customId));
  }
}

module StringSelectHandlerDecorator {
  import opened Wrappers
  import opened CapabilityRegistry

  /** The static properties `@StringSelectHandler(customId)` stores on the class. */
  function Metadata(customId: string): map<string, StaticValue> {
    map["selectMenuCustomId" := Text(customId), "selectMenuType" := Text("STRING")]
  }

  /**
    `@StringSelectHandler(customId)`: records `customId` on the class, tags it `STRING`, registers it as the
    string select handler for `customId` (replacing any earlier one) and returns the class unchanged.
   */
  method StringSelectHandler(customId: string, target: HandlerClass, registry: Registry) returns (r: HandlerClass)
    requires registry.Valid() && registry.kind == StringSelectHandlers
    modifies target, registry
    ensures r == target
    ensures target.statics == old(target.statics) + Metadata(customId)
    ensures target.statics["selectMenuCustomId"] == Text(customId)
    ensures target.statics["selectMenuType"] == Text("STRING")
    ensures registry.Valid()
    ensures registry.table == old(registry.table).Set(customId, target.id)
    ensures registry.table.Get(customId) == Some(target.id)
  {
    r := Decorate(registry, customId, target, Metadata(customId));
  }
}

module UserSelectListenerDecorator {
  import opened Wrappers
  import opened CapabilityRegistry

  /** The static properties `@UserSelectListener(customId)` stores on the class. */
  function Metadata(customId: string): map<string, StaticValue> {
    map["selectMenuCustomId" := Text(customId), "selectMenuType" := Text("USER")]
  }

  /**
    `@UserSelectListener(customId)`: records `customId` on the class, tags it `USER`, registers it as the
    user select listener for `customId` (replacing any earlier one) and returns the class unchanged.
   */
  method UserSelectListener(customId: string, target: HandlerClass, registry: Registry) returns (r: HandlerClass)
    requires registry.Valid() && registry.kind == UserSelectListeners
    modifies target, registry
    ensures r == target
    ensures target.statics == old(target.statics) + Metadata(customId)
    ensures target.statics["selectMenuCustomId"] == Text(customId)
    ensures target.statics["selectMenuType"] == Text("USER")
    ensures registry.Valid()
    ensures registry.table == old(registry.table).Set(customId, target.id)
    ensures registry.table.Get(customId) == Some(target.id)
  {
    r := Decorate(registry, customId, target, Metadata(customId));
  }
}

module UserSelectHandlerDecorator {
  import opened Wrappers
  import opened CapabilityRegistry

  /** The static properties `@UserSelectHandler(customId)` stores on the class. */
  function Metadata(customId: string): map<string, StaticValue> {
    map["selectMenuCustomId" := Text(customId), "selectMenuType" := Text("USER")]
  }

  /**
    `@UserSelectHandler(customId)`: records `customId` on the class, tags it `USER`, registers it as the
    user select handler for `customId` (replacing any earlier one) and returns the class unchanged.
   */
  method UserSelectHandler(customId: string, target: HandlerClass, registry: Registry) returns (r: HandlerClass)
    requires registry.Valid() && registry.kind == UserSelectHandlers
    modifies target, registry
    ensures r == target
    ensures target.statics == old(target.statics) + Metadata(customId)
    ensures target.statics["selectMenuCustomId"] == Text(customId)
    ensures target.statics["selectMenuType"] == Text("USER")
    ensures registry.Valid()
    ensures registry.table == old(registry.table).Set(customId, target.id)
    ensures registry.table.Get(customId) == Some(target.id)
  {
    r := Decorate(registry, customId, target, Metadata(customId));
  }
}

module RoleSelectListenerDecorator {
  import opened Wrappers
  import opened CapabilityRegistry

  /** The static properties `@RoleSelectListener(customId)` stores on the class. */
  function Metadata(customId: string): map<string, StaticValue> {
    map["selectMenuCustomId" := Text(customId), "selectMenuType" := Text("ROLE")]
  }

  /**
    `@RoleSelectListener(customId)`: records `customId` on the class, tags it `ROLE`, registers it as the
    role select listener for `customId` (replacing any earlier one) and returns the class unchanged.
   */
  method RoleSelectListener(customId: string, target: HandlerClass, registry: Registry) returns (r: HandlerClass)
    requires registry.Valid() && registry.kind == RoleSelectListeners
    modifies target, registry
    ensures r == target
    ensures target.statics == old(target.statics) + Metadata(customId)
    ensures target.statics["selectMenuCustomId"] == Text(customId)
    ensures target.statics["selectMenuType"] == Text("ROLE")
    ensures registry.Valid()
    ensures registry.table == old(registry.table).Set(customId, target.id)
    ensures registry.table.Get(customId) == Some(target.id)
  {
    r := Decorate(registry, customId, target, Metadata(customId));
  }
}

module RoleSelectHandlerDecorator {
  import opened Wrappers
  import opened CapabilityRegistry

  /** The static properties `@RoleSelectHandler(customId)` stores on the class. */
  function Metadata(customId: string): map<string, StaticValue> {
    map["selectMenuCustomId" := Text(customId), "selectMenuType" := Text("ROLE")]
  }

  /**
    `@RoleSelectHandler(customId)`: records `customId` on the class, tags it `ROLE`, registers it as the
    role select handler for `customId` (replacing any earlier one) and returns the class unchanged.
   */
  method RoleSelectHandler(customId: string, target: HandlerClass, registry: Registry) returns (r: HandlerClass)
    requires registry.Valid() && registry.kind == RoleSelectHandlers
    modifies target, registry
    ensures r == target
    ensures target.statics == old(target.statics) + Metadata(customId)
    ensures target.statics["selectMenuCustomId"] == Text(customId)
    ensures target.statics["selectMenuType"] == Text("ROLE")
    ensures registry.Valid()
    ensures registry.table == old(registry.table).Set(customId, target.id)
    ensures registry.table.Get(customId) == Some(target.id)
  {
    r := Decorate(registry, customId, target, Metadata(customId));
  }
}

module ChannelSelectListenerDecorator {
  import opened Wrappers
  import opened CapabilityRegistry

  /** The static properties `@ChannelSelectListener(customId)` stores on the class. */
  function Metadata(customId: string): map<string, StaticValue> {
    map["selectMenuCustomId" := Text(customId), "selectMenuType" := Text("CHANNEL")]
  }

  /**
    `@ChannelSelectListener(customId)`: records `customId` on the class, tags it `CHANNEL`, registers it as the
    channel select listener for `customId` (replacing any earlier one) and returns the class unchanged.
   */
  method ChannelSelectListener(customId: string, target: HandlerClass, registry: Registry) returns (r: HandlerClass)
    requires registry.Valid() && registry.kind == ChannelSelectListeners
    modifies target, registry
    ensures r == target
    ensures target.statics == old(target.statics) + Metadata(customId)
    ensures target.statics["selectMenuCustomId"] == Text(customId)
    ensures target.statics["selectMenuType"] == Text("CHANNEL")
    ensures registry.Valid()
    ensures registry.table == old(registry.table).Set(customId, target.id)
    ensures registry.table.Get(customId) == Some(target.id)
  {
    r := Decorate(registry, customId, target, Metadata(customId));
  }
}

module ChannelSelectHandlerDecorator {
  import opened Wrappers
  import opened CapabilityRegistry

  /** The static properties `@ChannelSelectHandler(customId)` stores on the class. */
  function Metadata(customId: string): map<string, StaticValue> {
    map["selectMenuCustomId" := Text(customId), "selectMenuType" := Text("CHANNEL")]
  }

  /**
    `@ChannelSelectHandler(customId)`: records `customId` on the class, tags it `CHANNEL`, registers it as the
    channel select handler for `customId` (replacing any earlier one) and returns the class unchanged.
   */
  method ChannelSelectHandler(customId: string, target: HandlerClass, registry: Registry) returns (r: HandlerClass)
    requires registry.Valid() && registry.kind == ChannelSelectHandlers
    modifies target, registry
    ensures r == target
    ensures target.statics == old(target.statics) + Metadata(customId)
    ensures target.statics["selectMenuCustomId"] == Text(customId)
    ensures target.statics["selectMenuType"] == Text("CHANNEL")
    ensures registry.Valid()
    ensures registry.table == old(registry.table).Set(customId, target.id)
    ensures registry.table.Get(customId) == Some(target.id)
  {
    r := Decorate(registry, customId, target, Metadata(customId));
  }
}

module MentionableSelectListenerDecorator {
  import opened Wrappers
  import opened CapabilityRegistry

  /** The static properties `@MentionableSelectListener(customId)` stores on the class. */
  function Metadata(customId: string): map<string, StaticValue> {
    map["selectMenuCustomId" := Text(customId), "selectMenuType" := Text("MENTIONABLE")]
  }

  /**
    `@MentionableSelectListener(customId)`: records `customId` on the class, tags it `MENTIONABLE`, registers it as the
    mentionable select listener for `customId` (replacing any earlier one) and returns the class unchanged.
   */
  method MentionableSelectListener(customId: string, target: HandlerClass, registry: Registry) returns (r: HandlerClass)
    requires registry.Valid() && registry.kind == MentionableSelectListeners
    modifies target, registry
    ensures r == target
    ensures target.statics == old(target.statics) + Metadata(customId)
    ensures target.statics["selectMenuCustomId"] == Text(customId)
    ensures target.statics["selectMenuType"] == Text("MENTIONABLE")
    ensures registry.Valid()
    ensures registry.table == old(registry.table).Set(customId, target.id)
    ensures registry.table.Get(customId) == Some(target.id)
  {
    r := Decorate(registry, customId, target, Metadata(customId));
  }
}

module MentionableSelectHandlerDecorator {
  import opened Wrappers
  import opened CapabilityRegistry

  /** The static properties `@MentionableSelectHandler(customId)` stores on the class. */
  function Metadata(customId: string): map<string, StaticValue> {
    map["selectMenuCustomId" := Text(customId), "selectMenuType" := Text("MENTIONABLE")]
  }

  /**
    `@MentionableSelectHandler(customId)`: records `customId` on the class, tags it `MENTIONABLE`, registers it as the
    mentionable select handler for `customId` (replacing any earlier one) and returns the class unchanged.
   */
  method MentionableSelectHandler(customId: string, target: HandlerClass, registry: Registry) returns (r: HandlerClass)
    requires registry.Valid() && registry.kind == MentionableSelectHandlers
    modifies target, registry
    ensures r == target
    ensures target.statics == old(target.statics) + Metadata(customId)
    ensures target.statics["selectMenuCustomId"] == Text(customId)
    ensures target.statics["selectMenuType"] == Text("MENTIONABLE")
    ensures registry.Valid()
    ensures registry.table == old(registry.table).Set(customId, target.id)
    ensures registry.table.Get(customId) == Some(target.id)
  {
    r := Decorate(registry, customId, target, Metadata(customId));
  }
}

module AutocompleteListenerDecorator {
  import opened Wrappers
  import opened CapabilityRegistry

  /** The static properties `@AutocompleteListener(commandName)` stores on the class. */
  function Metadata(commandName: string): map<string, StaticValue> {
    map["autocompleteCommandName" := Text(commandName)]
  }

  /**
    `@AutocompleteListener(commandName)`: records `commandName` on the class, registers it as the
    autocomplete listener for `commandName` (replacing any earlier one) and returns the class unchanged.
   */
  method AutocompleteListener(commandName: string, target: HandlerClass, registry: Registry) returns (r: HandlerClass)
    requires registry.Valid() && registry.kind == AutocompleteListeners
    modifies target, registry
    ensures r == target
    ensures target.statics == old(target.statics) + Metadata(commandName)
    ensures target.statics["autocompleteCommandName"] == Text(commandName)
    ensures registry.Valid()
    ensures registry.table == old(registry.table).Set(commandName, target.id)
    ensures registry.table.Get(commandName) == Some(target.id)
  {
    r := Decorate(registry, commandName, target, Metadata(commandName));
  }
}

module AutocompleteHandlerDecorator {
  import opened Wrappers
  import opened CapabilityRegistry

  /** The static properties `@AutocompleteHandler(commandName)` stores on the class. */
  function Metadata(commandName: string): map<string, StaticValue> {
    map["autocompleteCommandName" := Text(commandName)]
  }

  /**
    `@AutocompleteHandler(commandName)`: records `commandName` on the class, registers it as the
    autocomplete handler for `commandName` (replacing any earlier one) and returns the class unchanged.
   */
  method AutocompleteHandler(commandName: string, target: HandlerClass, registry: Registry) returns (r: HandlerClass)
    requires registry.Valid() && registry.kind == AutocompleteHandlers
    modifies target, registry
    ensures r == target
    ensures target.statics == old(target.statics) + Metadata(commandName)
    ensures target.statics["autocompleteCommandName"] == Text(commandName)
    ensures registry.Valid()
    ensures registry.table == old(registry.table).Set(commandName, target.id)
    ensures registry.table.Get(commandName) == Some(target.id)
  {
    r := Decorate(registry, commandName, target, Metadata(commandName));
  }
}
