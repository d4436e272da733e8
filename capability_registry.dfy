/**
  The keyed capability registries: one module-level `Map<string, constructor>`
  per decorator file, filled as a side effect of importing a module's code.
  `register` binds a key to a class and warns (never throws) when the key was
  already bound; `getAll` copies the table; `get` looks one key up; `clear`
  empties it.
 */
module CapabilityRegistry {
  import opened Wrappers
  import opened OrderedMaps

  /** The identity of a handler class (a zero-argument constructor). */
  type ClassId = nat

  /** The decorator file whose module-level table a registry instance stands for. */
  datatype RegistryKind =
    | UserContextMenus | MessageContextMenus
    | StringSelectListeners | StringSelectHandlers
    | UserSelectListeners | UserSelectHandlers
    | RoleSelectListeners | RoleSelectHandlers
    | ChannelSelectListeners | ChannelSelectHandlers
    | MentionableSelectListeners | MentionableSelectHandlers
    | AutocompleteListeners | AutocompleteHandlers

  /** A value that a decorator stores as a static property on the class. */
  datatype StaticValue = Text(text: string) | Flag(flag: bool)

  /**
    A class object: its constructor identity, and the static properties that
    decorators add to it in place.
   */
  class HandlerClass {
    const id: ClassId
    var statics: map<string, StaticValue>

    constructor (id: ClassId)
      ensures this.id == id && statics == map[]
    {
      this.id := id;
      statics := map[];
    }
  }

  /** One keyed registry, e.g. the `stringSelectListeners` map of StringSelectListener.ts. */
  class Registry {
    const kind: RegistryKind
    var table: OrderedMap<string, ClassId>

    ghost predicate Valid()
      reads this
    {
      table.Valid()
    }

    /** The module-level `new Map()`. */
    constructor (kind: RegistryKind)
      ensures Valid() && this.kind == kind && table == Empty()
    {
      this.kind := kind;
      table := Empty();
    }

    /**
      `registerXxx(key, cls)`: the key is bound to `cls` afterwards whatever it
      was bound to before (last write wins); `overwritten` is the warning,
      raised exactly when the key was already bound. Nothing is thrown.
     */
    method Register(key: string, cls: ClassId) returns (overwritten: bool)
      requires Valid()
      modifies this
      ensures Valid()
      ensures overwritten == old(table).Has(key)
      ensures table == old(table).Set(key, cls)
      ensures table.Get(key) == Some(cls)
      ensures forall k :: k != key ==> table.Get(k) == old(table).Get(k)
      ensures table.Size() == old(table).Size() + (if overwritten then 0 else 1)
    {
      overwritten := table.Has(key);
      table := table.Set(key, cls);
    }

    /**
      `getAllXxx()`: `new Map(table)`. The copy is a value, so whatever the
      caller does with it leaves the registry unchanged.
     */
    method GetAll() returns (copy: OrderedMap<string, ClassId>)
      requires Valid()
      ensures copy.Valid()
      ensures copy.keys == table.keys
      ensures forall k :: copy.Get(k) == table.Get(k)
    {
      copy := OrderedMap(table.keys, table.values);
    }

    /** `getXxx(key)`: the bound class, or `undefined` for a key never registered. */
    method Get(key: string) returns (cls: Option<ClassId>)
      ensures cls.Some? <==> table.Has(key)
      ensures cls.Some? ==> cls.value == table.values[key]
    {
      cls := table.Get(key);
    }

    /** `clearXxx()`: no key stays bound. */
    method Clear()
      modifies this
      ensures Valid() && table == Empty()
      ensures forall k :: table.Get(k) == None
    {
      table := Empty();
    }
  }

  /**
    What every decorator of this family does: store `metadata` as static
    properties of `target`, register it under `key`, and hand back the very
    same class object.
   */
  method Decorate(registry: Registry, key: string, target: HandlerClass, metadata: map<string, StaticValue>)
    returns (r: HandlerClass)
    requires registry.Valid()
    modifies target, registry
    ensures r == target
    ensures target.statics == old(target.statics) + metadata
    ensures registry.Valid() && registry.table == old(registry.table).Set(key, target.id)
  {
    target.statics := target.statics + metadata;
    var _ := registry.Register(key, target.id);
    r := target;
  }

  /** Registering twice under one key keeps only the second class and does not grow the table. */
  lemma LastWriteWins(m: OrderedMap<string, ClassId>, key: string, first: ClassId, second: ClassId)
    requires m.Valid()
    ensures m.Set(key, first).Set(key, second).Get(key) == Some(second)
    ensures m.Set(key, first).Set(key, second).Size() == m.Set(key, first).Size()
  {
  }
}
