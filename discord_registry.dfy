/**
  DiscordRegistry.ts: the slash-command table (a `Map` that overwrites with a
  warning, like the keyed registries) and the interaction-handler list (an
  array that skips, with a warning, a class it already holds).
 */
module DiscordRegistry {
  import opened Wrappers
  import opened OrderedMaps
  import opened CapabilityRegistry

  /** The three numbers of `getDiscordRegistrationSummary()`. */
  datatype RegistrationSummary = RegistrationSummary(slashCommands: nat, interactionHandlers: nat, total: nat)

  /** No class appears twice in the list. */
  ghost predicate Distinct(s: seq<ClassId>) {
    forall i, j :: 0 <= i < j < |s| ==> s[i] != s[j]
  }

  /** The module-level `slashCommands` map and `interactionHandlers` array. */
  class Tables {
    var slashCommands: OrderedMap<string, ClassId>
    var interactionHandlers: seq<ClassId>

    ghost predicate Valid()
      reads this
    {
      slashCommands.Valid() && Distinct(interactionHandlers)
    }

    constructor ()
      ensures Valid() && slashCommands == Empty() && interactionHandlers == []
    {
      slashCommands := Empty();
      interactionHandlers := [];
    }

    /**
      `registerSlashCommand(name, cls)`: `name` is bound to `cls` afterwards;
      `overwritten` (the warning) is raised exactly when it was bound before.
      The handler list is untouched.
     */
    method RegisterSlashCommand(name: string, cls: ClassId) returns (overwritten: bool)
      requires Valid()
      modifies this
      ensures Valid()
      ensures overwritten == old(slashCommands).Has(name)
      ensures slashCommands == old(slashCommands).Set(name, cls)
      ensures slashCommands.Get(name) == Some(cls)
      ensures interactionHandlers == old(interactionHandlers)
    {
      overwritten := slashCommands.Has(name);
      slashCommands := slashCommands.Set(name, cls);
    }

    /** `getAllSlashCommands()`: a copy of the table, detached from it. */
    method GetAllSlashCommands() returns (copy: OrderedMap<string, ClassId>)
      ensures copy.keys == slashCommands.keys
      ensures forall k :: copy.Get(k) == slashCommands.Get(k)
    {
      copy := OrderedMap(slashCommands.keys, slashCommands.values);
    }

    /** `getSlashCommand(name)`: the registered class, or `undefined`. */
    method GetSlashCommand(name: string) returns (cls: Option<ClassId>)
      ensures cls.Some? <==> slashCommands.Has(name)
      ensures cls.Some? ==> cls.value == slashCommands.values[name]
    {
      cls := slashCommands.Get(name);
    }

    /** `clearSlashCommands()` */
    method ClearSlashCommands()
      modifies this
      ensures slashCommands == Empty() && interactionHandlers == old(interactionHandlers)
    {
      slashCommands := Empty();
    }

    /**
      `registerInteractionHandler(cls)`: a class already in the list is skipped
      (`skipped` is the warning); any other class is appended at the end.
     */
    method RegisterInteractionHandler(cls: ClassId) returns (skipped: bool)
      requires Valid()
      modifies this
      ensures Valid()
      ensures skipped == (cls in old(interactionHandlers))
      ensures interactionHandlers == if skipped then old(interactionHandlers) else old(interactionHandlers) + [cls]
      ensures slashCommands == old(slashCommands)
    {
      skipped := cls in interactionHandlers;
      if skipped {
        return;
      }
      interactionHandlers := interactionHandlers + [cls];
    }

    /** `getAllInteractionHandlers()`: `[...interactionHandlers]`, a copy in registration order. */
    method GetAllInteractionHandlers() returns (copy: seq<ClassId>)
      ensures copy == interactionHandlers
    {
      copy := interactionHandlers;
    }

    /** `clearInteractionHandlers()`: `interactionHandlers.length = 0`. */
    method ClearInteractionHandlers()
      modifies this
      ensures interactionHandlers == [] && slashCommands == old(slashCommands)
    {
      interactionHandlers := [];
    }

    /** `clearDiscordRegistry()`: both the table and the list are emptied. */
    method ClearDiscordRegistry()
      modifies this
      ensures Valid()
      ensures slashCommands == Empty() && interactionHandlers == []
    {
      ClearSlashCommands();
      ClearInteractionHandlers();
    }

    /**
      `getDiscordRegistrationSummary()`: the number of distinct command names,
      the number of distinct handler classes, and their sum.
     */
    function GetDiscordRegistrationSummary(): (s: RegistrationSummary)
      requires Valid()
      reads this
      ensures s.slashCommands == |slashCommands.values.Keys|
      ensures s.interactionHandlers == |set c | c in interactionHandlers|
      ensures s.total == s.slashCommands + s.interactionHandlers
    {
      SizeIsBoundKeys(slashCommands);
      DistinctCardinality<ClassId>(interactionHandlers);
      assert (set c | c in interactionHandlers) == (set k: ClassId | k in interactionHandlers);
      RegistrationSummary(slashCommands.Size(), |interactionHandlers|, slashCommands.Size() + |interactionHandlers|)
    }
  }
}
