/**
  The event registries of EventListener.ts and EventHandler.ts: a module-level
  `Map<event, {handlerClass, once}[]>`. Unlike the keyed registries, an event
  keeps a list of classes in registration order, and registering a class that
  is already in that event's list is skipped with a warning.
 */
module EventRegistries {
  import opened Wrappers
  import opened OrderedMaps
  import opened CapabilityRegistry

  /** One `{handlerClass, once}` record of an event's list. */
  datatype EventEntry = EventEntry(handlerClass: ClassId, once: bool)

  type EventTable = OrderedMap<string, seq<EventEntry>>

  /** Which file's module-level table an instance stands for. */
  datatype EventRegistryKind = EventListeners | EventHandlers

  /** `table.get(eventName) || []` */
  function EntriesOf(t: EventTable, eventName: string): (r: seq<EventEntry>)
    ensures !t.Has(eventName) ==> r == []
  {
    match t.Get(eventName)
    case Some(list) => list
    case None => []
  }

  /** `list.find(l => l.handlerClass === cls)` finds something. */
  predicate HasClass(list: seq<EventEntry>, cls: ClassId) {
    exists i | 0 <= i < |list| :: list[i].handlerClass == cls
  }

  /**
    The table after registering `cls` for `eventName` with flag `once`: the
    class is then listed for the event; a class already listed leaves the
    table as it was, a new one is appended to the event's list; no other
    event's list changes.
   */
  function Registered(t: EventTable, eventName: string, cls: ClassId, once: bool): (r: EventTable)
    ensures HasClass(EntriesOf(r, eventName), cls)
    ensures HasClass(EntriesOf(t, eventName), cls) ==> r == t
    ensures !HasClass(EntriesOf(t, eventName), cls) ==> EntriesOf(r, eventName) == EntriesOf(t, eventName) + [EventEntry(cls, once)]
    ensures forall e :: e != eventName ==> EntriesOf(r, e) == EntriesOf(t, e)
  {
    var list := EntriesOf(t, eventName);
    if HasClass(list, cls) then t
    else
      assert (list + [EventEntry(cls, once)])[|list|].handlerClass == cls;
      t.Set(eventName, list + [EventEntry(cls, once)])
  }

  /** No event's list names the same class twice. */
  ghost predicate NoDuplicateClasses(t: EventTable) {
    forall e, i, j :: 0 <= i < j < |EntriesOf(t, e)| ==> EntriesOf(t, e)[i].handlerClass != EntriesOf(t, e)[j].handlerClass
  }

  class EventRegistry {
    const kind: EventRegistryKind
    var table: EventTable

    ghost predicate Valid()
      reads this
    {
      table.Valid() && NoDuplicateClasses(table)
    }

    constructor (kind: EventRegistryKind)
      ensures Valid() && this.kind == kind && table == Empty()
    {
      this.kind := kind;
      table := Empty();
    }

    /**
      `registerEventListener` / `registerEventHandler`: creates the event's list
      on first use, then appends `{cls, once}` unless the class is already in
      that list, in which case `skipped` (the warning) is raised and nothing
      changes. The "failed to get" guard of the source cannot fire: the key has
      just been ensured, which the assertion below proves.
     */
    method Register(eventName: string, cls: ClassId, once: bool) returns (skipped: bool)
      requires Valid()
      modifies this
      ensures Valid()
      ensures skipped == HasClass(EntriesOf(old(table), eventName), cls)
      ensures table == Registered(old(table), eventName, cls, once)
    {
      if !table.Has(eventName) {
        table := table.Set(eventName, []);
      }
      var found := table.Get(eventName);
      assert found.Some?;
      var listeners := found.value;
      skipped := HasClass(listeners, cls);
      if skipped {
        assert old(table).Has(eventName);
        assert table == old(table);
        return;
      }
      RegisteredKeepsNoDuplicates(old(table), eventName, cls, once);
      table := table.Set(eventName, listeners + [EventEntry(cls, once)]);
      assert table == Registered(old(table), eventName, cls, once);
    }

    /**
      `getAllEventListeners()`: `new Map(table)`, a fresh map over the same
      events and lists.
     */
    method GetAll() returns (copy: EventTable)
      ensures copy.keys == table.keys
      ensures forall e :: copy.Get(e) == table.Get(e)
    {
      copy := OrderedMap(table.keys, table.values);
    }

    /** `getEventListeners(eventName)`: that event's list, empty for an unknown event. */
    method Get(eventName: string) returns (list: seq<EventEntry>)
      ensures list == EntriesOf(table, eventName)
      ensures !table.Has(eventName) ==> list == []
    {
      list := EntriesOf(table, eventName);
    }

    /** `clearEventListeners()`: no event is registered afterwards. */
    method Clear()
      modifies this
      ensures Valid() && table == Empty()
      ensures forall e :: EntriesOf(table, e) == []
    {
      table := Empty();
    }
  }

  /** Registration keeps every list free of repeated classes. */
  lemma RegisteredKeepsNoDuplicates(t: EventTable, eventName: string, cls: ClassId, once: bool)
    requires NoDuplicateClasses(t)
    ensures NoDuplicateClasses(Registered(t, eventName, cls, once))
  {
    var list := EntriesOf(t, eventName);
    if !HasClass(list, cls) {
      var t' := Registered(t, eventName, cls, once);
      forall e, i, j | 0 <= i < j < |EntriesOf(t', e)|
        ensures EntriesOf(t', e)[i].handlerClass != EntriesOf(t', e)[j].handlerClass
      {
        if e == eventName {
          var l' := list + [EventEntry(cls, once)];
          assert EntriesOf(t', e) == l';
          if j == |list| {
            assert l'[i] == list[i];
          } else {
            assert l'[i] == list[i] && l'[j] == list[j];
          }
        } else {
          assert EntriesOf(t', e) == EntriesOf(t, e);
        }
      }
    }
  }

  /**
    A class new to an event is appended at the end of that event's list; the
    list is created when the event had none; every other event is untouched.
   */
  lemma RegisterAppends(t: EventTable, eventName: string, cls: ClassId, once: bool)
    requires t.Valid() && !HasClass(EntriesOf(t, eventName), cls)
    ensures EntriesOf(Registered(t, eventName, cls, once), eventName) == EntriesOf(t, eventName) + [EventEntry(cls, once)]
    ensures !t.Has(eventName) ==> EntriesOf(Registered(t, eventName, cls, once), eventName) == [EventEntry(cls, once)]
    ensures forall e :: e != eventName ==> EntriesOf(Registered(t, eventName, cls, once), e) == EntriesOf(t, e)
    ensures t.keys <= Registered(t, eventName, cls, once).keys
  {
  }

  /**
    Registering a class already listed for the event changes nothing: the list
    keeps its length and the class keeps the `once` flag it was first given.
   */
  lemma DuplicateIsSkipped(t: EventTable, eventName: string, cls: ClassId, once: bool, i: nat)
    requires i < |EntriesOf(t, eventName)| && EntriesOf(t, eventName)[i].handlerClass == cls
    ensures Registered(t, eventName, cls, once) == t
    ensures |EntriesOf(Registered(t, eventName, cls, once), eventName)| == |EntriesOf(t, eventName)|
    ensures EntriesOf(Registered(t, eventName, cls, once), eventName)[i].once == EntriesOf(t, eventName)[i].once
  {
  }

  /** Two distinct classes registered for one event are both kept, in registration order. */
  lemma {:induction false} DistinctClassesCoexist(t: EventTable, eventName: string, first: ClassId, firstOnce: bool, second: ClassId, secondOnce: bool)
    requires t.Valid() && first != second
    requires !HasClass(EntriesOf(t, eventName), first) && !HasClass(EntriesOf(t, eventName), second)
    ensures EntriesOf(Registered(Registered(t, eventName, first, firstOnce), eventName, second, secondOnce), eventName)
         == EntriesOf(t, eventName) + [EventEntry(first, firstOnce), EventEntry(second, secondOnce)]
  {
    var list := EntriesOf(t, eventName);
    var t1 := Registered(t, eventName, first, firstOnce);
    RegisterAppends(t, eventName, first, firstOnce);
    var list1 := EntriesOf(t1, eventName);
    assert list1 == list + [EventEntry(first, firstOnce)];
    assert !HasClass(list1, second) by {
      forall i | 0 <= i < |list1| ensures list1[i].handlerClass != second {
        if i < |list| { assert list1[i] == list[i]; }
      }
    }
    RegisterAppends(t1, eventName, second, secondOnce);
  }

  /** The duplicate check looks only within one event: a class may serve several events. */
  lemma SameClassUnderTwoEvents(t: EventTable, e1: string, e2: string, cls: ClassId, once1: bool, once2: bool)
    requires t.Valid() && e1 != e2
    requires !HasClass(EntriesOf(t, e1), cls) && !HasClass(EntriesOf(t, e2), cls)
    ensures var t2 := Registered(Registered(t, e1, cls, once1), e2, cls, once2);
            EntriesOf(t2, e1) == EntriesOf(t, e1) + [EventEntry(cls, once1)] &&
            EntriesOf(t2, e2) == EntriesOf(t, e2) + [EventEntry(cls, once2)]
  {
    RegisterAppends(t, e1, cls, once1);
    RegisterAppends(Registered(t, e1, cls, once1), e2, cls, once2);
  }

  /**
    Two classes registered for "ready", once and not once, are both listed in
    registration order and not merged.
   */
  lemma ReadyScenario(a: ClassId, b: ClassId)
    requires a != b
    ensures EntriesOf(Registered(Registered(Empty(), "ready", a, true), "ready", b, false), "ready")
         == [EventEntry(a, true), EventEntry(b, false)]
  {
    DistinctClassesCoexist(Empty(), "ready", a, true, b, false);
  }
}

module EventListenerDecorator {
  import opened CapabilityRegistry
  import opened EventRegistries

  /** `@EventListener(eventName, once = false)`: stores the event and flag on the class, registers it and returns it. */
  method EventListener(eventName: string, once: bool, target: HandlerClass, registry: EventRegistry) returns (r: HandlerClass)
    requires registry.Valid() && registry.kind == EventListeners
    modifies target, registry
    ensures r == target
    ensures target.statics == old(target.statics)["eventName" := Text(eventName)]["eventOnce" := Flag(once)]
    ensures registry.Valid()
    ensures registry.table == Registered(old(registry.table), eventName, target.id, once)
  {
    target.statics := target.statics["eventName" := Text(eventName)]["eventOnce" := Flag(once)];
    var _ := registry.Register(eventName, target.id, once);
    r := target;
  }
}

module EventHandlerDecorator {
  import opened CapabilityRegistry
  import opened EventRegistries

  /** `@EventHandler(eventName, once = false)`: stores the event and flag on the class, registers it and returns it. */
  method EventHandler(eventName: string, once: bool, target: HandlerClass, registry: EventRegistry) returns (r: HandlerClass)
    requires registry.Valid() && registry.kind == EventHandlers
    modifies target, registry
    ensures r == target
    ensures target.statics == old(target.statics)["eventName" := Text(eventName)]["eventOnce" := Flag(once)]
    ensures registry.Valid()
    ensures registry.table == Registered(old(registry.table), eventName, target.id, once)
  {
    target.statics := target.statics["eventName" := Text(eventName)]["eventOnce" := Flag(once)];
    var _ := registry.Register(eventName, target.id, once);
    r := target;
  }
}

/**
  Walking the event table the way both ListenerSetupService variants do:
  events in the table's insertion order, and within an event its classes in
  registration order.
 */
module EventWalk {
  import opened OrderedMaps
  import opened EventRegistries

  /** One (event name, `{handlerClass, once}`) pair visited by the nested loop. */
  datatype Registration = Registration(eventName: string, entry: EventEntry)

  /** An event's list, each entry paired with the event's name. */
  function Tagged(eventName: string, list: seq<EventEntry>): (r: seq<Registration>)
    ensures |r| == |list|
    ensures forall j :: 0 <= j < |list| ==> r[j] == Registration(eventName, list[j])
  {
    seq(|list|, j requires 0 <= j < |list| => Registration(eventName, list[j]))
  }

  /** The pairs visited for the first `n` events of the table. */
  function WalkPrefix(t: EventTable, n: nat): seq<Registration>
    requires t.Valid() && n <= |t.keys|
  {
    if n == 0 then [] else WalkPrefix(t, n - 1) + Tagged(t.keys[n - 1], t.values[t.keys[n - 1]])
  }

  /** One more event of the walk appends that event's pairs. */
  lemma WalkPrefixStep(t: EventTable, k: nat)
    requires t.Valid() && k < |t.keys|
    ensures t.keys[k] in t.values
    ensures WalkPrefix(t, k + 1) == WalkPrefix(t, k) + Tagged(t.keys[k], t.values[t.keys[k]])
  {
  }

  /** Every pair the nested `for ... of` loops visit, in visiting order. */
  function Walk(t: EventTable): seq<Registration>
    requires t.Valid()
  {
    WalkPrefix(t, |t.keys|)
  }

  /** The walk over the first `n` events visits exactly the entries of those events. */
  lemma {:induction false} WalkPrefixMembership(t: EventTable, n: nat, r: Registration)
    requires t.Valid() && n <= |t.keys|
    ensures r in WalkPrefix(t, n) <==>
              exists k :: 0 <= k < n && t.keys[k] == r.eventName && r.entry in t.values[t.keys[k]]
  {
    if n > 0 {
      WalkPrefixMembership(t, n - 1, r);
      var e := t.keys[n - 1];
      var tail := Tagged(e, t.values[e]);
      assert r in tail <==> r.eventName == e && r.entry in t.values[e] by {
        if r in tail {
          var j :| 0 <= j < |tail| && tail[j] == r;
        }
        if r.eventName == e && r.entry in t.values[e] {
          var j :| 0 <= j < |t.values[e]| && t.values[e][j] == r.entry;
          assert tail[j] == r;
        }
      }
    }
  }

  /**
    The walk visits a pair exactly when the table lists that class, with that
    flag, under that event: nothing is skipped and nothing is invented.
   */
  lemma WalkVisitsExactlyTheEntries(t: EventTable, r: Registration)
    requires t.Valid()
    ensures r in Walk(t) <==> t.Has(r.eventName) && r.entry in t.values[r.eventName]
  {
    WalkPrefixMembership(t, |t.keys|, r);
    if t.Has(r.eventName) && r.entry in t.values[r.eventName] {
      assert r.eventName in t.keys;
      var k :| 0 <= k < |t.keys| && t.keys[k] == r.eventName;
    }
  }
}
