/**
  CommandRegistrationService: builds the platform payload of every discovered
  command (slash commands, then user context menus, then message context
  menus, each registry in its insertion order) and submits it through the
  command repository.
 */
module CommandService {
  import opened Wrappers
  import opened OrderedMaps
  import opened CapabilityRegistry
  import opened CommandTool

  /** What `getDiscoveredCommandsSummary()` returns. */
  datatype DiscoveredSummary = DiscoveredSummary(total: nat, slashCommands: nat, userContextMenus: nat, messageContextMenus: nat)

  /**
    Building from `classes` after `done` was built: each class is
    instantiated and its `buildCommand().toJSON()` appended; the first class
    whose build throws ends the whole build with that error.
   */
  function BuildFrom(done: seq<CommandJson>, classes: seq<ClassId>, build: ClassId -> Result<CommandJson, string>)
      : (r: Result<seq<CommandJson>, string>)
    ensures r.Success? ==> |r.value| == |done| + |classes| && r.value[..|done|] == done
    ensures r.Failure? ==> exists j :: 0 <= j < |classes| && build(classes[j]) == Failure(r.error)
    decreases |classes|
  {
    if classes == [] then Success(done)
    else match build(classes[0])
      case Failure(e) => Failure(e)
      case Success(json) => BuildFrom(done + [json], classes[1..], build)
  }

  /** The classes whose commands are built, in visiting order. */
  function DiscoveredClasses(slash: OrderedMap<string, ClassId>, user: OrderedMap<string, ClassId>,
                             message: OrderedMap<string, ClassId>): (cs: seq<ClassId>)
    requires slash.Valid() && user.Valid() && message.Valid()
    ensures |cs| == slash.Size() + user.Size() + message.Size()
  {
    slash.OrderedValues() + user.OrderedValues() + message.OrderedValues()
  }

  /**
    A build succeeds exactly when every class builds, and then yields what was
    already built followed by each class's payload in order.
   */
  lemma {:induction false} BuildFromMeaning(done: seq<CommandJson>, classes: seq<ClassId>, build: ClassId -> Result<CommandJson, string>)
    ensures BuildFrom(done, classes, build).Success? <==> forall j :: 0 <= j < |classes| ==> build(classes[j]).Success?
    ensures BuildFrom(done, classes, build).Success? ==>
              && |BuildFrom(done, classes, build).value| == |done| + |classes|
              && BuildFrom(done, classes, build).value[..|done|] == done
              && forall j :: 0 <= j < |classes| ==> BuildFrom(done, classes, build).value[|done| + j] == build(classes[j]).value
    decreases |classes|
  {
    if classes != [] {
      match build(classes[0])
      case Failure(e) =>
      case Success(json) =>
        var rest := classes[1..];
        BuildFromMeaning(done + [json], rest, build);
        assert forall j :: 1 <= j < |classes| ==> classes[j] == rest[j - 1];
        if BuildFrom(done, classes, build).Success? {
          var v := BuildFrom(done, classes, build).value;
          assert v == BuildFrom(done + [json], rest, build).value;
          assert v[..|done| + 1] == done + [json];
          assert v[..|done|] == (done + [json])[..|done|];
          forall j | 0 <= j < |classes| ensures v[|done| + j] == build(classes[j]).value {
            if j == 0 {
              assert v[|done|] == (done + [json])[|done|];
            } else {
              assert v[|done| + 1 + (j - 1)] == build(rest[j - 1]).value;
            }
          }
        } else {
          var j :| 0 <= j < |rest| && !build(rest[j]).Success?;
          assert classes[j + 1] == rest[j];
        }
    }
  }

  /**
    A failed build reports the error of the first class that fails: every
    class before it built successfully.
   */
  lemma {:induction false} BuildFromFirstFailure(done: seq<CommandJson>, classes: seq<ClassId>, build: ClassId -> Result<CommandJson, string>)
    ensures BuildFrom(done, classes, build).Failure? ==>
              exists k :: && 0 <= k < |classes|
                          && (forall j :: 0 <= j < k ==> build(classes[j]).Success?)
                          && build(classes[k]) == Failure(BuildFrom(done, classes, build).error)
    decreases |classes|
  {
    if classes != [] {
      match build(classes[0])
      case Failure(e) =>
        assert build(classes[0]) == Failure(BuildFrom(done, classes, build).error);
      case Success(json) =>
        var rest := classes[1..];
        BuildFromFirstFailure(done + [json], rest, build);
        if BuildFrom(done, classes, build).Failure? {
          var k :| && 0 <= k < |rest|
                   && (forall j :: 0 <= j < k ==> build(rest[j]).Success?)
                   && build(rest[k]) == Failure(BuildFrom(done + [json], rest, build).error);
          assert classes[k + 1] == rest[k];
          forall j | 0 <= j < k + 1 ensures build(classes[j]).Success? {
            if j > 0 { assert classes[j] == rest[j - 1]; }
          }
        }
    }
  }

  /** Building one run of classes after another is building their concatenation. */
  lemma {:induction false} BuildFromConcat(done: seq<CommandJson>, a: seq<ClassId>, b: seq<ClassId>, build: ClassId -> Result<CommandJson, string>)
    ensures BuildFrom(done, a + b, build) ==
              match BuildFrom(done, a, build)
              case Failure(e) => Failure(e)
              case Success(built) => BuildFrom(built, b, build)
    decreases |a|
  {
    if a == [] {
      assert a + b == b;
    } else {
      assert (a + b)[0] == a[0];
      assert (a + b)[1..] == a[1..] + b;
      match build(a[0])
      case Failure(e) =>
      case Success(json) => BuildFromConcat(done + [json], a[1..], b, build);
    }
  }

  /** One loop of `buildCommandsFromRegistry()`: build each class of one registry onto `done`. */
  method BuildEach(done: seq<CommandJson>, classes: seq<ClassId>, build: ClassId -> Result<CommandJson, string>)
      returns (r: Result<seq<CommandJson>, string>)
    ensures r == BuildFrom(done, classes, build)
  {
    var commands := done;
    var i := 0;
    while i < |classes|
      invariant 0 <= i <= |classes|
      invariant BuildFrom(commands, classes[i..], build) == BuildFrom(done, classes, build)
    {
      assert classes[i..][1..] == classes[i + 1..];
      match build(classes[i])
      case Failure(e) =>
        return Failure(e);
      case Success(json) =>
        commands := commands + [json];
      i := i + 1;
    }
    return Success(commands);
  }

  /**
    `buildCommandsFromRegistry()`: slash commands, then user context menus,
    then message context menus; a build that throws propagates.
   */
  method BuildCommandsFromRegistry(slash: OrderedMap<string, ClassId>, user: OrderedMap<string, ClassId>,
                                   message: OrderedMap<string, ClassId>, build: ClassId -> Result<CommandJson, string>)
      returns (r: Result<seq<CommandJson>, string>)
    requires slash.Valid() && user.Valid() && message.Valid()
    ensures r == BuildFrom([], DiscoveredClasses(slash, user, message), build)
  {
    var s, u, m := slash.OrderedValues(), user.OrderedValues(), message.OrderedValues();
    BuildFromConcat([], s + u, m, build);
    BuildFromConcat([], s, u, build);
    r := BuildEach([], s, build);
    if r.Failure? {
      return;
    }
    r := BuildEach(r.value, u, build);
    if r.Failure? {
      return;
    }
    r := BuildEach(r.value, m, build);
  }

  /** `getDiscoveredCommandsSummary()`: the three registry sizes and their sum. */
  function GetDiscoveredCommandsSummary(slash: OrderedMap<string, ClassId>, user: OrderedMap<string, ClassId>,
                                        message: OrderedMap<string, ClassId>): (s: DiscoveredSummary)
    ensures s.total == s.slashCommands + s.userContextMenus + s.messageContextMenus
    ensures s.slashCommands == slash.Size() && s.userContextMenus == user.Size() && s.messageContextMenus == message.Size()
  {
    DiscoveredSummary(slash.Size() + user.Size() + message.Size(), slash.Size(), user.Size(), message.Size())
  }

  /** How `registerDiscoveredCommands()` ends. */
  datatype RegistrationOutcome =
    | NoCommandsDiscovered                          // resolves to 0 without calling the repository
    | RegisteredWith(submitted: seq<CommandJson>, registeredCount: nat)
    | RegistrationFailed(error: string)             // a build or the repository threw

  /**
    `registerDiscoveredCommands()`: build every discovered command; with none,
    resolve to 0 without submitting; otherwise submit them all at once and
    resolve to the count the repository reports.
   */
  function RegisterDiscoveredCommands(built: Result<seq<CommandJson>, string>,
                                      registerCommands: seq<CommandJson> -> Result<nat, string>): (r: RegistrationOutcome)
    ensures built.Failure? ==> r == RegistrationFailed(built.error)
    ensures r == NoCommandsDiscovered <==> built == Success([])
    ensures r.RegisteredWith? ==> built == Success(r.submitted) && r.submitted != []
                                  && registerCommands(r.submitted) == Success(r.registeredCount)
  {
    match built
    case Failure(e) => RegistrationFailed(e)
    case Success(commands) =>
      if |commands| == 0 then NoCommandsDiscovered
      else match registerCommands(commands)
        case Success(n) => RegisteredWith(commands, n)
        case Failure(e) => RegistrationFailed(e)
  }

  /**
    When every discovered class builds, the submitted payload is exactly one
    command per registered class, in visiting order, and as many as the
    summary's total.
   */
  lemma SubmittedPayloadMatchesSummary(slash: OrderedMap<string, ClassId>, user: OrderedMap<string, ClassId>,
                                       message: OrderedMap<string, ClassId>, build: ClassId -> Result<CommandJson, string>,
                                       registerCommands: seq<CommandJson> -> Result<nat, string>)
    requires slash.Valid() && user.Valid() && message.Valid()
    requires forall c :: build(c).Success?
    ensures var cs := DiscoveredClasses(slash, user, message);
            var o := RegisterDiscoveredCommands(BuildFrom([], cs, build), registerCommands);
            && (o == NoCommandsDiscovered <==> GetDiscoveredCommandsSummary(slash, user, message).total == 0)
            && (o.RegisteredWith? ==>
                  && |o.submitted| == GetDiscoveredCommandsSummary(slash, user, message).total
                  && forall j :: 0 <= j < |cs| ==> o.submitted[j] == build(cs[j]).value)
  {
    var cs := DiscoveredClasses(slash, user, message);
    BuildFromMeaning([], cs, build);
  }
}
