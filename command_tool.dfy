/**
  CommandRegistrationTool: modules declare their commands to it without
  touching the platform client; core later submits everything collected. In
  dry-run mode every declaration is only announced, never collected.
 */
module CommandTool {
  import opened Wrappers

  /** `'SLASH' | 'USER_CONTEXT' | 'MESSAGE_CONTEXT'` */
  datatype CommandType = Slash | UserContext | MessageContext

  /** A command builder, identified; `toJSON()` of it is `Json(builder)`. */
  type BuilderId = nat

  /** What `builder.toJSON()` produces, standing for the builder's payload. */
  datatype CommandJson = Json(builder: BuilderId)

  /** One collected declaration; context menus carry no description. */
  datatype CommandData = CommandData(name: string, description: Option<string>, builder: BuilderId, kind: CommandType)

  /** What `getCommandSummary()` returns. */
  datatype CommandSummary = CommandSummary(slash: nat, userContext: nat, messageContext: nat, total: nat)

  /** How `performDiscordRegistration(client)` ends. */
  datatype SubmissionOutcome =
    | DryRunAnnounced(count: nat)         // dry run: nothing is sent
    | NothingToRegister                  // no command collected: nothing is sent
    | NoApplication                      // the client has no application: nothing is sent, 0 is reported
    | Submitted(payload: seq<CommandJson>, registeredCount: nat)
    | Rethrown(error: string)            // the platform call failed and the error propagates

  /** `commands.filter(cmd => cmd.type === t).length` */
  function CountOf(cmds: seq<CommandData>, t: CommandType): (n: nat)
    ensures n <= |cmds|
  {
    if cmds == [] then 0
    else CountOf(cmds[..|cmds| - 1], t) + (if cmds[|cmds| - 1].kind == t then 1 else 0)
  }

  /** Every command has one of the three types, so the per-type counts add up to the total. */
  lemma {:induction false} CountsPartition(cmds: seq<CommandData>)
    ensures CountOf(cmds, Slash) + CountOf(cmds, UserContext) + CountOf(cmds, MessageContext) == |cmds|
  {
    if cmds != [] {
      CountsPartition(cmds[..|cmds| - 1]);
    }
  }

  /** Appending one command of type `t` adds one to `t`'s count and nothing to the others. */
  lemma CountOfAppend(cmds: seq<CommandData>, c: CommandData, t: CommandType)
    ensures CountOf(cmds + [c], t) == CountOf(cmds, t) + (if c.kind == t then 1 else 0)
  {
    assert (cmds + [c])[..|cmds|] == cmds;
  }

  /** `cmd.builder.toJSON()` for each collected command, in collection order. */
  function Payload(cmds: seq<CommandData>): (p: seq<CommandJson>)
    ensures |p| == |cmds|
    ensures forall j :: 0 <= j < |cmds| ==> p[j] == Json(cmds[j].builder)
  {
    seq(|cmds|, j requires 0 <= j < |cmds| => Json(cmds[j].builder))
  }

  class CommandRegistrationTool {
    var commands: seq<CommandData>
    const dryRun: bool

    /** A dry-run tool never holds a command. */
    ghost predicate Valid()
      reads this
    {
      dryRun ==> commands == []
    }

    constructor (dryRun: bool)
      ensures Valid() && this.dryRun == dryRun && commands == []
    {
      this.dryRun := dryRun;
      commands := [];
    }

    /** Collect a command of type `kind`, unless this is a dry run. */
    method Collect(name: string, description: Option<string>, builder: BuilderId, kind: CommandType)
      requires Valid()
      modifies this
      ensures Valid()
      ensures commands == if dryRun then old(commands) else old(commands) + [CommandData(name, description, builder, kind)]
    {
      if dryRun {
        return;
      }
      commands := commands + [CommandData(name, description, builder, kind)];
    }

    /** `addSlashCommand(name, description, builder)` */
    method AddSlashCommand(name: string, description: string, builder: BuilderId)
      requires Valid()
      modifies this
      ensures Valid()
      ensures commands == if dryRun then old(commands) else old(commands) + [CommandData(name, Some(description), builder, Slash)]
    {
      Collect(name, Some(description), builder, Slash);
    }

    /** `addUserContextMenu(name, builder)` */
    method AddUserContextMenu(name: string, builder: BuilderId)
      requires Valid()
      modifies this
      ensures Valid()
      ensures commands == if dryRun then old(commands) else old(commands) + [CommandData(name, None, builder, UserContext)]
    {
      Collect(name, None, builder, UserContext);
    }

    /** `addMessageContextMenu(name, builder)` */
    method AddMessageContextMenu(name: string, builder: BuilderId)
      requires Valid()
      modifies this
      ensures Valid()
      ensures commands == if dryRun then old(commands) else old(commands) + [CommandData(name, None, builder, MessageContext)]
    {
      Collect(name, None, builder, MessageContext);
    }

    /** `getCommands()`: a copy of the collected commands, in collection order. */
    method GetCommands() returns (copy: seq<CommandData>)
      ensures copy == commands
    {
      copy := commands;
    }

    /** `getCommandSummary()`: commands per type, and the three counts add up to the total. */
    function GetCommandSummary(): (s: CommandSummary)
      reads this
      ensures s.total == |commands|
      ensures s.slash + s.userContext + s.messageContext == s.total
      ensures s.slash == CountOf(commands, Slash) && s.userContext == CountOf(commands, UserContext)
      ensures s.messageContext == CountOf(commands, MessageContext)
    {
      CountsPartition(commands);
      CommandSummary(CountOf(commands, Slash), CountOf(commands, UserContext), CountOf(commands, MessageContext), |commands|)
    }

    /** `clear()` */
    method Clear()
      requires Valid()
      modifies this
      ensures Valid() && commands == []
    {
      commands := [];
    }

    /**
      `performDiscordRegistration(client)`: a dry run only announces how many
      commands it would send; with no command nothing is sent; otherwise the
      builders' payload is sent in collection order through the client's
      application, if it has one (`setCommands` says how that call ends), and
      a failure is rethrown. Without an application the optional chain sends
      nothing and zero commands are reported.
     */
    function PerformDiscordRegistration(hasApplication: bool, setCommands: seq<CommandJson> -> Result<nat, string>): (r: SubmissionOutcome)
      reads this
      ensures dryRun ==> r == DryRunAnnounced(|commands|)
      ensures !dryRun && commands == [] ==> r == NothingToRegister
      ensures r == NoApplication <==> !dryRun && commands != [] && !hasApplication
      ensures r.Submitted? ==> r.payload == Payload(commands) && |r.payload| == |commands| > 0
      ensures r.Submitted? <==> !dryRun && commands != [] && hasApplication && setCommands(Payload(commands)).Success?
      ensures r.Submitted? ==> setCommands(Payload(commands)) == Success(r.registeredCount)
      ensures r.Rethrown? <==> !dryRun && commands != [] && hasApplication && setCommands(Payload(commands)).Failure?
    {
      if dryRun then DryRunAnnounced(|commands|)
      else if |commands| == 0 then NothingToRegister
      else if !hasApplication then NoApplication
      else match setCommands(Payload(commands))
        case Success(n) => Submitted(Payload(commands), n)
        case Failure(e) => Rethrown(e)
    }
  }

  /** In dry-run mode nothing ever reaches the platform: whatever was declared, the outcome is only an announcement of zero commands. */
  lemma DryRunNeverSubmits(tool: CommandRegistrationTool, hasApplication: bool, setCommands: seq<CommandJson> -> Result<nat, string>)
    requires tool.Valid() && tool.dryRun
    ensures tool.PerformDiscordRegistration(hasApplication, setCommands) == DryRunAnnounced(0)
  {
  }

  /**
    Declaring a slash command, a user menu and a message menu on a collecting
    tool yields one of each, in declaration order, and a summary of 1, 1, 1, 3.
   */
  method DeclareOneOfEach(name: string, description: string, b1: BuilderId, b2: BuilderId, b3: BuilderId)
      returns (collected: seq<CommandData>, s: CommandSummary)
    ensures collected == [CommandData(name, Some(description), b1, Slash), CommandData(name, None, b2, UserContext),
                          CommandData(name, None, b3, MessageContext)]
    ensures s == CommandSummary(1, 1, 1, 3)
  {
    var tool := new CommandRegistrationTool(false);
    tool.AddSlashCommand(name, description, b1);
    tool.AddUserContextMenu(name, b2);
    tool.AddMessageContextMenu(name, b3);
    collected := tool.GetCommands();
    CountOfAppend([], collected[0], Slash);
    CountOfAppend([collected[0]], collected[1], Slash);
    CountOfAppend(collected[..2], collected[2], Slash);
    CountOfAppend([], collected[0], UserContext);
    CountOfAppend([collected[0]], collected[1], UserContext);
    CountOfAppend(collected[..2], collected[2], UserContext);
    assert collected[..2] == [collected[0], collected[1]];
    assert [collected[0]] + [collected[1]] == collected[..2];
    assert collected[..2] + [collected[2]] == collected;
    s := tool.GetCommandSummary();
  }
}
