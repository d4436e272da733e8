/**
  The CLI Migrator: a process-wide singleton holding the modules registered
  with it; `migrateModules()` awaits each module's `migrate()` in
  registration order and lets the first failure propagate, so the modules
  after it are not migrated. Each module also gets a timestamped migration
  name, which is computed and not used.
 */
module Migrators {
  import opened Wrappers
  import opened Js

  /** A registered module: its name and how its `migrate()` call ends. */
  datatype MigrationModule = MigrationModule(name: string, migrate: Completion)

  /** How a run ends: the modules whose `migrate()` was called, in order, and whether the run threw. */
  datatype MigrationRun = MigrationRun(called: seq<string>, outcome: Outcome)

  /** Every module's `migrate()` resolves. */
  predicate AllResolve(ms: seq<MigrationModule>)
    decreases |ms|
  {
    ms == [] || (ms[0].migrate.Resolves? && AllResolve(ms[1..]))
  }

  /** `AllResolve` means what it says: every module of the list has a resolving `migrate()`. */
  lemma {:induction false} AllResolveMeans(ms: seq<MigrationModule>)
    ensures AllResolve(ms) <==> forall j :: 0 <= j < |ms| ==> ms[j].migrate.Resolves?
    decreases |ms|
  {
    if ms != [] {
      AllResolveMeans(ms[1..]);
      assert forall j :: 1 <= j < |ms| ==> ms[j] == ms[1..][j - 1];
    }
  }

  /**
    Running `ms` after the modules in `done` were migrated: stop at the first
    failing `migrate()`. The earlier calls are kept, each module is called at
    most once, and the run completes exactly when every `migrate()` resolves,
    having then called them all.
   */
  function RunFrom(done: seq<string>, ms: seq<MigrationModule>): (r: MigrationRun)
    ensures |done| <= |r.called| <= |done| + |ms| && r.called[..|done|] == done
    ensures r.outcome.Ok? <==> AllResolve(ms)
    ensures r.outcome.Ok? ==> |r.called| == |done| + |ms|
    decreases |ms|
  {
    if ms == [] then MigrationRun(done, Ok)
    else match Awaited(ms[0].migrate)
      case Ok => RunFrom(done + [ms[0].name], ms[1..])
      case Throws(m) => MigrationRun(done + [ms[0].name], Throws(m))
  }

  /** The names of a list of modules, in order. */
  function Names(ms: seq<MigrationModule>): (names: seq<string>)
    ensures |names| == |ms|
    ensures forall j :: 0 <= j < |ms| ==> names[j] == ms[j].name
  {
    seq(|ms|, j requires 0 <= j < |ms| => ms[j].name)
  }

  /** The index of the first `migrate()` that does not resolve, or `|ms|` when they all do. */
  function FirstFailure(ms: seq<MigrationModule>): (k: nat)
    ensures k <= |ms|
    ensures forall j :: 0 <= j < k ==> ms[j].migrate.Resolves?
    ensures k < |ms| ==> !ms[k].migrate.Resolves?
  {
    if ms == [] || !ms[0].migrate.Resolves? then 0 else 1 + FirstFailure(ms[1..])
  }

  /** One resolving `migrate()` adds its module to the called ones and the run goes on. */
  lemma RunFromStep(done: seq<string>, ms: seq<MigrationModule>)
    requires ms != [] && ms[0].migrate.Resolves?
    ensures RunFrom(done, ms) == RunFrom(done + [ms[0].name], ms[1..])
    ensures FirstFailure(ms) == 1 + FirstFailure(ms[1..])
  {
  }

  /** The names of a non-empty list: the first module's, then the rest's. */
  lemma NamesCons(ms: seq<MigrationModule>)
    requires ms != []
    ensures Names(ms) == [ms[0].name] + Names(ms[1..])
  {
  }

  /** The names of a prefix of two or more modules: the first module's, then those of the rest's prefix. */
  lemma NamesOfLongerPrefix(ms: seq<MigrationModule>, k: nat)
    requires k + 1 < |ms|
    ensures Names(ms[..k + 2]) == [ms[0].name] + Names(ms[1..][..k + 1])
  {
    assert ms[..k + 2][1..] == ms[1..][..k + 1];
    NamesCons(ms[..k + 2]);
  }

  /** When every `migrate()` resolves, the run calls them all, in order, and completes. */
  lemma {:induction false} RunCompletes(done: seq<string>, ms: seq<MigrationModule>)
    requires FirstFailure(ms) == |ms|
    ensures RunFrom(done, ms) == MigrationRun(done + Names(ms), Ok)
    decreases |ms|
  {
    if ms != [] {
      var rest := ms[1..];
      RunFromStep(done, ms);
      RunCompletes(done + [ms[0].name], rest);
      NamesCons(ms);
      calc {
        RunFrom(done, ms);
        RunFrom(done + [ms[0].name], rest);
        MigrationRun(done + [ms[0].name] + Names(rest), Ok);
        { assert done + [ms[0].name] + Names(rest) == done + ([ms[0].name] + Names(rest)); }
        MigrationRun(done + Names(ms), Ok);
      }
    }
  }

  /**
    When the k-th `migrate()` is the first that fails, the run calls every
    module up to and including it and throws its message.
   */
  lemma {:induction false} RunStops(done: seq<string>, ms: seq<MigrationModule>)
    requires FirstFailure(ms) < |ms|
    ensures var k := FirstFailure(ms);
            RunFrom(done, ms) == MigrationRun(done + Names(ms[..k + 1]), Throws(ms[k].migrate.message))
    decreases |ms|
  {
    var k := FirstFailure(ms);
    if ms[0].migrate.Resolves? {
      var rest := ms[1..];
      RunFromStep(done, ms);
      var k' := FirstFailure(rest);
      RunStops(done + [ms[0].name], rest);
      NamesOfLongerPrefix(ms, k');
      calc {
        RunFrom(done, ms);
        RunFrom(done + [ms[0].name], rest);
        MigrationRun(done + [ms[0].name] + Names(rest[..k' + 1]), Throws(rest[k'].migrate.message));
        { assert done + [ms[0].name] + Names(rest[..k' + 1]) == done + ([ms[0].name] + Names(rest[..k' + 1])); }
        MigrationRun(done + Names(ms[..k + 1]), Throws(ms[k].migrate.message));
      }
    } else {
      assert Names(ms[..1]) == [ms[0].name];
    }
  }

  /** The characters `toISOString().replace(/[-:.TZ]/g, "")` removes. */
  predicate IsSeparator(c: char) {
    c == '-' || c == ':' || c == '.' || c == 'T' || c == 'Z'
  }

  /** `s.replace(/[-:.TZ]/g, "")` */
  function Strip(s: string): (r: string)
    ensures |r| <= |s|
    ensures forall j :: 0 <= j < |r| ==> !IsSeparator(r[j])
  {
    if s == [] then []
    else (if IsSeparator(s[0]) then [] else [s[0]]) + Strip(s[1..])
  }

  /**
    `${timestamp}_${moduleName}`, from the current time in ISO 8601 form: the
    name ends with `_` and the module's name, and what comes before has no
    separator left; for a well-formed timestamp it is exactly seventeen digits.
   */
  function GenerateMigrationName(isoNow: string, moduleName: string): (r: string)
    ensures |r| > |moduleName| && r[|r| - |moduleName| - 1..] == "_" + moduleName
    ensures forall j :: 0 <= j < |r| - |moduleName| - 1 ==> !IsSeparator(r[j])
    ensures IsIsoTimestamp(isoNow) ==> |r| == 18 + |moduleName| && AllDigits(r[..17])
  {
    StampOfIsoTimestamp(isoNow);
    var stamp := Strip(isoNow);
    var r := stamp + "_" + moduleName;
    assert r[..|stamp|] == stamp;
    assert r[|stamp|..] == "_" + moduleName;
    assert forall j :: 0 <= j < |stamp| ==> r[j] == stamp[j];
    r
  }

  predicate IsDigit(c: char) {
    '0' <= c <= '9'
  }

  predicate AllDigits(s: string) {
    forall j :: 0 <= j < |s| ==> IsDigit(s[j])
  }

  /** `YYYY-MM-DDTHH:mm:ss.sssZ`, the shape `toISOString()` returns for years 0 to 9999. */
  predicate IsIsoTimestamp(s: string) {
    && |s| == 24
    && s[4] == '-' && s[7] == '-' && s[10] == 'T' && s[13] == ':' && s[16] == ':' && s[19] == '.' && s[23] == 'Z'
    && AllDigits(s[0..4]) && AllDigits(s[5..7]) && AllDigits(s[8..10]) && AllDigits(s[11..13])
    && AllDigits(s[14..16]) && AllDigits(s[17..19]) && AllDigits(s[20..23])
  }

  /** A run of digits followed by one separator is kept and the separator dropped. */
  lemma {:induction false} StripDigitsThenSeparator(digits: string, sep: char, rest: string)
    requires AllDigits(digits) && IsSeparator(sep)
    ensures Strip(digits + [sep] + rest) == digits + Strip(rest)
    decreases |digits|
  {
    if digits == [] {
      assert digits + [sep] + rest == [sep] + rest;
      assert ([sep] + rest)[1..] == rest;
    } else {
      var s := digits + [sep] + rest;
      assert s[0] == digits[0] && !IsSeparator(digits[0]);
      assert s[1..] == digits[1..] + [sep] + rest;
      StripDigitsThenSeparator(digits[1..], sep, rest);
      assert digits == [digits[0]] + digits[1..];
    }
  }

  lemma AllDigitsConcat(a: string, b: string)
    requires AllDigits(a) && AllDigits(b)
    ensures AllDigits(a + b)
  {
    assert forall j :: |a| <= j < |a + b| ==> (a + b)[j] == b[j - |a|];
  }

  /** A run of digits followed by one separator, then more: the digits are kept and the separator dropped. */
  lemma StripChunk(s: string, from: nat, to: nat)
    requires from <= to < |s| && AllDigits(s[from..to]) && IsSeparator(s[to])
    ensures Strip(s[from..]) == s[from..to] + Strip(s[to + 1..])
  {
    assert s[from..] == s[from..to] + [s[to]] + s[to + 1..];
    StripDigitsThenSeparator(s[from..to], s[to], s[to + 1..]);
  }

  /**
    An ISO timestamp strips to its seventeen digits in order
    (`YYYYMMDDHHmmssSSS`), so the migration name is those digits, `_` and the
    module's name.
   */
  lemma IsoTimestampStripsToDigits(s: string)
    requires IsIsoTimestamp(s)
    ensures Strip(s) == s[0..4] + s[5..7] + s[8..10] + s[11..13] + s[14..16] + s[17..19] + s[20..23]
    ensures |Strip(s)| == 17 && AllDigits(Strip(s))
  {
    assert s[0..] == s;
    StripChunk(s, 0, 4);
    StripChunk(s, 5, 7);
    StripChunk(s, 8, 10);
    StripChunk(s, 11, 13);
    StripChunk(s, 14, 16);
    StripChunk(s, 17, 19);
    StripChunk(s, 20, 23);
    assert s[24..] == [];
    AllDigitsConcat(s[0..4], s[5..7]);
    AllDigitsConcat(s[0..4] + s[5..7], s[8..10]);
    AllDigitsConcat(s[0..4] + s[5..7] + s[8..10], s[11..13]);
    AllDigitsConcat(s[0..4] + s[5..7] + s[8..10] + s[11..13], s[14..16]);
    AllDigitsConcat(s[0..4] + s[5..7] + s[8..10] + s[11..13] + s[14..16], s[17..19]);
    AllDigitsConcat(s[0..4] + s[5..7] + s[8..10] + s[11..13] + s[14..16] + s[17..19], s[20..23]);
  }

  /** Seventeen digits for a well-formed timestamp, whatever the input otherwise. */
  lemma StampOfIsoTimestamp(s: string)
    ensures IsIsoTimestamp(s) ==> |Strip(s)| == 17 && AllDigits(Strip(s))
  {
    if IsIsoTimestamp(s) {
      IsoTimestampStripsToDigits(s);
    }
  }

  class Migrator {
    var modules: seq<MigrationModule>

    constructor ()
      ensures modules == []
    {
      modules := [];
    }

    /** `registerModule(module)`: appends, keeping every earlier registration. */
    method RegisterModule(m: MigrationModule)
      modifies this
      ensures modules == old(modules) + [m]
    {
      modules := modules + [m];
    }

    /**
      `migrateModules()`: `run.called` lists the modules whose `migrate()` was
      called, and `run.outcome` whether the returned promise rejects;
      `isoNow` is the current time each migration name is computed from.
     */
    method MigrateModules(isoNow: string) returns (run: MigrationRun)
      ensures run == RunFrom([], modules)
    {
      var called: seq<string> := [];
      var i := 0;
      while i < |modules|
        invariant 0 <= i <= |modules|
        invariant RunFrom(called, modules[i..]) == RunFrom([], modules)
      {
        var mod := modules[i];
        var migrationName := GenerateMigrationName(isoNow, mod.name);
        assert modules[i..][1..] == modules[i + 1..];
        called := called + [mod.name];
        match Awaited(mod.migrate) {
          case Ok =>
          case Throws(m) =>
            return MigrationRun(called, Throws(m));
        }
        i := i + 1;
      }
      run := MigrationRun(called, Ok);
    }
  }

  /** The module-level holder of the single instance (`Migrator.instance`). */
  class MigratorInstance {
    var instance: Migrator?

    constructor ()
      ensures instance == null
    {
      instance := null;
    }

    /** `getInstance()`: creates the instance once, then always returns the same one. */
    method GetInstance() returns (m: Migrator)
      modifies this
      ensures instance == m
      ensures old(instance) != null ==> m == old(instance)
      ensures old(instance) == null ==> fresh(m) && m.modules == []
    {
      if instance == null {
        instance := new Migrator();
      }
      m := instance;
    }
  }

  /** Two registrations through the shared instance end up in the same list, in order. */
  method RegistrationsShareTheInstance(holder: MigratorInstance, a: MigrationModule, b: MigrationModule) returns (modules: seq<MigrationModule>)
    requires holder.instance == null
    modifies holder
    ensures modules == [a, b]
  {
    var first := holder.GetInstance();
    first.RegisterModule(a);
    var second := holder.GetInstance();
    second.RegisterModule(b);
    modules := second.modules;
  }
}
