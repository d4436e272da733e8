/**
  The older `loadModule(name)` of src/domain/module/ModuleLoader.ts, used by
  the migration use case: the same import, default-export unwrapping and
  error wrapping, but a looser shape check (an object with a string `name`
  and a `migrate` function; `register` is not required) and no name-mismatch
  warning.

  As written, the shape check tests `typeof module === "object"` without
  excluding `null`, so a `null` export goes on to read `null.name`, which
  throws a TypeError; the loader then reports that TypeError instead of the
  "does not implement ModuleInterface" reason it gives every other non-module.
  `IsValidModuleAsWritten` / `LoadModuleAsWritten` model the code as written
  and are what the migration use case calls; `IsValidModule` / `LoadModule`
  add the `null` check.
 */
module LegacyModuleLoader {
  import opened Wrappers
  import opened Js
  import ModuleLoader

  /** `isValidModule(module)` as written: each property read can throw, and a throw escapes the check. */
  function IsValidModuleAsWritten(m: JsValue): (r: Result<bool, string>)
    ensures m.Null? ==> r == Failure(NullNameRead)
    ensures !m.Null? ==> r.Success?
  {
    assert "Cannot read properties of null (reading '" + "name" + "')" == NullNameRead;
    if TypeOf(m) != "object" then Success(false)
    else match GetProperty(m, "name")
      case Failure(e) => Failure(e)
      case Success(n) =>
        if TypeOf(n) != "string" then Success(false)
        else Success(TypeOf(ModuleLoader.Prop(m, "migrate")) == "function")
  }

  /**
    `isValidModule(module)` with `null` excluded, as the newer loader does:
    an object that has a string `name` and a function `migrate`.
   */
  predicate IsValidModule(m: JsValue): (b: bool)
    ensures b <==> && m.Object?
                   && "name" in m.props && m.props["name"].Str?
                   && "migrate" in m.props && m.props["migrate"].Function?
  {
    && TypeOf(m) == "object"
    && m != Null
    && TypeOf(ModuleLoader.Prop(m, "name")) == "string"
    && TypeOf(ModuleLoader.Prop(m, "migrate")) == "function"
  }

  /** The message of the TypeError that reading `null.name` throws. */
  const NullNameRead: string := "Cannot read properties of null (reading 'name')"

  /**
    `loadModule(name)` as written: it accepts exactly the modules of the
    right shape, returned as is; an import failure and a module of the wrong
    shape fail with the wrapped reason, and a `null` export fails with the
    wrapped TypeError of the shape check.
   */
  function LoadModuleAsWritten(name: string, imported: ModuleLoader.ImportResult): (r: Result<JsValue, string>)
    ensures r.Success? <==> imported.Resolved? && IsValidModule(ModuleLoader.Unwrap(imported.exports))
    ensures r.Success? ==> r.value == ModuleLoader.Unwrap(imported.exports)
    ensures imported.ImportFailed? ==> r == Failure(ModuleLoader.FailurePrefix(name) + imported.message)
    ensures imported.Resolved? && ModuleLoader.Unwrap(imported.exports).Null? ==>
              r == Failure(ModuleLoader.FailurePrefix(name) + NullNameRead)
    ensures imported.Resolved? && !ModuleLoader.Unwrap(imported.exports).Null? && !IsValidModule(ModuleLoader.Unwrap(imported.exports)) ==>
              r == Failure(ModuleLoader.FailurePrefix(name) + ModuleLoader.NotAModule(name))
  {
    match imported
    case ImportFailed(msg) => Failure(ModuleLoader.FailurePrefix(name) + msg)
    case Resolved(exports) =>
      var m := ModuleLoader.Unwrap(exports);
      CheckAgreesExceptOnNull(m);
      match IsValidModuleAsWritten(m)
      case Failure(e) => Failure(ModuleLoader.FailurePrefix(name) + e)
      case Success(valid) =>
        if !valid then Failure(ModuleLoader.FailurePrefix(name) + ModuleLoader.NotAModule(name)) else Success(m)
  }

  /**
    `loadModule(name)` with the `null` check: a module of the right shape is
    returned as is (no name check); anything else fails with the wrapped reason.
   */
  function LoadModule(name: string, imported: ModuleLoader.ImportResult): (r: Result<JsValue, string>)
    ensures r.Success? <==> imported.Resolved? && IsValidModule(ModuleLoader.Unwrap(imported.exports))
    ensures r.Success? ==> r.value == ModuleLoader.Unwrap(imported.exports)
    ensures imported.ImportFailed? ==> r == Failure(ModuleLoader.FailurePrefix(name) + imported.message)
    ensures imported.Resolved? && !IsValidModule(ModuleLoader.Unwrap(imported.exports)) ==>
              r == Failure(ModuleLoader.FailurePrefix(name) + ModuleLoader.NotAModule(name))
  {
    match imported
    case ImportFailed(msg) => Failure(ModuleLoader.FailurePrefix(name) + msg)
    case Resolved(exports) =>
      var m := ModuleLoader.Unwrap(exports);
      if IsValidModule(m) then Success(m) else Failure(ModuleLoader.FailurePrefix(name) + ModuleLoader.NotAModule(name))
  }

  /** The two checks agree on every value except `null`, which only the corrected one rejects cleanly. */
  lemma CheckAgreesExceptOnNull(m: JsValue)
    ensures !m.Null? ==> IsValidModuleAsWritten(m) == Success(IsValidModule(m))
  {
  }

  /** Hence the two loaders agree on every import whose unwrapped export is not `null`. */
  lemma LoadersAgreeExceptOnNull(name: string, imported: ModuleLoader.ImportResult)
    requires imported.Resolved? ==> !ModuleLoader.Unwrap(imported.exports).Null?
    ensures LoadModuleAsWritten(name, imported) == LoadModule(name, imported)
  {
    if imported.Resolved? {
      CheckAgreesExceptOnNull(ModuleLoader.Unwrap(imported.exports));
    }
  }

  /**
    The discrepancy: a package whose default export is `null` is rejected with
    a TypeError message as written, and with the "does not implement
    ModuleInterface" reason once `null` is excluded.
   */
  lemma NullDefaultExport(name: string)
    ensures LoadModuleAsWritten(name, ModuleLoader.Resolved(Object(map["default" := Null])))
              == Failure(ModuleLoader.FailurePrefix(name) + NullNameRead)
    ensures LoadModule(name, ModuleLoader.Resolved(Object(map["default" := Null])))
              == Failure(ModuleLoader.FailurePrefix(name) + ModuleLoader.NotAModule(name))
  {
  }

  /** `register` is not required here, and a module the newer loader accepts is accepted here too. */
  lemma LooserThanNewerLoader(name: string, imported: ModuleLoader.ImportResult, moduleName: string, migrate: Completion)
    ensures ModuleLoader.LoadModule(name, imported).Success? ==> LoadModule(name, imported).Success?
    ensures LoadModule(name, ModuleLoader.Resolved(Object(map["default" := Object(map["name" := Str(moduleName), "migrate" := Function(migrate)])]))).Success?
  {
  }
}
