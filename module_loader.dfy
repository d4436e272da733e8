/**
  `loadModule(name)` of src/domain/service/ModuleLoader.ts: import the named
  package, take its default export when it has one, check that it has the
  shape of a module (a non-null object with a string `name` and `migrate` and
  `register` functions), warn when its name differs from the requested one,
  and wrap every failure as `Failed to load module "<name>": <reason>`.
 */
module ModuleLoader {
  import opened Wrappers
  import opened Js

  /** How the dynamic `import(name)` ends. */
  datatype ImportResult = Resolved(exports: JsValue) | ImportFailed(message: string)

  /** A loaded module, and the name-mismatch warning it produced, if any. */
  datatype Loaded = Loaded(value: JsValue, warning: Option<string>)

  /** The default export when the import is an object with a `default` key, else the import itself. */
  function Unwrap(imported: JsValue): (m: JsValue)
    ensures HasOwn(imported, "default") ==> m == imported.props["default"]
    ensures !HasOwn(imported, "default") ==> m == imported
  {
    if Truthy(imported) && TypeOf(imported) == "object" && HasOwn(imported, "default")
    then imported.props["default"] else imported
  }

  /** A property of an object, `undefined` when absent. */
  function Prop(m: JsValue, key: string): JsValue
    requires m.Object?
  {
    if key in m.props then m.props[key] else Undefined
  }

  /**
    `isValidModule(module)`: the `typeof` checks hold exactly for an object
    that has a string `name` and function `migrate` and `register` properties.
   */
  predicate IsValidModule(m: JsValue): (b: bool)
    ensures b <==> && m.Object?
                   && "name" in m.props && m.props["name"].Str?
                   && "migrate" in m.props && m.props["migrate"].Function?
                   && "register" in m.props && m.props["register"].Function?
  {
    && TypeOf(m) == "object"
    && m != Null
    && TypeOf(Prop(m, "name")) == "string"
    && TypeOf(Prop(m, "migrate")) == "function"
    && TypeOf(Prop(m, "register")) == "function"
  }

  /** The prefix every load failure carries. */
  function FailurePrefix(name: string): string {
    "Failed to load module \"" + name + "\": "
  }

  /** The reason given for a module of the wrong shape. */
  function NotAModule(name: string): string {
    "Module \"" + name + "\" does not implement ModuleInterface"
  }

  /** The warning for a module whose `name` is not the requested one. */
  function MismatchWarning(requested: string, reported: string): string {
    "Module name mismatch: requested \"" + requested + "\" but module reports name \"" + reported + "\""
  }

  /** `loadModule(name)`, with the outcome of `import(name)` given. */
  function LoadModule(name: string, imported: ImportResult): (r: Result<Loaded, string>)
    ensures r.Success? <==> imported.Resolved? && IsValidModule(Unwrap(imported.exports))
    ensures r.Success? ==> r.value.value == Unwrap(imported.exports)
    ensures imported.ImportFailed? ==> r == Failure(FailurePrefix(name) + imported.message)
    ensures imported.Resolved? && !IsValidModule(Unwrap(imported.exports)) ==> r == Failure(FailurePrefix(name) + NotAModule(name))
  {
    match imported
    case ImportFailed(msg) => Failure(FailurePrefix(name) + msg)
    case Resolved(exports) =>
      var m := Unwrap(exports);
      if !IsValidModule(m) then Failure(FailurePrefix(name) + NotAModule(name))
      else
        var reported := Prop(m, "name").s;
        Success(Loaded(m, if reported != name then Some(MismatchWarning(name, reported)) else None))
  }

  /**
    A loaded module has the module shape, and a name mismatch only warns: the
    module is returned either way, with a warning exactly when the names differ.
   */
  lemma LoadedModuleShape(name: string, imported: ImportResult)
    requires LoadModule(name, imported).Success?
    ensures var l := LoadModule(name, imported).value;
            && l.value.Object? && Prop(l.value, "name").Str? && Prop(l.value, "migrate").Function?
            && Prop(l.value, "register").Function?
            && (l.warning.Some? <==> Prop(l.value, "name").s != name)
            && (l.warning.Some? ==> l.warning.value == MismatchWarning(name, Prop(l.value, "name").s))
  {
  }

  /** Every failure, whatever its cause, is reported under the `Failed to load module "<name>": ` prefix. */
  lemma FailuresArePrefixed(name: string, imported: ImportResult)
    requires LoadModule(name, imported).Failure?
    ensures FailurePrefix(name) <= LoadModule(name, imported).error
  {
    var reason := if imported.ImportFailed? then imported.message else NotAModule(name);
    assert LoadModule(name, imported).error == FailurePrefix(name) + reason;
  }

  /** A module without `register`, a `null` default export and a string default export are all rejected as not modules. */
  lemma ShapeRejections(name: string, moduleName: string, migrate: Completion)
    ensures LoadModule(name, Resolved(Object(map["default" := Object(map["name" := Str(moduleName), "migrate" := Function(migrate)])])))
              == Failure(FailurePrefix(name) + NotAModule(name))
    ensures LoadModule(name, Resolved(Object(map["default" := Null]))) == Failure(FailurePrefix(name) + NotAModule(name))
    ensures LoadModule(name, Resolved(Object(map["default" := Str("just a string")]))) == Failure(FailurePrefix(name) + NotAModule(name))
  {
    var m := Object(map["name" := Str(moduleName), "migrate" := Function(migrate)]);
    assert Prop(m, "register") == Undefined;
  }
}
