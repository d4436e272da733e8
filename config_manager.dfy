/**
  ConfigManager: loads the configuration file once, at construction, through
  a ladder of fallible steps (the file exists, it can be read, it is JSON, it
  has the configuration's structure); the first failing step decides the
  error. The loaded configuration maps each module name to
  `{enabled, settings}`, in the order `Object.entries` lists them.
 */
module Config {
  import opened Wrappers
  import opened OrderedMaps
  import opened Js

  /** One module's entry: `{ enabled: boolean, settings: Record<string, unknown> }`. */
  datatype ModuleConfig = ModuleConfig(enabled: bool, settings: map<string, JsValue>)

  /** The validated configuration: module names in entry order, each bound to its entry. */
  type ConfigType = m: OrderedMap<string, ModuleConfig> | m.Valid() witness OrderedMap([], map[])

  /** `{ name, config }` as `getEnabledModules()` lists it. */
  datatype EnabledModule = EnabledModule(name: string, config: ModuleConfig)

  /** What the file system reports for the configuration path. */
  datatype ConfigFile = Missing | Unreadable(reason: string) | Contents(text: string)

  /**
    `loadConfig()`, with the file system, `JSON.parse` and the schema's
    `parse` given: a missing file, an unreadable file, malformed JSON and a
    structure the schema rejects each fail with their own message, checked in
    that order.
   */
  function LoadConfig(file: ConfigFile, parseJson: string -> Result<JsValue, string>,
                      parseSchema: JsValue -> Result<ConfigType, string>): (r: Result<ConfigType, string>)
    ensures file.Missing? ==> r == Failure("Missing configuration file: dbmconfig.json")
    ensures file.Unreadable? ==> r == Failure("Unreadable configuration file")
    ensures file.Contents? && parseJson(file.text).Failure? ==> r == Failure("Invalid JSON in configuration file")
    ensures (file.Contents? && parseJson(file.text).Success? && parseSchema(parseJson(file.text).value).Failure?)
              ==> r == Failure("Invalid configuration structure")
    ensures r.Success? <==> file.Contents? && parseJson(file.text).Success? && parseSchema(parseJson(file.text).value).Success?
    ensures r.Success? ==> r == parseSchema(parseJson(file.text).value)
  {
    match file
    case Missing => Failure("Missing configuration file: dbmconfig.json")
    case Unreadable(_) => Failure("Unreadable configuration file")
    case Contents(text) =>
      match parseJson(text)
      case Failure(_) => Failure("Invalid JSON in configuration file")
      case Success(json) =>
        match parseSchema(json)
        case Failure(_) => Failure("Invalid configuration structure")
        case Success(config) => Success(config)
  }

  /** The enabled entries among `names`, in their order. */
  function EnabledAmong(config: ConfigType, names: seq<string>): (r: seq<EnabledModule>)
    requires forall j :: 0 <= j < |names| ==> names[j] in config.values
    ensures |r| <= |names|
  {
    if names == [] then []
    else
      var rest := EnabledAmong(config, names[..|names| - 1]);
      var last := names[|names| - 1];
      if config.values[last].enabled then rest + [EnabledModule(last, config.values[last])] else rest
  }

  /** `getEnabledModules()`: the enabled entries, in entry order, each as `{name, config}`. */
  function EnabledModules(config: ConfigType): seq<EnabledModule> {
    EnabledAmong(config, config.keys)
  }

  /** A module is listed among `names`' enabled ones exactly when it is one of them, enabled, with its own entry. */
  lemma {:induction false} EnabledAmongMembership(config: ConfigType, names: seq<string>, e: EnabledModule)
    requires forall j :: 0 <= j < |names| ==> names[j] in config.values
    ensures e in EnabledAmong(config, names) <==>
              e.name in names && config.values[e.name] == e.config && e.config.enabled
  {
    if names != [] {
      var init := names[..|names| - 1];
      EnabledAmongMembership(config, init, e);
      assert names == init + [names[|names| - 1]];
    }
  }

  /** The enabled list has no entry twice, because the configuration has no name twice. */
  lemma {:induction false} EnabledAmongDistinct(config: ConfigType, names: seq<string>)
    requires forall j :: 0 <= j < |names| ==> names[j] in config.values
    requires forall i, j :: 0 <= i < j < |names| ==> names[i] != names[j]
    ensures var r := EnabledAmong(config, names);
            forall i, j :: 0 <= i < j < |r| ==> r[i].name != r[j].name
  {
    if names != [] {
      var init := names[..|names| - 1];
      var last := names[|names| - 1];
      EnabledAmongDistinct(config, init);
      var rest := EnabledAmong(config, init);
      forall i | 0 <= i < |rest| ensures rest[i].name != last {
        EnabledAmongMembership(config, init, rest[i]);
      }
    }
  }

  /**
    `getEnabledModules()` lists exactly the entries whose `enabled` is true,
    each with its own settings, and names no module twice.
   */
  lemma EnabledModulesAreTheEnabledEntries(config: ConfigType, e: EnabledModule)
    ensures e in EnabledModules(config) <==> config.Has(e.name) && config.values[e.name] == e.config && e.config.enabled
    ensures forall i, j :: 0 <= i < j < |EnabledModules(config)| ==> EnabledModules(config)[i].name != EnabledModules(config)[j].name
  {
    EnabledAmongMembership(config, config.keys, e);
    EnabledAmongDistinct(config, config.keys);
  }

  /** The names of the enabled modules, in order (the filter/map of the handler-setup use case). */
  function EnabledNames(config: ConfigType): (names: seq<string>)
    ensures |names| == |EnabledModules(config)|
    ensures forall j :: 0 <= j < |names| ==> names[j] == EnabledModules(config)[j].name
  {
    var ms := EnabledModules(config);
    seq(|ms|, j requires 0 <= j < |ms| => ms[j].name)
  }

  class ConfigManager {
    var config: ConfigType

    /** The manager over a configuration that loaded successfully. */
    constructor (config: ConfigType)
      ensures this.config == config
    {
      this.config := config;
    }

    /** `getModuleConfig(name)`: the module's entry, or an error naming the module when it has none. */
    function GetModuleConfig(moduleName: string): (r: Result<ModuleConfig, string>)
      reads this
      ensures r.Success? <==> config.Has(moduleName)
      ensures r.Success? ==> r.value == config.values[moduleName]
      ensures r.Failure? ==> r.error == "Module config for \"" + moduleName + "\" not found."
    {
      if moduleName in config.values then Success(config.values[moduleName])
      else Failure("Module config for \"" + moduleName + "\" not found.")
    }

    /** `getConfig()`: the loaded configuration; exactly its modules have a module config. */
    function GetConfig(): (r: ConfigType)
      reads this
      ensures forall name :: GetModuleConfig(name).Success? <==> r.Has(name)
    {
      config
    }

    /** `getEnabledModules()` */
    function GetEnabledModules(): (r: seq<EnabledModule>)
      reads this
      ensures forall e :: e in r <==> GetModuleConfig(e.name) == Success(e.config) && e.config.enabled
    {
      forall e ensures e in EnabledModules(config) <==> config.Has(e.name) && config.values[e.name] == e.config && e.config.enabled {
        EnabledModulesAreTheEnabledEntries(config, e);
      }
      EnabledModules(config)
    }
  }

  /**
    `new ConfigManager()`: load the configuration, failing as `loadConfig()`
    does, and keep it for the manager's lifetime.
   */
  method NewConfigManager(file: ConfigFile, parseJson: string -> Result<JsValue, string>,
                          parseSchema: JsValue -> Result<ConfigType, string>) returns (r: Result<ConfigManager, string>)
    ensures r.Failure? ==> LoadConfig(file, parseJson, parseSchema) == Failure(r.error)
    ensures r.Success? ==> fresh(r.value) && LoadConfig(file, parseJson, parseSchema) == Success(r.value.config)
  {
    match LoadConfig(file, parseJson, parseSchema)
    case Failure(e) =>
      r := Failure(e);
    case Success(config) =>
      var manager := new ConfigManager(config);
      r := Success(manager);
  }
}
