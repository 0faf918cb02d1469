/** The start-up decisions of the daemon's `main` package (main.go): which
    configuration directory and which registry file are used, which plugin
    directory a plugin lives in, whether enabled plugins are present, and the
    list of plugin names. The file system and the path library are not
    interpreted: `os.Stat` is an oracle from path to `StatResult`, and
    `filepath.Dir/Clean/Abs/Join` are the fields of a `PathLib` value. */
module Startup {
  import opened Wrappers
  import opened Globals

  const EtcConfigDir := "/etc/system-confd"
  const ConfigSubdir := "config"
  const RegistryFileName := "plugins.json"
  const DefaultPluginDir := "/usr/lib/system-confd/plugins"

  /** What `os.Stat` reports for a path. Only `os.IsNotExist` is ever consulted,
      so `OtherError` takes the same branch as `Exists` wherever the source
      does not check `err != nil` separately. */
  datatype StatResult = Exists | NotExist | OtherError(reason: string)

  type FileSystem = string -> StatResult

  /** `filepath.Dir`, `filepath.Clean`, `filepath.Abs` (which can fail) and
      `filepath.Join` of two components. */
  datatype PathLib = PathLib(
    dir: string -> string,
    clean: string -> string,
    abs: string -> Result<string, string>,
    join: (string, string) -> string)

  /** `filepath.Dir` never yields the empty path. */
  ghost predicate DirNeverEmpty(lib: PathLib)
  {
    forall p :: lib.dir(p) != ""
  }

  /** The errors `main` can receive from these helpers: a failed `os.Stat`
      (carrying what it reported), a failed `filepath.Abs`, a failed
      `os.ReadFile` and a failed `json.Unmarshal`. */
  datatype Error =
    | StatFailed(path: string, cause: StatResult)
    | AbsFailed(path: string, reason: string)
    | ReadFailed(path: string, reason: string)
    | DecodeFailed(path: string, reason: string)

  // ---------------------------------------------------------------------------
  // getConfigDir

  /** The absolute directory of the executable, from `os.Args[0]`. */
  function AppDir(argv0: string, lib: PathLib): Result<string, string>
  {
    lib.abs(lib.dir(argv0))
  }

  /** `/etc/system-confd` when it exists; otherwise, only when it does not
      exist, `<appdir>/config`. Any other stat error on `/etc/system-confd`
      is returned without looking at the fallback, and the fallback is
      used unless it is reported missing. */
  function GetConfigDir(argv0: string, fs: FileSystem, lib: PathLib): (r: Result<string, Error>)
    ensures AppDir(argv0, lib).Err? ==> r == Err(AbsFailed(lib.dir(argv0), AppDir(argv0, lib).error))
    ensures AppDir(argv0, lib).Ok? ==> (r == Ok(EtcConfigDir) <==> fs(EtcConfigDir) == Exists)
    ensures AppDir(argv0, lib).Ok? && fs(EtcConfigDir).OtherError? ==>
      r == Err(StatFailed(EtcConfigDir, fs(EtcConfigDir)))
    ensures AppDir(argv0, lib).Ok? && fs(EtcConfigDir) == NotExist ==>
      var fallback := lib.join(AppDir(argv0, lib).value, ConfigSubdir);
      && (r.Ok? <==> fs(fallback) != NotExist)
      && (r.Ok? ==> r.value == fallback)
      && (r.Err? ==> r.error == StatFailed(fallback, NotExist))
    ensures r.Ok? ==> fs(r.value) != NotExist
  {
    match AppDir(argv0, lib)
    case Err(e) => Err(AbsFailed(lib.dir(argv0), e))
    case Ok(appdir) =>
      match fs(EtcConfigDir)
      case NotExist =>
        var fallback := lib.join(appdir, ConfigSubdir);
        if fs(fallback) == NotExist then Err(StatFailed(fallback, NotExist))
        else Ok(fallback)
      case OtherError(_) => Err(StatFailed(EtcConfigDir, fs(EtcConfigDir)))
      case Exists => Ok(EtcConfigDir)
  }

  /** The fallback directory is consulted only when `/etc/system-confd` is
      reported missing: two file systems that agree on it, and on which it is
      not missing, give the same answer whatever they say about the rest. */
  lemma ConfigFallbackOnlyWhenPrimaryMissing(argv0: string, fs1: FileSystem, fs2: FileSystem, lib: PathLib)
    requires fs1(EtcConfigDir) == fs2(EtcConfigDir) != NotExist
    ensures GetConfigDir(argv0, fs1, lib) == GetConfigDir(argv0, fs2, lib)
  {
  }

  // ---------------------------------------------------------------------------
  // getPluginRegistry

  /** The cleaned, absolute form of a path. */
  function Canonical(path: string, lib: PathLib): Result<string, string>
  {
    lib.abs(lib.clean(path))
  }

  /** The registry file `getPluginRegistry` reads: the canonical configured
      path unless it is reported missing, else the canonical
      `<configDir>/plugins.json`, which must not be reported missing. */
  function RegistryFileChoice(pluginRegistryFile: string, configDir: string, fs: FileSystem, lib: PathLib): (r: Result<string, Error>)
    ensures Canonical(pluginRegistryFile, lib).Err? ==>
      r == Err(AbsFailed(lib.clean(pluginRegistryFile), Canonical(pluginRegistryFile, lib).error))
    ensures Canonical(pluginRegistryFile, lib).Ok? && fs(Canonical(pluginRegistryFile, lib).value) != NotExist ==>
      r == Ok(Canonical(pluginRegistryFile, lib).value)
    ensures Canonical(pluginRegistryFile, lib).Ok? && fs(Canonical(pluginRegistryFile, lib).value) == NotExist ==>
      var fallback := lib.join(configDir, RegistryFileName);
      && (Canonical(fallback, lib).Err? ==> r == Err(AbsFailed(lib.clean(fallback), Canonical(fallback, lib).error)))
      && (Canonical(fallback, lib).Ok? && fs(Canonical(fallback, lib).value) == NotExist ==>
            r == Err(StatFailed(Canonical(fallback, lib).value, NotExist)))
      && (Canonical(fallback, lib).Ok? && fs(Canonical(fallback, lib).value) != NotExist ==>
            r == Ok(Canonical(fallback, lib).value))
      && (r.Ok? ==> r == Ok(Canonical(fallback, lib).value))
    ensures r.Ok? ==> fs(r.value) != NotExist
  {
    match Canonical(pluginRegistryFile, lib)
    case Err(e) => Err(AbsFailed(lib.clean(pluginRegistryFile), e))
    case Ok(absPath) =>
      if fs(absPath) != NotExist then Ok(absPath)
      else
        var fallback := lib.join(configDir, RegistryFileName);
        match Canonical(fallback, lib)
        case Err(e) => Err(AbsFailed(lib.clean(fallback), e))
        case Ok(absFallback) =>
          if fs(absFallback) == NotExist then Err(StatFailed(absFallback, NotExist))
          else Ok(absFallback)
  }

  /** The fallback registry file is consulted only when the configured one is
      reported missing. */
  lemma RegistryFallbackOnlyWhenPrimaryMissing(pluginRegistryFile: string, configDir1: string, configDir2: string,
                                               fs1: FileSystem, fs2: FileSystem, lib: PathLib)
    requires Canonical(pluginRegistryFile, lib).Ok?
    requires fs1(Canonical(pluginRegistryFile, lib).value) == fs2(Canonical(pluginRegistryFile, lib).value) != NotExist
    ensures RegistryFileChoice(pluginRegistryFile, configDir1, fs1, lib) == RegistryFileChoice(pluginRegistryFile, configDir2, fs2, lib)
  {
  }

  /** Loading the registry: read the chosen file and decode it. The decoded
      registry is returned as it is: neither its version nor its records are
      validated on this path. */
  function LoadPluginRegistry(pluginRegistryFile: string, configDir: string, fs: FileSystem, lib: PathLib,
                              readFile: string -> Result<string, string>,
                              decode: string -> Result<PluginRegistry, string>): (r: Result<PluginRegistry, Error>)
    ensures RegistryFileChoice(pluginRegistryFile, configDir, fs, lib).Err? ==>
      r == Err(RegistryFileChoice(pluginRegistryFile, configDir, fs, lib).error)
    ensures r.Ok? <==>
      var file := RegistryFileChoice(pluginRegistryFile, configDir, fs, lib);
      file.Ok? && readFile(file.value).Ok? && decode(readFile(file.value).value).Ok?
    ensures r.Ok? ==>
      var file := RegistryFileChoice(pluginRegistryFile, configDir, fs, lib).value;
      decode(readFile(file).value) == Ok(r.value)
    ensures RegistryFileChoice(pluginRegistryFile, configDir, fs, lib).Ok? ==>
      var file := RegistryFileChoice(pluginRegistryFile, configDir, fs, lib).value;
      && (readFile(file).Err? ==> r == Err(ReadFailed(file, readFile(file).error)))
      && (readFile(file).Ok? && decode(readFile(file).value).Err? ==>
            r == Err(DecodeFailed(file, decode(readFile(file).value).error)))
  {
    match RegistryFileChoice(pluginRegistryFile, configDir, fs, lib)
    case Err(e) => Err(e)
    case Ok(file) =>
      match readFile(file)
      case Err(e) => Err(ReadFailed(file, e))
      case Ok(jsonContent) =>
        match decode(jsonContent)
        case Err(e) => Err(DecodeFailed(file, e))
        case Ok(registry) => Ok(registry)
  }

  /** `getPluginRegistry`: the file name is cleaned and made absolute, then
      replaced by the fallback when missing, then read and decoded. */
  method GetPluginRegistry(pluginRegistryFile: string, configDir: string, fs: FileSystem, lib: PathLib,
                           readFile: string -> Result<string, string>,
                           decode: string -> Result<PluginRegistry, string>) returns (r: Result<PluginRegistry, Error>)
    ensures r == LoadPluginRegistry(pluginRegistryFile, configDir, fs, lib, readFile, decode)
  {
    var file := pluginRegistryFile;
    var cleanPath := lib.clean(file);
    var absPath := lib.abs(cleanPath);
    if absPath.Err? {
      return Err(AbsFailed(cleanPath, absPath.error));
    }
    if fs(absPath.value) == NotExist {
      var registryFile := lib.join(configDir, RegistryFileName);
      var cleanRegistryFile := lib.clean(registryFile);
      var absRegistryFile := lib.abs(cleanRegistryFile);
      if absRegistryFile.Err? {
        return Err(AbsFailed(cleanRegistryFile, absRegistryFile.error));
      }
      if fs(absRegistryFile.value) == NotExist {
        return Err(StatFailed(absRegistryFile.value, NotExist));
      }
      file := absRegistryFile.value;
    } else {
      file := absPath.value;
    }
    var jsonContent := readFile(file);
    if jsonContent.Err? {
      return Err(ReadFailed(file, jsonContent.error));
    }
    var registry := decode(jsonContent.value);
    if registry.Err? {
      return Err(DecodeFailed(file, registry.error));
    }
    return Ok(registry.value);
  }

  /** A registry of any version, with records of any shape, loads as it is. */
  lemma RegistryLoadDoesNotValidate(pluginRegistryFile: string, configDir: string, fs: FileSystem, lib: PathLib,
                                    readFile: string -> Result<string, string>,
                                    decode: string -> Result<PluginRegistry, string>,
                                    jsonContent: string, registry: PluginRegistry)
    requires RegistryFileChoice(pluginRegistryFile, configDir, fs, lib).Ok?
    requires readFile(RegistryFileChoice(pluginRegistryFile, configDir, fs, lib).value) == Ok(jsonContent)
    requires decode(jsonContent) == Ok(registry)
    requires !registry.ValidatePluginRegistryVersion(pluginRegistryFile).0
    ensures LoadPluginRegistry(pluginRegistryFile, configDir, fs, lib, readFile, decode) == Ok(registry)
  {
  }

  // ---------------------------------------------------------------------------
  // checkForPluginDir

  /** The error of the first enabled plugin whose path is reported missing;
      disabled plugins are skipped without looking at their path. */
  function FirstMissingPlugin(ps: seq<Plugin>, fs: FileSystem): (err: Option<Error>)
    ensures err.None? <==> forall i :: 0 <= i < |ps| && ps[i].enabled ==> fs(ps[i].path) != NotExist
    ensures err.Some? ==>
      exists k :: 0 <= k < |ps| && ps[k].enabled && fs(ps[k].path) == NotExist &&
        err == Some(StatFailed(ps[k].path, NotExist)) &&
        forall j :: 0 <= j < k && ps[j].enabled ==> fs(ps[j].path) != NotExist
  {
    if ps == [] then None
    else if ps[0].IsEnabled() && fs(ps[0].path) == NotExist then Some(StatFailed(ps[0].path, NotExist))
    else FirstMissingPlugin(ps[1..], fs)
  }

  /** `checkForPluginDir`: no error while the plugin directory is not
      reported missing; otherwise the first enabled plugin with a missing
      path. The registry is a parameter here (see `CheckForPluginDirAsWritten`). */
  function CheckForPluginDir(pluginDir: string, registry: PluginRegistry, fs: FileSystem): (err: Option<Error>)
    ensures fs(pluginDir) != NotExist ==> err.None?
    ensures err.None? <==>
      fs(pluginDir) != NotExist ||
      forall i :: 0 <= i < |registry.plugins| && registry.plugins[i].enabled ==>
        fs(registry.plugins[i].path) != NotExist
    ensures err.Some? ==>
      exists k :: 0 <= k < |registry.plugins| && registry.plugins[k].enabled &&
        fs(registry.plugins[k].path) == NotExist &&
        err == Some(StatFailed(registry.plugins[k].path, NotExist)) &&
        forall j :: 0 <= j < k && registry.plugins[j].enabled ==> fs(registry.plugins[j].path) != NotExist
  {
    if fs(pluginDir) == NotExist then FirstMissingPlugin(registry.plugins, fs) else None
  }

  /** The paths of disabled plugins are never examined: file systems that
      agree on the paths of the enabled plugins give the same answer. */
  lemma DisabledPluginsNeverChecked(ps: seq<Plugin>, fs1: FileSystem, fs2: FileSystem)
    requires forall i :: 0 <= i < |ps| && ps[i].enabled ==> fs1(ps[i].path) == fs2(ps[i].path)
    ensures FirstMissingPlugin(ps, fs1) == FirstMissingPlugin(ps, fs2)
  {
  }

  // ---------------------------------------------------------------------------
  // getPluginDir

  /** A plugin's own directory when it declares a path, whatever the
      configuration says; else the configured plugin directory when set;
      else the built-in default. */
  function GetPluginDir(plugin: Plugin, config: Config, lib: PathLib): (dir: string)
    ensures plugin.path != "" ==> dir == lib.dir(plugin.path)
    ensures plugin.path == "" && config.general.pluginDir != "" ==> dir == config.general.pluginDir
    ensures plugin.path == "" && config.general.pluginDir == "" ==> dir == DefaultPluginDir
    ensures DirNeverEmpty(lib) ==> dir != ""
  {
    if plugin.path != "" then lib.dir(plugin.path)
    else if config.general.pluginDir != "" then config.general.pluginDir
    else DefaultPluginDir
  }

  // ---------------------------------------------------------------------------
  // the pluginNames loop of main

  /** The names of the registry's plugins, index-aligned with the plugins. */
  method PluginNames(registry: PluginRegistry) returns (pluginNames: array<string>)
    ensures fresh(pluginNames)
    ensures pluginNames.Length == |registry.plugins|
    ensures forall i :: 0 <= i < |registry.plugins| ==> pluginNames[i] == registry.plugins[i].name
  {
    pluginNames := new string[|registry.plugins|];
    for i := 0 to |registry.plugins|
      invariant forall j :: 0 <= j < i ==> pluginNames[j] == registry.plugins[j].name
    {
      pluginNames[i] := registry.plugins[i].name;
    }
  }

  // ---------------------------------------------------------------------------
  // The package-level `config` and `pluginRegstry` as main.go leaves them

  /** `main` declares locals named `config` and `pluginRegstry` with `:=`,
      so the package-level variables that `getPluginDir` and
      `checkForPluginDir` read keep their zero values. */
  const ZeroConfig := Config(General("", "", "", false, "", "", "", ""))
  const ZeroRegistry := PluginRegistry(0, [])

  /** `checkForPluginDir` as main.go runs it, over the zero registry: it
      can never report a missing plugin. */
  function CheckForPluginDirAsWritten(pluginDir: string, fs: FileSystem): (err: Option<Error>)
    ensures err.None?
  {
    CheckForPluginDir(pluginDir, ZeroRegistry, fs)
  }

  /** `getPluginDir` as main.go runs it, over the zero configuration: a
      plugin without a path always gets the built-in default. */
  function GetPluginDirAsWritten(plugin: Plugin, lib: PathLib): (dir: string)
    ensures plugin.path == "" ==> dir == DefaultPluginDir
  {
    GetPluginDir(plugin, ZeroConfig, lib)
  }

  function NothingExists(path: string): StatResult
  {
    NotExist
  }

  /** With neither the plugin directory nor an enabled plugin present, the
      as-written check reports nothing, while the check over the loaded
      registry reports the missing plugin. */
  lemma ShadowedRegistryHidesMissingPlugin()
    ensures CheckForPluginDirAsWritten(DefaultPluginDir, NothingExists).None?
    ensures
      var keyboard := Plugin("keyboard", "/plugins/keyboard", "/plugins/keyboard/meta.json", true, "");
      CheckForPluginDir(DefaultPluginDir, PluginRegistry(1, [keyboard]), NothingExists)
        == Some(StatFailed("/plugins/keyboard", NotExist))
  {
  }

  /** With `plugin_dir` configured and a plugin without a path, the
      as-written lookup ignores the configured directory. */
  lemma ShadowedConfigIgnoresPluginDir(lib: PathLib)
    ensures
      var plugin := Plugin("keyboard", "", "", true, "");
      var config := Config(ZeroConfig.general.(pluginDir := "/opt/plugins"));
      GetPluginDirAsWritten(plugin, lib) == DefaultPluginDir &&
      GetPluginDir(plugin, config, lib) == "/opt/plugins"
  {
  }
}
