/** The configuration and plugin-registry records of the daemon and the
    validation rules over them (globals/types.go). Every check here is a pure
    function of a record value: nothing is updated, so none of them can
    modify the registry or the plugin it inspects. */
module Globals {
  import opened Wrappers

  const ErrInvalidVersion := "invalid registry format version"
  const ErrNameRequired := "plugin name is required"
  const ErrPathRequired := "plugin path is required"

  /** The `[General]` section of config.ini. */
  datatype General = General(
    socketPath: string,
    logLevel: string,
    logFile: string,
    debug: bool,
    debugLogFile: string,
    pluginDir: string,
    pidFile: string,
    pluginRegistryFile: string)

  datatype Config = Config(general: General)

  /** One entry of the registry's `plugins` list. `metaData` (the path of the
      plugin's descriptor file) is read by the route setup although the
      record declaration in globals/types.go lacks it. */
  datatype Plugin = Plugin(
    name: string,
    path: string,
    metaData: string,
    enabled: bool,
    description: string)
  {
    /** The name is checked before the path, so a record with both fields
        empty reports the missing name. */
    function ValidatePlugin(): (err: Option<string>)
      ensures err.None? <==> name != "" && path != ""
      ensures name == "" ==> err == Some(ErrNameRequired)
      ensures name != "" && path == "" ==> err == Some(ErrPathRequired)
    {
      if name == "" then Some(ErrNameRequired)
      else if path == "" then Some(ErrPathRequired)
      else None
    }

    function IsEnabled(): (b: bool)
      ensures b <==> enabled
    {
      enabled
    }
  }

  /** The first validation error of `ps` in list order, if any: the
      `for range` search of `ValidatePlugins`. */
  function FirstPluginError(ps: seq<Plugin>): (err: Option<string>)
    ensures err.None? <==> forall i :: 0 <= i < |ps| ==> ps[i].ValidatePlugin().None?
    ensures err.Some? ==>
      exists k :: 0 <= k < |ps| && ps[k].ValidatePlugin() == err &&
        forall j :: 0 <= j < k ==> ps[j].ValidatePlugin().None?
  {
    if ps == [] then None
    else if ps[0].ValidatePlugin().Some? then ps[0].ValidatePlugin()
    else FirstPluginError(ps[1..])
  }

  datatype PluginRegistry = PluginRegistry(version: int, plugins: seq<Plugin>)
  {
    /** Only format version 1 is accepted; the file name is not consulted. */
    function ValidatePluginRegistryVersion(fileName: string): (res: (bool, Option<string>))
      ensures res.0 <==> version == 1
      ensures res.0 <==> res.1.None?
      ensures !res.0 ==> res.1 == Some(ErrInvalidVersion)
    {
      if version != 1 then (false, Some(ErrInvalidVersion)) else (true, None)
    }

    /** Succeeds exactly when every record is valid (so an empty list is
        valid); otherwise reports the error of the first invalid record. */
    function ValidatePlugins(): (err: Option<string>)
      ensures err.None? <==> forall i :: 0 <= i < |plugins| ==> plugins[i].ValidatePlugin().None?
      ensures plugins == [] ==> err.None?
      ensures err.Some? ==>
        exists k :: 0 <= k < |plugins| && plugins[k].ValidatePlugin() == err &&
          forall j :: 0 <= j < k ==> plugins[j].ValidatePlugin().None?
    {
      FirstPluginError(plugins)
    }
  }

  /** The two ways a record can fail, and only they, are what
      `ValidatePlugins` can report. */
  lemma PluginErrorIsKnownMessage(ps: seq<Plugin>)
    ensures FirstPluginError(ps) in {None, Some(ErrNameRequired), Some(ErrPathRequired)}
  {
  }

  /** Validation looks at nothing but the name and the path of each record. */
  lemma ValidationIgnoresOtherFields(ps: seq<Plugin>, qs: seq<Plugin>)
    requires |ps| == |qs|
    requires forall i :: 0 <= i < |ps| ==> ps[i].name == qs[i].name && ps[i].path == qs[i].path
    ensures FirstPluginError(ps) == FirstPluginError(qs)
  {
  }
}
