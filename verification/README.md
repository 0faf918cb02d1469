# system-confd plugin registry, start-up paths and route setup, in Dafny

This project models the plugin side of `system-confd`, a local
system-configuration daemon that serves an HTTP API over a Unix socket and
hands domain work to plugin executables. Three parts of it are modelled:

- **Registry records and their validation** (`globals/types.go`), in `globals.dfy`.
  `Plugin`, `PluginRegistry`, `General` and `Config` are datatypes. The Go
  methods `ValidatePluginRegistryVersion`, `ValidatePlugin`, `ValidatePlugins`
  and `IsEnabled` are member functions of those datatypes. They are values,
  so none of them can change the record they inspect.
- **Start-up path selection** (`main.go`), in `startup.dfy`. This covers
  `getConfigDir`, `getPluginRegistry`, `checkForPluginDir`, `getPluginDir`
  and the loop in `main` that collects plugin names. `os.Stat` is an oracle
  from a path to `Exists | NotExist | OtherError`.
  `filepath.Dir/Clean/Abs/Join` are uninterpreted functions carried in a
  `PathLib` value, and `Abs` may fail. `os.ReadFile` and `json.Unmarshal`
  are two more oracles. `getPluginRegistry` reassigns its file name step by
  step in the source, so it is a method. It is proved equal to the
  specification function `LoadPluginRegistry`. The name loop fills a fresh
  array by index.
- **Route setup** (`routes/routes.go`), in `routes.dfy`. A gin router group
  is the class `RouterGroup`, which holds its route table as a sequence.
  `Static` and `SetupRoutes` are methods that extend that table. The
  metadata loader and a descriptor's own route binding are the parameters
  `load` and `bind`. `SetupRoutes` is proved to add exactly
  `PluginRoutes(registry.plugins, load, bind)`. The lemmas about
  `PluginRoutes` state the enabled-only, skip-on-load-error and
  registry-order policy.

`wrappers.dfy` holds `Option` (Go's nil-or-error) and `Result` (a value or an error).

Points of the code that the model makes explicit:

- Loading does not validate. Nothing in main.go calls
  `ValidatePluginRegistryVersion` or `ValidatePlugins`, so a registry of any
  version loads as decoded (main.go:104-113).
- `Plugin` has a `metaData` field. `routes/routes.go:25` reads it, although
  the record at globals/types.go:20-25 does not declare it.
- main.go names the registry type `globals.PluginRegstry` (lines 70, 146).
  globals/types.go declares `PluginRegistry`. The model uses the one type
  `PluginRegistry`.
- `routes.SetupRoutes` is declared with a logger parameter
  (routes/routes.go:19) but called without one (main.go:220). Logging is not
  modelled, so the model's `SetupRoutes` takes no logger.
- `getPluginDir` and `checkForPluginDir` read package-level variables that
  `main` shadows (see Findings). In the model, the configuration and the
  registry are explicit parameters.

## Model

| member | source | states |
|---|---|---|
| `Globals.Plugin.ValidatePlugin` | globals/types.go:39-47 | succeeds iff name and path are both non-empty; an empty name reports "plugin name is required" even when the path is empty too; a named record with an empty path reports "plugin path is required" |
| `Globals.Plugin.IsEnabled` | globals/types.go:58-60 | true exactly when the record's `enabled` field is true |
| `Globals.FirstPluginError` | globals/types.go:50-55 | the search loop: no error iff every record validates; otherwise the error of some record k such that all records before k validate (the first failure in list order) |
| `Globals.PluginRegistry.ValidatePluginRegistryVersion` | globals/types.go:32-37 | returns (true, nil) iff version is 1, otherwise (false, "invalid registry format version"); the file name plays no part in the result |
| `Globals.PluginRegistry.ValidatePlugins` | globals/types.go:49-56 | nil iff every plugin record is valid, so an empty list is valid; on failure the error of the first invalid record in list order |
| `Globals.PluginErrorIsKnownMessage` | globals/types.go:39-56 | list validation reports nothing, the missing-name message or the missing-path message, nothing else |
| `Globals.ValidationIgnoresOtherFields` | globals/types.go:39-56 | list validation depends only on each record's name and path (not on enabled, description or metaData) |
| `Startup.GetConfigDir` | main.go:24-51 | fails if the executable's directory cannot be made absolute; returns /etc/system-confd iff it exists; a stat error on /etc/system-confd other than not-exist is returned without the fallback; when /etc/system-confd does not exist, returns `<appdir>/config` unless that is also missing, in which case it fails with that not-exist error; a returned directory is never one reported missing |
| `Startup.ConfigFallbackOnlyWhenPrimaryMissing` | main.go:33-47 | the fallback directory influences the result only when /etc/system-confd is reported missing |
| `Startup.RegistryFileChoice` | main.go:76-101 | the cleaned absolute configured path is used unless reported missing; otherwise the cleaned absolute `<configDir>/plugins.json` is chosen whenever it is not reported missing, and a missing fallback is a not-exist error; a failed Abs on either is an error; a chosen file is never one reported missing |
| `Startup.RegistryFallbackOnlyWhenPrimaryMissing` | main.go:83-101 | the config directory and the fallback file matter only when the configured registry file is reported missing |
| `Startup.LoadPluginRegistry` | main.go:70-114 | path-selection errors are returned as they are; a failed read or decode of the chosen file is a read or decode error naming that file; success iff the chosen file is read and decoded, and then the result is exactly the decoded registry, with no version or record check |
| `Startup.GetPluginRegistry` | main.go:70-114 | the step-by-step method computes exactly `LoadPluginRegistry` |
| `Startup.RegistryLoadDoesNotValidate` | main.go:103-113 | a decoded registry with a version other than 1 loads successfully, unchanged |
| `Startup.FirstMissingPlugin` | main.go:121-127 | no error iff every enabled plugin's path is not reported missing; otherwise the not-exist error of the first enabled plugin whose path is missing, with every enabled plugin before it present |
| `Startup.CheckForPluginDir` | main.go:116-131 | nil whenever the plugin directory is not reported missing; otherwise nil iff no enabled plugin's path is missing, else the error of the first enabled plugin with a missing path |
| `Startup.DisabledPluginsNeverChecked` | main.go:121-127 | the existence of a disabled plugin's path never affects the result |
| `Startup.GetPluginDir` | main.go:133-141 | Dir(path) whenever the plugin has a path, whatever the configuration; otherwise the configured plugin directory if set, else /usr/lib/system-confd/plugins; never empty when Dir never returns the empty path |
| `Startup.PluginNames` | main.go:181-186 | a fresh array as long as the plugin list whose entry i is the name of plugin i |
| `Startup.CheckForPluginDirAsWritten` | main.go:116-131 | over the zero-valued package registry that `main` leaves behind, the check always returns nil |
| `Startup.GetPluginDirAsWritten` | main.go:133-144 | over the zero-valued package configuration, a plugin without a path always gets the built-in default directory |
| `Startup.ShadowedRegistryHidesMissingPlugin` | main.go:116-131 | with nothing on disk and one enabled plugin, the as-written check reports nothing while the check over the loaded registry reports the missing plugin path |
| `Startup.ShadowedConfigIgnoresPluginDir` | main.go:133-141 | with plugin_dir configured and a plugin without a path, the as-written lookup returns the default directory while the lookup over the loaded configuration returns the configured one |
| `Routes.RouterGroup.constructor` | main.go:215-219 | a new group has the given base path and no routes |
| `Routes.RouterGroup.Get` | routes/routes.go:11-16 | appends one GET route with the given path and handler; earlier routes stay in place |
| `Routes.RouterGroup.Register` | routes/routes.go:29 | appends the routes a descriptor binds, in order, after the existing ones |
| `Routes.Static` | routes/routes.go:10-17 | appends exactly four GET routes: "/" to GetRoot, "/health" to HealthCheck, "/version" to Version and "/config" to GetConfig, in that order; the routes already present are unchanged |
| `Routes.Contribution` | routes/routes.go:22-29 | a disabled plugin adds no routes; an enabled plugin whose metadata fails to load adds none; otherwise it adds exactly what binding its loaded metadata yields |
| `Routes.PluginRoutesConcat` | routes/routes.go:21-31 | processing two parts of a registry in turn adds the first part's routes followed by the second's |
| `Routes.PluginRoutesAt` | routes/routes.go:21-31 | every plugin's contribution appears exactly once, after those of the plugins before it and before those of the plugins after it |
| `Routes.LoaderConsultedOnlyForEnabled` | routes/routes.go:21-25 | metadata is loaded for enabled plugins only: loaders that agree on the enabled records yield the same routes |
| `Routes.SilentPluginIsTransparent` | routes/routes.go:21-28 | removing a disabled plugin, or one whose metadata fails to load, from the registry leaves the routes unchanged |
| `Routes.FailureIsIsolated` | routes/routes.go:25-30 | when one enabled plugin's metadata load fails, the routes are exactly those the other plugins bind without that failure, in registry order |
| `Routes.SetupRoutes` | routes/routes.go:19-32 | the group's routes afterwards are the old ones followed by `PluginRoutes` of the registry, the in-order concatenation of each plugin's contribution |

## Left out

- Socket directory creation, umask, the Unix listener, the signal-driven cleanup goroutine and the HTTP server (main.go:222-272) are I/O and concurrency.
- `getConfig` and config.ini parsing (main.go:53-68) are file I/O and INI decoding. `Config` enters the model as a value.
- The loop in `main` that checks each enabled plugin's directory and executable (main.go:194-210) is left out. Its only effects are log lines, and `Logger.Error` ends the process through `log.Fatal` (logger.go:96). The directory it checks is `GetPluginDir`.
- Logging is not modelled anywhere. In particular, the `Logger.Error` calls in `main` terminate the process; they do not log and continue.
- `root` checking, gin engine creation and trusted proxies (main.go:149-158) are left out, as is the wiring of the two groups `/api/v1` and `/api/v1/system/plugins` (main.go:212-220).
- `LoadJSONFromFile` and `LoadPluginMeta` (globals/globals.go) are a file read plus a JSON decode. They appear only as the abstract `load` result used by `SetupRoutes`.
- `PluginMeta`, its `SetupRoutes` method, mount-point validation and subprocess invocation are not part of this model. Their source is not among the files modelled. A descriptor's binding is the abstract `bind`, whose routes are appended to the group.
- The controllers, the model package constants and the keyboard plugin executable are constant responses or separate-process I/O.
- The real semantics of `filepath.Clean/Abs/Dir/Join`, `os.Stat`, `os.ReadFile` and `json.Unmarshal` are uninterpreted.
- Routes.RouterGroup.Get: gin's joining of the group base path with the relative path is not modelled. A route records its path relative to its group.
- Routes.SetupRoutes: the plugin record is passed to the binding by value. The source passes `&plugin`, the address of the `range` variable (routes/routes.go:29); before Go 1.22 that one variable is reused by every iteration, so a binding that keeps the pointer would later see another plugin. That aliasing is not modelled.
- Routes.RouterGroup.Register: a descriptor's binding is assumed only to append routes to the group. What `PluginMeta.SetupRoutes` really does to the group is not part of this model.

## Findings

| source | as written | input that shows it | evidently intended | confidence | as-written member | corrected member |
|---|---|---|---|---|---|---|
| main.go:121 | `checkForPluginDir` loops over the package-level `pluginRegstry`. `main` declares a local of that name with `:=` (main.go:176), so the loop sees the zero-valued registry, which has no plugins. | plugin directory missing, registry with one enabled plugin at `/plugins/keyboard` that is missing too: the check returns nil | search the registry that `main` loaded for an enabled plugin whose path is missing | high; not executed | `Startup.CheckForPluginDirAsWritten` | `Startup.CheckForPluginDir` |
| main.go:137 | `getPluginDir` reads the package-level `config`. `main` shadows it with `:=` (main.go:165), so `plugin_dir` from config.ini is never seen. | `plugin_dir = /opt/plugins`, a plugin with an empty path: the result is `/usr/lib/system-confd/plugins` | fall back to the configured plugin directory before the built-in default | high; not executed | `Startup.GetPluginDirAsWritten` | `Startup.GetPluginDir` |
