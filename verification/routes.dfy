/** Route registration (routes/routes.go). A gin router group is a class
    whose route table the registration methods extend in place. The
    per-plugin metadata loader (`globals.LoadPluginMeta`) and the
    descriptor's own route binding (`PluginMeta.SetupRoutes`) are not part
    of this model: they are the parameters `load` and `bind`. */
module Routes {
  import opened Wrappers
  import opened Globals

  datatype HttpMethod = GET | POST

  /** The controller methods of `controllers.SystemConfd`, and whatever a
      plugin descriptor binds (named by plugin and a key of its own). */
  datatype Handler =
    | GetRoot
    | HealthCheck
    | Version
    | GetConfig
    | PluginEndpoint(plugin: string, key: string)

  /** One registered route: method, path relative to the group, handler. */
  datatype Route = Route(verb: HttpMethod, relativePath: string, handler: Handler)

  /** A gin `RouterGroup`: a base path and the routes registered under it,
      in registration order. */
  class RouterGroup {
    const basePath: string
    var routes: seq<Route>

    constructor (basePath: string)
      ensures this.basePath == basePath && routes == []
    {
      this.basePath := basePath;
      routes := [];
    }

    /** `g.GET(relativePath, handler)`. */
    method Get(relativePath: string, handler: Handler)
      modifies this
      ensures routes == old(routes) + [Route(GET, relativePath, handler)]
    {
      routes := routes + [Route(GET, relativePath, handler)];
    }

    /** The routes a plugin descriptor binds, appended in its order. */
    method Register(rs: seq<Route>)
      modifies this
      ensures routes == old(routes) + rs
    {
      routes := routes + rs;
    }
  }

  /** `Static`: the four fixed GET routes, in this order, after whatever the
      group already holds. */
  method Static(g: RouterGroup)
    modifies g
    ensures g.routes == old(g.routes) + [Route(GET, "/", GetRoot), Route(GET, "/health", HealthCheck),
                                         Route(GET, "/version", Version), Route(GET, "/config", GetConfig)]
  {
    g.Get("/", GetRoot);
    g.Get("/health", HealthCheck);
    g.Get("/version", Version);
    g.Get("/config", GetConfig);
  }

  /** The routes one plugin record adds: none when it is disabled (its
      metadata is then not loaded), none when its metadata fails to load,
      else exactly what its descriptor binds. */
  function Contribution<M>(p: Plugin, load: (string, string) -> Result<M, string>,
                           bind: (M, Plugin) -> seq<Route>): (rs: seq<Route>)
    ensures !p.enabled ==> rs == []
    ensures p.enabled && load(p.path, p.metaData).Err? ==> rs == []
    ensures p.enabled && load(p.path, p.metaData).Ok? ==> rs == bind(load(p.path, p.metaData).value, p)
  {
    if !p.IsEnabled() then []
    else match load(p.path, p.metaData)
      case Err(_) => []
      case Ok(meta) => bind(meta, p)
  }

  /** The routes a sequence of plugin records adds, in registry order. */
  function PluginRoutes<M>(ps: seq<Plugin>, load: (string, string) -> Result<M, string>,
                           bind: (M, Plugin) -> seq<Route>): seq<Route>
  {
    if ps == [] then [] else Contribution(ps[0], load, bind) + PluginRoutes(ps[1..], load, bind)
  }

  /** Processing two parts of a registry one after the other adds the
      routes of the first part followed by those of the second. */
  lemma {:induction false} PluginRoutesConcat<M>(ps: seq<Plugin>, qs: seq<Plugin>,
                                                 load: (string, string) -> Result<M, string>,
                                                 bind: (M, Plugin) -> seq<Route>)
    ensures PluginRoutes(ps + qs, load, bind) == PluginRoutes(ps, load, bind) + PluginRoutes(qs, load, bind)
  {
    if ps == [] {
      assert ps + qs == qs;
    } else {
      assert (ps + qs)[1..] == ps[1..] + qs;
      PluginRoutesConcat(ps[1..], qs, load, bind);
    }
  }

  /** Every plugin's routes appear exactly once, at its place in registry
      order: after those of the plugins before it and before those of the
      plugins after it. */
  lemma {:induction false} PluginRoutesAt<M>(ps: seq<Plugin>, k: nat,
                          load: (string, string) -> Result<M, string>,
                          bind: (M, Plugin) -> seq<Route>)
    requires k < |ps|
    ensures PluginRoutes(ps, load, bind)
         == PluginRoutes(ps[..k], load, bind) + Contribution(ps[k], load, bind) + PluginRoutes(ps[k + 1..], load, bind)
  {
    var rest := ps[k..];
    assert ps == ps[..k] + rest;
    PluginRoutesConcat(ps[..k], rest, load, bind);
    assert rest[0] == ps[k] && rest[1..] == ps[k + 1..];
  }

  /** The metadata loader is consulted for enabled plugins only: loaders
      that agree on the enabled records give the same routes, whatever they
      would answer for the disabled ones. */
  lemma {:induction false} LoaderConsultedOnlyForEnabled<M>(ps: seq<Plugin>,
                                                               load1: (string, string) -> Result<M, string>,
                                                               load2: (string, string) -> Result<M, string>,
                                                               bind: (M, Plugin) -> seq<Route>)
    requires forall i :: 0 <= i < |ps| && ps[i].enabled ==>
      load1(ps[i].path, ps[i].metaData) == load2(ps[i].path, ps[i].metaData)
    ensures PluginRoutes(ps, load1, bind) == PluginRoutes(ps, load2, bind)
  {
    if ps != [] {
      assert ps[0].enabled ==> load1(ps[0].path, ps[0].metaData) == load2(ps[0].path, ps[0].metaData);
      LoaderConsultedOnlyForEnabled(ps[1..], load1, load2, bind);
    }
  }

  /** A disabled plugin, or one whose metadata fails to load, is
      transparent: the registry without it yields the same routes. */
  lemma {:induction false} SilentPluginIsTransparent<M>(ps: seq<Plugin>, k: nat,
                                     load: (string, string) -> Result<M, string>,
                                     bind: (M, Plugin) -> seq<Route>)
    requires k < |ps|
    requires !ps[k].enabled || load(ps[k].path, ps[k].metaData).Err?
    ensures PluginRoutes(ps[..k] + ps[k + 1..], load, bind) == PluginRoutes(ps, load, bind)
  {
    PluginRoutesAt(ps, k, load, bind);
    PluginRoutesConcat(ps[..k], ps[k + 1..], load, bind);
  }

  /** Partial failure: when the metadata of plugin `k` fails to load and
      the loader is otherwise unchanged, every other plugin binds exactly
      what it binds when plugin `k` loads, in the same order. */
  lemma {:induction false} FailureIsIsolated<M>(ps: seq<Plugin>, k: nat,
                                 load: (string, string) -> Result<M, string>,
                                 failing: (string, string) -> Result<M, string>,
                                 bind: (M, Plugin) -> seq<Route>)
    requires k < |ps| && ps[k].enabled
    requires failing(ps[k].path, ps[k].metaData).Err?
    requires forall i :: 0 <= i < |ps| && i != k && ps[i].enabled ==>
      failing(ps[i].path, ps[i].metaData) == load(ps[i].path, ps[i].metaData)
    ensures PluginRoutes(ps, failing, bind) == PluginRoutes(ps[..k], load, bind) + PluginRoutes(ps[k + 1..], load, bind)
  {
    PluginRoutesAt(ps, k, failing, bind);
    var before, after := ps[..k], ps[k + 1..];
    assert forall i :: 0 <= i < |before| && before[i].enabled ==>
      failing(before[i].path, before[i].metaData) == load(before[i].path, before[i].metaData)
    by {
      forall i | 0 <= i < |before| && before[i].enabled
        ensures failing(before[i].path, before[i].metaData) == load(before[i].path, before[i].metaData)
      {
        assert before[i] == ps[i];
      }
    }
    assert forall i :: 0 <= i < |after| && after[i].enabled ==>
      failing(after[i].path, after[i].metaData) == load(after[i].path, after[i].metaData)
    by {
      forall i | 0 <= i < |after| && after[i].enabled
        ensures failing(after[i].path, after[i].metaData) == load(after[i].path, after[i].metaData)
      {
        assert after[i] == ps[k + 1 + i];
      }
    }
    LoaderConsultedOnlyForEnabled(before, failing, load, bind);
    LoaderConsultedOnlyForEnabled(after, failing, load, bind);
  }

  /** `SetupRoutes`: walk the registry in order; skip disabled plugins;
      load each enabled plugin's metadata, skip it on a load error, else
      bind its routes. */
  method SetupRoutes<M>(g: RouterGroup, registry: PluginRegistry,
                        load: (string, string) -> Result<M, string>,
                        bind: (M, Plugin) -> seq<Route>)
    modifies g
    ensures g.routes == old(g.routes) + PluginRoutes(registry.plugins, load, bind)
  {
    var ps := registry.plugins;
    for i := 0 to |ps|
      invariant g.routes == old(g.routes) + PluginRoutes(ps[..i], load, bind)
    {
      assert ps[..i + 1] == ps[..i] + [ps[i]];
      PluginRoutesConcat(ps[..i], [ps[i]], load, bind);
      var plugin := ps[i];
      if plugin.IsEnabled() {
        var pluginMeta := load(plugin.path, plugin.metaData);
        if pluginMeta.Err? {
          continue;
        }
        g.Register(bind(pluginMeta.value, plugin));
      }
    }
    assert ps[..|ps|] == ps;
  }
}
