/**
 * `RadiumWebUIConfigMap`: the registry of WebUI configs, keyed by the origin
 * `scheme://host` each config serves. A config's answers to
 * `IsWebUIEnabled` and `ShouldHandleURL` are part of the config value; browser
 * contexts are named by numbers and a missing context is `None`.
 */
module RadiumWebUIConfigMap {
  import opened Wrappers

  /** `radium::kRadiumUIScheme`. */
  const RadiumUIScheme: string := "radium"

  /** The parts of a URL the registry looks at. */
  datatype Url = Url(scheme: string, host: string, path: string)

  /** `url::Origin`, for the standard schemes the registry serves. */
  datatype Origin = Origin(scheme: string, host: string)

  /** A `content::WebUIConfig`: its scheme and host, the contexts it is enabled in, and the URLs it handles. */
  datatype Config = Config(scheme: string, host: string, enabledIn: set<nat>, handles: set<Url>)

  /** One entry of `GetWebUIConfigList`. */
  datatype ConfigInfo = ConfigInfo(origin: Origin, enabled: bool)

  /** `url::Origin::Create`. */
  function OriginOf(url: Url): (o: Origin)
    ensures o.scheme == url.scheme && o.host == url.host
  {
    Origin(url.scheme, url.host)
  }

  /** The origin a config is registered under: the origin of the URL `scheme://host`. */
  function ConfigOrigin(c: Config): (o: Origin)
    ensures o == OriginOf(Url(c.scheme, c.host, ""))
  {
    Origin(c.scheme, c.host)
  }

  /** Whether config `c` is enabled for a context; a missing context enables nothing. */
  predicate EnabledFor(c: Config, context: Option<nat>)
  {
    context.Some? && context.value in c.enabledIn
  }

  /** How adding a config ended: stored, or stopped by a `CHECK`. */
  datatype AddResult = Added | WrongScheme | DuplicateOrigin

  class RadiumWebUIConfigMap {
    /** `configs_map_`. */
    var configs: map<Origin, Config>

    /** Every config is stored under its own origin. */
    ghost predicate Valid()
      reads this
    {
      forall o :: o in configs ==> ConfigOrigin(configs[o]) == o
    }

    constructor ()
      ensures Valid() && configs == map[]
    {
      configs := map[];
    }

    /** `AddWebUIConfigImpl`: store under the config's origin; an origin already taken fails the `CHECK`. */
    method AddWebUIConfigImpl(c: Config) returns (r: AddResult)
      requires Valid()
      modifies this
      ensures Valid()
      ensures ConfigOrigin(c) in old(configs) ==> r == DuplicateOrigin && configs == old(configs)
      ensures ConfigOrigin(c) !in old(configs) ==> r == Added && configs == old(configs)[ConfigOrigin(c) := c]
    {
      var origin := ConfigOrigin(c);
      if origin in configs {
        return DuplicateOrigin;
      }
      configs := configs[origin := c];
      r := Added;
    }

    /** `AddWebUIConfig`: only configs of the `radium` scheme may be added. */
    method AddWebUIConfig(c: Config) returns (r: AddResult)
      requires Valid()
      modifies this
      ensures Valid()
      ensures c.scheme != RadiumUIScheme ==> r == WrongScheme && configs == old(configs)
      ensures c.scheme == RadiumUIScheme && ConfigOrigin(c) in old(configs) ==> r == DuplicateOrigin && configs == old(configs)
      ensures c.scheme == RadiumUIScheme && ConfigOrigin(c) !in old(configs) ==>
              r == Added && configs == old(configs)[ConfigOrigin(c) := c]
    {
      if c.scheme != RadiumUIScheme {
        return WrongScheme;
      }
      r := AddWebUIConfigImpl(c);
    }

    /**
     * `GetConfig`: the config serving `url`, provided the URL has the `radium`
     * scheme, a config is registered for its origin, that config is enabled
     * for the context and it handles the URL.
     */
    function GetConfig(context: Option<nat>, url: Url): (r: Option<Config>)
      requires Valid()
      reads this
      ensures r.Some? <==>
              url.scheme == RadiumUIScheme && OriginOf(url) in configs &&
              EnabledFor(configs[OriginOf(url)], context) && url in configs[OriginOf(url)].handles
      ensures r.Some? ==> r.value.scheme == RadiumUIScheme && r.value.host == url.host && r.value == configs[OriginOf(url)]
    {
      if url.scheme != RadiumUIScheme then None
      else if OriginOf(url) !in configs then None
      else
        var c := configs[OriginOf(url)];
        if !EnabledFor(c, context) || url !in c.handles then None
        else Some(c)
    }

    /** `RemoveConfig`: the URL must have the `radium` scheme; the config of its origin, if any, is taken out and returned. */
    method RemoveConfig(url: Url) returns (r: Option<Config>)
      requires Valid() && url.scheme == RadiumUIScheme
      modifies this
      ensures Valid()
      ensures OriginOf(url) !in old(configs) ==> r == None && configs == old(configs)
      ensures OriginOf(url) in old(configs) ==> r == Some(old(configs)[OriginOf(url)]) && configs == old(configs) - {OriginOf(url)}
    {
      var origin := OriginOf(url);
      if origin !in configs {
        return None;
      }
      r := Some(configs[origin]);
      configs := configs - {origin};
    }

    /** `GetWebUIConfigList`: one entry per registered origin, enabled only for a present context the config is enabled in. */
    method GetWebUIConfigList(context: Option<nat>) returns (infos: seq<ConfigInfo>)
      ensures |infos| == |configs|
      ensures forall i :: 0 <= i < |infos| ==>
                infos[i].origin in configs && infos[i].enabled == EnabledFor(configs[infos[i].origin], context)
      ensures forall o :: o in configs ==> exists i :: 0 <= i < |infos| && infos[i].origin == o
      ensures context == None ==> forall i :: 0 <= i < |infos| ==> !infos[i].enabled
    {
      infos := [];
      var rest := configs.Keys;
      while rest != {}
        invariant rest <= configs.Keys
        invariant |infos| + |rest| == |configs|
        invariant forall i :: 0 <= i < |infos| ==>
                    infos[i].origin in configs && infos[i].origin !in rest &&
                    infos[i].enabled == EnabledFor(configs[infos[i].origin], context)
        invariant forall o :: o in configs && o !in rest ==> exists i :: 0 <= i < |infos| && infos[i].origin == o
        decreases |rest|
      {
        var o :| o in rest;
        ghost var before := infos;
        infos := infos + [ConfigInfo(o, context.Some? && context.value in configs[o].enabledIn)];
        forall q | q in configs && q !in rest - {o}
          ensures exists i :: 0 <= i < |infos| && infos[i].origin == q
        {
          if q == o {
            assert infos[|infos| - 1].origin == q;
          } else {
            var i :| 0 <= i < |before| && before[i].origin == q;
            assert infos[i].origin == q;
          }
        }
        rest := rest - {o};
      }
    }
  }

  /** Adding a config and removing its origin again gives the config back and restores the registry. */
  method AddThenRemove(c: Config, path: string) returns (removed: Option<Config>, empty: bool)
    requires c.scheme == RadiumUIScheme
    ensures removed == Some(c) && empty
  {
    var m := new RadiumWebUIConfigMap();
    var added := m.AddWebUIConfig(c);
    removed := m.RemoveConfig(Url(c.scheme, c.host, path));
    empty := m.configs == map[];
  }

  /** A second config for the same origin is refused and the first stays registered. */
  method SecondAddRefused(a: Config, b: Config) returns (second: AddResult, kept: Option<Config>)
    requires a.scheme == RadiumUIScheme && b.scheme == RadiumUIScheme && a.host == b.host
    ensures second == DuplicateOrigin && kept == Some(a)
  {
    var m := new RadiumWebUIConfigMap();
    var first := m.AddWebUIConfig(a);
    second := m.AddWebUIConfig(b);
    var removed := m.RemoveConfig(Url(a.scheme, a.host, ""));
    kept := removed;
  }
}
