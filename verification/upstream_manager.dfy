/** The registry of upstream groups: service name -> group of per-profile upstreams.

    `Upstream`, `UpstreamGroup` and `UpstreamKey` are not part of this model. A group is
    kept as the term of constructor and `addOrUpdate` calls that built it, and a lookup
    inside a group as the pair the lookup is made with, so nothing is assumed about
    their behaviour. The collaborators that parse an upstream name, fetch its
    configuration and fetch its servers are functions given at construction. */
module UpstreamManagers {
  import opened Wrappers
  import opened JavaStrings

  const SCHEMA_SEPARATOR: string := "://"
  const SCHEMA_SEPARATOR_LEN: int := 3

  /** `getNameWithoutScheme`: everything after the first "://", or the whole name when
      there is none. */
  function GetNameWithoutScheme(host: string): (name: string)
    ensures |name| <= |host| && host[|host| - |name|..] == name
    ensures (forall i :: !OccursAt(host, SCHEMA_SEPARATOR, i)) ==> name == host
    ensures (exists i :: OccursAt(host, SCHEMA_SEPARATOR, i)) ==>
      && |name| + |SCHEMA_SEPARATOR| <= |host|
      && var p := host[..|host| - |name| - |SCHEMA_SEPARATOR|];
         host == p + SCHEMA_SEPARATOR + name && forall i :: 0 <= i < |p| ==> !OccursAt(host, SCHEMA_SEPARATOR, i)
  {
    var beginIndex := IndexOf(host, SCHEMA_SEPARATOR) + SCHEMA_SEPARATOR_LEN;
    if beginIndex > 2 then
      assert host == host[..beginIndex - 3] + SCHEMA_SEPARATOR + host[beginIndex..];
      host[beginIndex..]
    else host
  }

  /** A scheme "http://" or "https://" in front of a name without one is stripped off. */
  lemma {:induction false} SchemeIsStripped(scheme: string, name: string)
    requires scheme == "http" || scheme == "https"
    requires forall i :: !OccursAt(name, SCHEMA_SEPARATOR, i)
    ensures GetNameWithoutScheme(scheme + SCHEMA_SEPARATOR + name) == name
    ensures GetNameWithoutScheme(name) == name
  {
    var host := scheme + SCHEMA_SEPARATOR + name;
    assert OccursAt(host, SCHEMA_SEPARATOR, |scheme|);
    forall j | 0 <= j < |scheme| ensures !OccursAt(host, SCHEMA_SEPARATOR, j) {
      assert host[j] == scheme[j] != ':';
    }
    assert IndexOf(host, SCHEMA_SEPARATOR) == |scheme|;
    assert host[|scheme| + 3..] == name;
  }

  datatype UpstreamKey = UpstreamKey(serviceName: string, profileName: string)

  /** The arguments `createUpstream` builds an `Upstream` from. */
  datatype Upstream<C, S> = Upstream(
    key: UpstreamKey, config: C, servers: seq<S>, datacenter: Option<string>, allowCrossDCRequests: bool)

  /** A group as the calls that made it: `new UpstreamGroup(...)`, then `addOrUpdate(...)`
      with the upstream its factory argument creates. */
  datatype UpstreamGroup<C, S> =
    | NewGroup(serviceName: string, profileName: string, upstream: Upstream<C, S>)
    | AddOrUpdate(existing: UpstreamGroup<C, S>, profileName: string, config: C, servers: seq<S>,
                  created: Upstream<C, S>)

  /** What `getUpstream` returns: null, or `group.getUpstreamOrDefault(profile)`. */
  datatype Lookup<C, S> = Unknown | InGroup(group: UpstreamGroup<C, S>, profile: Option<string>)

  /** The datacenter as stored: lower-cased, a null staying null. */
  function NormalizeDatacenter(datacenter: Option<string>): (r: Option<string>)
    ensures r.None? <==> datacenter.None?
    ensures r.Some? ==> r.value == ToLowerCase(datacenter.value)
  {
    if datacenter.None? then None else Some(ToLowerCase(datacenter.value))
  }

  class BalancingUpstreamManager<C, S> {
    var upstreams: map<string, UpstreamGroup<C, S>>
    const datacenter: Option<string>
    const allowCrossDCRequests: bool
    /** `Upstream.UpstreamKey.ofComplexName`. */
    const keyOf: string -> UpstreamKey
    /** The configuration service and `UpstreamConfig.fromApplicationConfig` for a key. */
    const configOf: UpstreamKey -> C
    /** `upstreamService.getServers` for an upstream name. */
    const serversOf: string -> seq<S>

    /** `createUpstream`. */
    function CreateUpstream(key: UpstreamKey, config: C, servers: seq<S>): (u: Upstream<C, S>)
      ensures u.key == key && u.config == config && u.servers == servers
      ensures u.datacenter == datacenter && u.allowCrossDCRequests == allowCrossDCRequests
    {
      Upstream(key, config, servers, datacenter, allowCrossDCRequests)
    }

    /** The registry after `updateUpstream(upstreamName)`: the `compute` on the service name. */
    function Upserted(m: map<string, UpstreamGroup<C, S>>, upstreamName: string): map<string, UpstreamGroup<C, S>>
    {
      var key := keyOf(upstreamName);
      var config := configOf(key);
      var servers := serversOf(upstreamName);
      var created := CreateUpstream(key, config, servers);
      m[key.serviceName :=
          if key.serviceName in m then AddOrUpdate(m[key.serviceName], key.profileName, config, servers, created)
          else NewGroup(key.serviceName, key.profileName, created)]
    }

    /** The registry after updating each name in turn. */
    function UpsertedAll(m: map<string, UpstreamGroup<C, S>>, names: seq<string>): map<string, UpstreamGroup<C, S>>
    {
      if names == [] then m else Upserted(UpsertedAll(m, names[..|names| - 1]), names[|names| - 1])
    }

    constructor (upstreamsList: seq<string>, datacenter: Option<string>, allowCrossDCRequests: bool,
                 keyOf: string -> UpstreamKey, configOf: UpstreamKey -> C, serversOf: string -> seq<S>)
      ensures this.datacenter == NormalizeDatacenter(datacenter)
      ensures this.allowCrossDCRequests == allowCrossDCRequests
      ensures this.keyOf == keyOf && this.configOf == configOf && this.serversOf == serversOf
      ensures upstreams == UpsertedAll(map[], upstreamsList)
    {
      this.datacenter := if datacenter.None? then None else Some(ToLowerCase(datacenter.value));
      this.allowCrossDCRequests := allowCrossDCRequests;
      this.keyOf := keyOf;
      this.configOf := configOf;
      this.serversOf := serversOf;
      upstreams := map[];
      new;
      for i := 0 to |upstreamsList|
        invariant upstreams == UpsertedAll(map[], upstreamsList[..i])
      {
        assert upstreamsList[..i + 1][..i] == upstreamsList[..i];
        UpdateUpstream(upstreamsList[i]);
      }
      assert upstreamsList[..|upstreamsList|] == upstreamsList;
    }

    method UpdateUpstream(upstreamName: string)
      modifies this`upstreams
      ensures upstreams == Upserted(old(upstreams), upstreamName)
    {
      var upstreamKey := keyOf(upstreamName);
      var newConfig := configOf(upstreamKey);
      var servers := serversOf(upstreamName);
      var serviceName := upstreamKey.serviceName;
      var group;
      if serviceName !in upstreams {
        group := NewGroup(serviceName, upstreamKey.profileName, CreateUpstream(upstreamKey, newConfig, servers));
      } else {
        group := AddOrUpdate(upstreams[serviceName], upstreamKey.profileName, newConfig, servers,
                             CreateUpstream(upstreamKey, newConfig, servers));
      }
      upstreams := upstreams[serviceName := group];
    }

    /** `getUpstream`: the group of the name without its scheme, asked for `profile`. */
    function GetUpstream(serviceName: string, profile: Option<string>): (r: Lookup<C, S>)
      reads this
      ensures r.Unknown? <==> GetNameWithoutScheme(serviceName) !in upstreams
      ensures r.InGroup? ==> r == InGroup(upstreams[GetNameWithoutScheme(serviceName)], profile)
    {
      var name := GetNameWithoutScheme(serviceName);
      if name in upstreams then InGroup(upstreams[name], profile) else Unknown
    }

    /** `updateUpstream` writes the entry of its key's service name and nothing else: a new
        group if there was none, the existing group's `addOrUpdate` otherwise. */
    lemma UpsertedChangesOneEntry(m: map<string, UpstreamGroup<C, S>>, upstreamName: string)
      ensures var key := keyOf(upstreamName);
        var m' := Upserted(m, upstreamName);
        && m'.Keys == m.Keys + {key.serviceName}
        && (forall other :: other in m && other != key.serviceName ==> m'[other] == m[other])
        && (key.serviceName !in m ==>
              m'[key.serviceName].NewGroup? && m'[key.serviceName].upstream.key == key)
        && (key.serviceName in m ==>
              && m'[key.serviceName].AddOrUpdate?
              && m'[key.serviceName].existing == m[key.serviceName]
              && m'[key.serviceName].profileName == key.profileName)
    {
    }

    /** Every name of the constructor's list has a group under its service name, and
        nothing else has. */
    lemma {:induction false} UpsertedAllKeys(m: map<string, UpstreamGroup<C, S>>, names: seq<string>, service: string)
      ensures service in UpsertedAll(m, names) <==>
        service in m || exists i :: 0 <= i < |names| && keyOf(names[i]).serviceName == service
    {
      if names != [] {
        var init := names[..|names| - 1];
        UpsertedAllKeys(m, init, service);
        if exists i :: 0 <= i < |names| && keyOf(names[i]).serviceName == service {
          var i :| 0 <= i < |names| && keyOf(names[i]).serviceName == service;
          if i < |init| { assert names[i] == init[i]; }
        }
        if exists i :: 0 <= i < |init| && keyOf(init[i]).serviceName == service {
          var i :| 0 <= i < |init| && keyOf(init[i]).serviceName == service;
          assert names[i] == init[i];
        }
      }
    }
  }

  /** `getUpstream("http://x", p)` and `getUpstream("https://x", p)` resolve like `getUpstream("x", p)`. */
  lemma GetUpstreamIgnoresScheme<C, S>(manager: BalancingUpstreamManager<C, S>, name: string, profile: Option<string>)
    requires forall i :: !OccursAt(name, SCHEMA_SEPARATOR, i)
    ensures manager.GetUpstream("http://" + name, profile) == manager.GetUpstream(name, profile)
    ensures manager.GetUpstream("https://" + name, profile) == manager.GetUpstream(name, profile)
  {
    var http, https := "http://" + name, "https://" + name;
    assert http == "http" + SCHEMA_SEPARATOR + name;
    assert https == "https" + SCHEMA_SEPARATOR + name;
    SchemeIsStripped("http", name);
    SchemeIsStripped("https", name);
  }

  /** After `updateUpstream`, a lookup of its service name (when it has no scheme) finds
      the group just written. */
  lemma LookupAfterUpdate<C, S>(manager: BalancingUpstreamManager<C, S>, m: map<string, UpstreamGroup<C, S>>,
                                upstreamName: string, profile: Option<string>)
    requires manager.upstreams == manager.Upserted(m, upstreamName)
    requires forall i :: !OccursAt(manager.keyOf(upstreamName).serviceName, SCHEMA_SEPARATOR, i)
    ensures var service := manager.keyOf(upstreamName).serviceName;
      manager.GetUpstream(service, profile) == InGroup(manager.upstreams[service], profile)
  {
  }
}
