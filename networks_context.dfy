/** The "networks" task context, xrally_docker/task/contexts/networks.py:
    `setup` creates one Docker network per configured entry, after
    defaulting the IPAM options, and `cleanup` asks the cleanup engine
    for the "network" kind only. */
module NetworksContext {
  import opened Wrappers
  import Resources
  import Resolver
  import Manager

  /** A JSON value of the context configuration. */
  datatype Json =
    | JNull
    | JBool(b: bool)
    | JNum(n: int)
    | JStr(s: string)
    | JArr(items: seq<Json>)
    | JObj(fields: map<string, Json>)

  /** The keyword arguments of one `create_network` call. */
  type NetworkConfig = map<string, Json>

  /** The context's configuration: one network, or a list of them. */
  datatype Config = Single(network: NetworkConfig) | Several(networks: seq<NetworkConfig>)

  /** A single network is treated as a one-element list. */
  function Entries(config: Config): (entries: seq<NetworkConfig>)
    ensures config.Single? ==> entries == [config.network]
    ensures config.Several? ==> entries == config.networks
  {
    match config
    case Single(network) => [network]
    case Several(networks) => networks
  }

  /** The configuration schema makes "ipam" an object wherever it appears. */
  predicate WellFormed(network: NetworkConfig)
  {
    "ipam" in network ==> network["ipam"].JObj?
  }

  /** `net_cfg["ipam"].setdefault("Options", {})` on a copy of the entry:
      an IPAM section gets empty options unless it has some; nothing
      else changes. */
  function WithIpamOptions(network: NetworkConfig): (r: NetworkConfig)
    requires WellFormed(network)
    ensures WellFormed(r)
    ensures r.Keys == network.Keys
    ensures forall k :: k in network && k != "ipam" ==> r[k] == network[k]
    ensures "ipam" in network ==>
      var before := network["ipam"].fields;
      var after := r["ipam"].fields;
      && after.Keys == before.Keys + {"Options"}
      && (forall k :: k in before ==> after[k] == before[k])
      && ("Options" !in before ==> after["Options"] == JObj(map[]))
  {
    if "ipam" in network && "Options" !in network["ipam"].fields then
      network["ipam" := JObj(network["ipam"].fields["Options" := JObj(map[])])]
    else network
  }

  /** Defaulting the options twice is defaulting them once. */
  lemma WithIpamOptionsIdempotent(network: NetworkConfig)
    requires WellFormed(network)
    ensures WithIpamOptions(WithIpamOptions(network)) == WithIpamOptions(network)
  {
  }

  class NetworksContext {
    /** The context's configuration; `setup` only ever reads copies. */
    const config: Config
    /** `context["docker"]["networks"]`. */
    var networks: seq<Json>

    constructor (config: Config)
      ensures this.config == config && networks == []
    {
      this.config := config;
      networks := [];
    }

    /** `setup`: the list is reset, then `create_network` is called once
        per entry, in order, with the entry's options defaulted, and each
        result is appended.  `createNetwork` stands for the client call. */
    method Setup(createNetwork: NetworkConfig -> Json) returns (requests: seq<NetworkConfig>)
      requires forall i :: 0 <= i < |Entries(config)| ==> WellFormed(Entries(config)[i])
      modifies this
      ensures |requests| == |networks| == |Entries(config)|
      ensures forall i :: 0 <= i < |requests| ==>
        requests[i] == WithIpamOptions(Entries(config)[i]) && networks[i] == createNetwork(requests[i])
    {
      networks := [];
      var entries := Entries(config);
      requests := [];
      for i := 0 to |entries|
        invariant |requests| == |networks| == i
        invariant forall j :: 0 <= j < i ==>
          requests[j] == WithIpamOptions(entries[j]) && networks[j] == createNetwork(requests[j])
      {
        var network := WithIpamOptions(entries[i]);
        requests := requests + [network];
        networks := networks + [createNetwork(network)];
      }
    }
  }

  /** `cleanup`: only the "network" kind, for this context's own objects. */
  function CleanupRequest(ownerId: Option<string>): (call: Manager.CleanupCall)
    ensures call.names == Some(["network"])
    ensures call.superclass == "NetworksContext" && call.ownerId == ownerId
  {
    Manager.CleanupCall(Some(["network"]), "NetworksContext", ownerId)
  }

  /** The request resolves to exactly the registered "network" kinds. */
  lemma CleanupResolvesNetworks(registry: seq<Resources.Kind>, ownerId: Option<string>)
    ensures forall k :: k in Resolver.Resolved(registry, CleanupRequest(ownerId).names)
                      <==> k in registry && k.name == "network"
  {
    var names := CleanupRequest(ownerId).names;
    Resolver.ResolvedExactly(registry, names);
    assert Resolver.RequestedSet(names) == {"network"};
  }

  /** The unit test's empty configuration: one `create_network()` call
      with no arguments, and its result is the only network. */
  method SetupEmptyConfig(createNetwork: NetworkConfig -> Json) returns (networks: seq<Json>)
    ensures networks == [createNetwork(map[])]
  {
    var context := new NetworksContext(Single(map[]));
    var requests := context.Setup(createNetwork);
    networks := context.networks;
  }
}
