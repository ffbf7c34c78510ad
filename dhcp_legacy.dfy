/**
 * The CiscoDHCP modeler plugin, the older DHCP pool plugin: the same pools
 * and server lists as CiscoControllerDHCPPool, with the subnet test made
 * inline on a non-empty network, the state read without a presence test,
 * the network written without its prefix length, and the relationship
 * returned in a one-element list.
 */
module CiscoDhcp {
  import opened Options
  import opened PyStrings
  import opened Values
  import opened Folds
  import opened Ipv4
  import DhcpPool

  type Config = DhcpPool.Config

  const Modname := DhcpPool.Modname

  /** The name filter: no title, or a name the pattern finds. */
  predicate NamedOut(cfg: Config, row: Row) {
    var name := Get(row, "title", NoneV);
    name == NoneV || IgnoredBy(cfg.ignoreNames, PyStr(name), false)
  }

  /**
   * Whether a pool is skipped: by the name filter, else by the inline subnet
   * loop, which raises for a network that is no IPv4 address when the
   * network is non-empty and there is at least one valid ignored network.
   */
  function Skip(cfg: Config, row: Row): Outcome<bool> {
    if NamedOut(cfg, row) then Done(true)
    else
      var network := Get(row, "network", Str(""));
      InlineSkip(Truthy(network), network, ValidNets(cfg.ignoreSubnets))
  }

  /** The pool record: the state made boolean (a row without one raises), the index, the id and the server lists. */
  function PoolData(row: Row, idx: string, host: Host): Outcome<Row> {
    if "enabled" !in row then Raised(KeyError("enabled"))
    else Done(Update(row["enabled" := Bool(IsOne(row["enabled"]))], DhcpPool.Derived(row, idx, host)))
  }

  /** The ObjectMap of the pool at `idx`, None when it is skipped, or the exception its row raises. */
  function PoolMap(cfg: Config, host: Host, t: Table, idx: string): Outcome<Option<ObjMap>> {
    var row := RowAt(t, idx);
    match Skip(cfg, row)
    case Raised(e) => Raised(e)
    case Done(skipped) =>
      if skipped then Done(None)
      else
        match PoolData(row, idx, host)
        case Raised(e) => Raised(e)
        case Done(data) => Done(Some(ObjMap(Modname, "", data)))
  }

  function PoolMapOf(cfg: Config, host: Host, t: Table): string -> Outcome<Option<ObjMap>> {
    idx => PoolMap(cfg, host, t, idx)
  }

  /** What `process` returns (None without the scope table), or the exception it raises. */
  function Result(cfg: Config, host: Host, td: TableData): Outcome<Option<seq<RelMap>>> {
    if "agentDhcpScopeTable" !in td then Done(None)
    else
      var t := td["agentDhcpScopeTable"];
      match TryFilterMap(t.keys, PoolMapOf(cfg, host, t))
      case Raised(e) => Raised(e)
      case Done(pools) => Done(Some([RelMap("", "dhcpPools", Modname, pools)]))
  }

  method SkipPool(cfg: Config, nets: seq<Net>, row: Row) returns (r: Outcome<bool>)
    requires nets == ValidNets(cfg.ignoreSubnets)
    ensures r == Skip(cfg, row)
  {
    var name := Get(row, "title", NoneV);
    if name == NoneV || IgnoredBy(cfg.ignoreNames, PyStr(name), false) {
      return Done(true);
    }
    var network := Get(row, "network", Str(""));
    r := SkipNet(Truthy(network), network, nets);
  }

  method ProcessPool(cfg: Config, nets: seq<Net>, host: Host, t: Table, idx: string) returns (om: Outcome<Option<ObjMap>>)
    requires nets == ValidNets(cfg.ignoreSubnets)
    ensures om == PoolMap(cfg, host, t, idx)
  {
    var row := RowAt(t, idx);
    var skip := SkipPool(cfg, nets, row);
    if skip.Raised? {
      return Raised(skip.error);
    }
    if skip.value {
      return Done(None);
    }
    if "enabled" !in row {
      return Raised(KeyError("enabled"));
    }
    var data := row["enabled" := Bool(IsOne(row["enabled"]))];
    var dns, routers := DhcpPool.CollectServers(row);
    data := Update(data, map["snmpindex" := Str(Strip(idx, '.')), "id" := Str(host.prepId(PyStr(Get(row, "title", NoneV)))),
                             "dns" := List(dns), "routers" := List(routers)]);
    om := Done(Some(ObjMap(Modname, "", data)));
  }

  /** CiscoDHCP.process */
  method Process(cfg: Config, host: Host, td: TableData) returns (maps: Outcome<Option<seq<RelMap>>>)
    ensures maps == Result(cfg, host, td)
  {
    if "agentDhcpScopeTable" !in td {
      return Done(None);
    }
    var t := td["agentDhcpScopeTable"];
    var nets := ParseIgnoreNets(cfg.ignoreSubnets);
    var pools: seq<ObjMap> := [];
    for i := 0 to |t.keys|
      invariant TryFilterMap(t.keys[..i], PoolMapOf(cfg, host, t)) == Done(pools)
    {
      TryFilterMapStep(t.keys, i, PoolMapOf(cfg, host, t), pools);
      var om := ProcessPool(cfg, nets, host, t, t.keys[i]);
      if om.Raised? {
        TryFilterMapRaised(t.keys, i + 1, PoolMapOf(cfg, host, t), om.error);
        return Raised(om.error);
      }
      pools := pools + OptSeq(om.value);
    }
    assert t.keys[..|t.keys|] == t.keys;
    maps := Done(Some([RelMap("", "dhcpPools", Modname, pools)]));
  }

  // ----- properties -----

  /**
   * The pool filter raises exactly when a pool passes the name filter, has a
   * network, there is a valid ignored network, and the network is no IPv4
   * address; otherwise it skips ignored names and networks in an ignored subnet.
   */
  lemma SkipRules(cfg: Config, row: Row)
    ensures var network := Get(row, "network", Str(""));
      var nets := ValidNets(cfg.ignoreSubnets);
      && (Skip(cfg, row).Raised? <==> !NamedOut(cfg, row) && Truthy(network) && nets != [] && ParseAddress(network).None?)
      && (Skip(cfg, row).Done? ==> Skip(cfg, row).value == (NamedOut(cfg, row) || (Truthy(network) && InAnyNet(network, nets))))
  {
    var network := Get(row, "network", Str(""));
    InlineSkipAgrees(Truthy(network), network, ValidNets(cfg.ignoreSubnets));
  }

  /** A pool row kept by the filters but without a state makes the plugin raise. */
  lemma MissingStateRaises(cfg: Config, host: Host, t: Table, idx: string)
    requires Skip(cfg, RowAt(t, idx)) == Done(false) && "enabled" !in RowAt(t, idx)
    ensures PoolMap(cfg, host, t, idx) == Raised(KeyError("enabled"))
  {
  }

  /**
   * Where the older plugin's filter returns on a pool whose network is text,
   * it skips the same pools as CiscoControllerDHCPPool; and for a pool with a
   * state and without a netmask the two records agree.
   */
  lemma AgreesWithPoolPlugin(cfg: Config, host: Host, row: Row, idx: string)
    requires Get(row, "network", Str("")).Str?
    ensures Skip(cfg, row).Done? ==> Skip(cfg, row).value == DhcpPool.Skipped(cfg, row)
    ensures "enabled" in row && "netmask" !in row ==> PoolData(row, idx, host) == Done(DhcpPool.PoolData(row, idx, host))
  {
    SkipRules(cfg, row);
    var network := Get(row, "network", Str(""));
    if !Truthy(network) {
      assert network == Str("");
      assert Split("", '.') == [""];
    }
  }

  /** The record holds the boolean state, the stripped index, the id from the title and the server lists. */
  lemma PoolRecord(row: Row, idx: string, host: Host)
    requires "enabled" in row
    ensures var d := PoolData(row, idx, host).value;
      && d["enabled"] == Bool(IsOne(row["enabled"]))
      && d["snmpindex"] == Str(Strip(idx, '.'))
      && d["id"] == Str(host.prepId(PyStr(Get(row, "title", NoneV))))
      && d["dns"] == List(DhcpPool.Servers(row, "dns"))
      && d["routers"] == List(DhcpPool.Servers(row, "router"))
      && forall a :: a in row && a != "enabled" && a !in DhcpPool.DerivedKeys ==> d[a] == row[a]
  {
    DhcpPool.DerivedKeysAre(row, idx, host);
  }

  /**
   * When no pool row raises, the relationship holds one record per pool row
   * that the filters keep, and nothing else.
   */
  lemma RecordsAreKeptPools(cfg: Config, host: Host, td: TableData, m: ObjMap)
    requires "agentDhcpScopeTable" in td
    requires forall i :: 0 <= i < |td["agentDhcpScopeTable"].keys| ==>
      PoolMap(cfg, host, td["agentDhcpScopeTable"], td["agentDhcpScopeTable"].keys[i]).Done?
    ensures var t := td["agentDhcpScopeTable"];
      && Result(cfg, host, td).Done?
      && (m in Result(cfg, host, td).value.value[0].maps <==>
            exists i :: 0 <= i < |t.keys| && Skip(cfg, RowAt(t, t.keys[i])) == Done(false) &&
              m == ObjMap(Modname, "", PoolData(RowAt(t, t.keys[i]), t.keys[i], host).value))
  {
    var t := td["agentDhcpScopeTable"];
    var g := (idx: string) => if PoolMap(cfg, host, t, idx).Done? then PoolMap(cfg, host, t, idx).value else None;
    TryFilterMapDone(t.keys, PoolMapOf(cfg, host, t), g);
    FilterMapMember(t.keys, g, m);
  }

  /** The result is a one-element list holding the dhcpPools relationship. */
  lemma ResultShape(cfg: Config, host: Host, td: TableData)
    requires Result(cfg, host, td).Done? && Result(cfg, host, td).value.Some?
    ensures |Result(cfg, host, td).value.value| == 1
    ensures Result(cfg, host, td).value.value[0].relname == "dhcpPools"
  {
  }
}
