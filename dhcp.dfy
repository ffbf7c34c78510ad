/**
 * The CiscoControllerDHCPPool modeler plugin: one DHCP pool record per row
 * of agentDhcpScopeTable, filtered by name and by subnet, with the state
 * made boolean, the network written with its prefix length, and the DNS
 * servers and default gateways collected into lists.
 */
module DhcpPool {
  import opened Options
  import opened PyStrings
  import opened Values
  import opened Folds
  import opened Ipv4

  /** zWlanDhcpIgnoreNames and zWlanDhcpIgnoreSubnets. */
  datatype Config = Config(ignoreNames: Regex, ignoreSubnets: seq<string>)

  const Modname := "ZenPacks.daviswr.WirelessController.DHCPPool"

  /** `condition`: a virtual controller, whose model name holds `VM`, has no DHCP pools. */
  function Condition(model: string): (r: bool)
    ensures r <==> !Contains(model, "VM")
  {
    FindIffContains(model, "VM");
    !(Find(model, "VM") > -1)
  }

  // ----- server lists -----

  /** The column of server slot `num`: `dns1`, `router2`, ... */
  function SlotName(kind: string, num: nat): string {
    kind + NatToString(num)
  }

  /** The value of a slot when it is present and not the unset address 0.0.0.0. */
  function Slot(row: Row, column: string): Option<Value> {
    if Get(row, column, Str("0.0.0.0")) != Str("0.0.0.0") then Some(row[column]) else None
  }

  /** The set servers of slots 1 to `n`, in slot order. */
  function ServersUpTo(row: Row, kind: string, n: nat): seq<Value> {
    if n == 0 then [] else ServersUpTo(row, kind, n - 1) + OptSeq(Slot(row, SlotName(kind, n)))
  }

  /** The `dns` or `routers` list of a pool: its slots 1 to 3 that are set. */
  function Servers(row: Row, kind: string): seq<Value> {
    ServersUpTo(row, kind, 3)
  }

  /** The nested `for num in range(1, 4)` / `for attr_type in ['dns', 'router']` loops. */
  method CollectServers(row: Row) returns (dns: seq<Value>, routers: seq<Value>)
    ensures dns == Servers(row, "dns") && routers == Servers(row, "router")
  {
    dns := [];
    routers := [];
    for num := 1 to 4
      invariant dns == ServersUpTo(row, "dns", num - 1)
      invariant routers == ServersUpTo(row, "router", num - 1)
    {
      var kinds := ["dns", "router"];
      for k := 0 to 2
        invariant dns == ServersUpTo(row, "dns", if k > 0 then num else num - 1)
        invariant routers == ServersUpTo(row, "router", if k > 1 then num else num - 1)
      {
        var attr := kinds[k] + NatToString(num);
        if Get(row, attr, Str("0.0.0.0")) != Str("0.0.0.0") {
          if kinds[k] == "dns" {
            dns := dns + [row[attr]];
          } else if kinds[k] == "router" {
            routers := routers + [row[attr]];
          }
        }
      }
    }
  }

  /** A value is listed exactly when some slot from 1 to `n` holds it and it is not 0.0.0.0. */
  lemma {:induction false} ServersUpToMember(row: Row, kind: string, n: nat, v: Value)
    ensures v in ServersUpTo(row, kind, n) <==>
      exists num :: 1 <= num <= n && SlotName(kind, num) in row && row[SlotName(kind, num)] == v && v != Str("0.0.0.0")
  {
    if n > 0 {
      ServersUpToMember(row, kind, n - 1, v);
      var c := SlotName(kind, n);
      if c in row && row[c] == v && v != Str("0.0.0.0") {
        assert v in ServersUpTo(row, kind, n);
      }
    }
  }

  /** The list holds the set slots 1 to 3 and nothing else; 0.0.0.0 is never listed. */
  lemma ServersMember(row: Row, kind: string, v: Value)
    ensures v in Servers(row, kind) <==>
      exists num :: 1 <= num <= 3 && SlotName(kind, num) in row && row[SlotName(kind, num)] == v && v != Str("0.0.0.0")
    ensures Str("0.0.0.0") !in Servers(row, kind)
  {
    ServersUpToMember(row, kind, 3, v);
    ServersUpToMember(row, kind, 3, Str("0.0.0.0"));
  }

  /** With all three slots set, the list is slot 1, slot 2, slot 3. */
  lemma ServersInOrder(row: Row, kind: string)
    requires forall num :: 1 <= num <= 3 ==> SlotName(kind, num) in row && row[SlotName(kind, num)] != Str("0.0.0.0")
    ensures Servers(row, kind) == [row[SlotName(kind, 1)], row[SlotName(kind, 2)], row[SlotName(kind, 3)]]
  {
    assert SlotName(kind, 1) in row && SlotName(kind, 2) in row && SlotName(kind, 3) in row;
    assert ServersUpTo(row, kind, 1) == [row[SlotName(kind, 1)]];
    assert ServersUpTo(row, kind, 2) == [row[SlotName(kind, 1)], row[SlotName(kind, 2)]];
  }

  /** A pool with no slot set has an empty list. */
  lemma ServersNone(row: Row, kind: string)
    requires forall num :: 1 <= num <= 3 ==> Get(row, SlotName(kind, num), Str("0.0.0.0")) == Str("0.0.0.0")
    ensures Servers(row, kind) == []
  {
    assert Get(row, SlotName(kind, 1), Str("0.0.0.0")) == Str("0.0.0.0");
    assert Get(row, SlotName(kind, 2), Str("0.0.0.0")) == Str("0.0.0.0");
    assert Get(row, SlotName(kind, 3), Str("0.0.0.0")) == Str("0.0.0.0");
    assert ServersUpTo(row, kind, 1) == [];
    assert ServersUpTo(row, kind, 2) == [];
  }

  // ----- one pool -----

  /** A pool is skipped without a title, for a name the pattern finds, or for a network in an ignored subnet. */
  predicate Skipped(cfg: Config, row: Row) {
    var name := Get(row, "title", NoneV);
    || name == NoneV
    || IgnoredBy(cfg.ignoreNames, PyStr(name), false)
    || InAnyNet(Get(row, "network", Str("")), ValidNets(cfg.ignoreSubnets))
  }

  /** The state in the boolean form, and the network followed by the prefix length of its netmask. */
  function Cleaned(row: Row, host: Host): Row {
    var r := if "enabled" in row then row["enabled" := Bool(IsOne(row["enabled"]))] else row;
    if "network" in r && "netmask" in r then r["network" := Str(PyStr(r["network"]) + "/" + IntToString(host.maskToBits(r["netmask"])))]
    else r
  }

  /** The columns `process` adds to a pool. */
  function Derived(row: Row, idx: string, host: Host): Row {
    map["snmpindex" := Str(Strip(idx, '.')), "id" := Str(host.prepId(PyStr(Get(row, "title", NoneV)))),
        "dns" := List(Servers(row, "dns")), "routers" := List(Servers(row, "router"))]
  }

  function PoolData(row: Row, idx: string, host: Host): Row {
    Update(Cleaned(row, host), Derived(row, idx, host))
  }

  /** The ObjectMap of the pool at `idx`, or None when it is skipped. */
  function PoolMap(cfg: Config, host: Host, t: Table, idx: string): Option<ObjMap> {
    var row := RowAt(t, idx);
    if Skipped(cfg, row) then None else Some(ObjMap(Modname, "", PoolData(row, idx, host)))
  }

  function PoolMapOf(cfg: Config, host: Host, t: Table): string -> Option<ObjMap> {
    idx => PoolMap(cfg, host, t, idx)
  }

  /** What `process` returns: None without the scope table, else the dhcpPools relationship. */
  function Result(cfg: Config, host: Host, td: TableData): Option<RelMap> {
    if "agentDhcpScopeTable" !in td then None
    else
      var t := td["agentDhcpScopeTable"];
      Some(RelMap("", "dhcpPools", Modname, FilterMap(t.keys, PoolMapOf(cfg, host, t))))
  }

  method CleanPool(row: Row, idx: string, host: Host) returns (data: Row)
    ensures data == PoolData(row, idx, host)
  {
    data := row;
    if "enabled" in data {
      data := data["enabled" := Bool(IsOne(data["enabled"]))];
    }
    if "network" in data && "netmask" in data {
      var cidr := host.maskToBits(data["netmask"]);
      data := data["network" := Str(PyStr(data["network"]) + "/" + IntToString(cidr))];
    }
    assert data == Cleaned(row, host);
    var dns, routers := CollectServers(row);
    data := Update(data, map["snmpindex" := Str(Strip(idx, '.')), "id" := Str(host.prepId(PyStr(Get(row, "title", NoneV)))),
                             "dns" := List(dns), "routers" := List(routers)]);
  }

  method ProcessPool(cfg: Config, nets: seq<Net>, host: Host, t: Table, idx: string) returns (om: Option<ObjMap>)
    requires nets == ValidNets(cfg.ignoreSubnets)
    ensures om == PoolMap(cfg, host, t, idx)
  {
    var row := RowAt(t, idx);
    var name := Get(row, "title", NoneV);
    if name == NoneV || IgnoredBy(cfg.ignoreNames, PyStr(name), false) {
      return None;
    }
    var inNet := IpInNets(Get(row, "network", Str("")), nets);
    if inNet {
      return None;
    }
    var data := CleanPool(row, idx, host);
    om := Some(ObjMap(Modname, "", data));
  }

  /** CiscoControllerDHCPPool.process */
  method Process(cfg: Config, host: Host, td: TableData) returns (rm: Option<RelMap>)
    ensures rm == Result(cfg, host, td)
  {
    if "agentDhcpScopeTable" !in td {
      return None;
    }
    var t := td["agentDhcpScopeTable"];
    var nets := ParseIgnoreNets(cfg.ignoreSubnets);
    var pools: seq<ObjMap> := [];
    for i := 0 to |t.keys|
      invariant pools == FilterMap(t.keys[..i], PoolMapOf(cfg, host, t))
    {
      FilterMapStep(t.keys, i, PoolMapOf(cfg, host, t));
      var om := ProcessPool(cfg, nets, host, t, t.keys[i]);
      if om.Some? {
        pools := pools + [om.value];
      }
    }
    assert t.keys[..|t.keys|] == t.keys;
    rm := Some(RelMap("", "dhcpPools", Modname, pools));
  }

  // ----- properties -----

  /** Every record comes from a pool row that is not skipped, and every such row gives one, in table order. */
  lemma RecordsAreKeptPools(cfg: Config, host: Host, td: TableData, m: ObjMap)
    requires "agentDhcpScopeTable" in td
    ensures var t := td["agentDhcpScopeTable"];
      m in Result(cfg, host, td).value.maps <==>
        exists i :: 0 <= i < |t.keys| && !Skipped(cfg, RowAt(t, t.keys[i])) && m == ObjMap(Modname, "", PoolData(RowAt(t, t.keys[i]), t.keys[i], host))
  {
    var t := td["agentDhcpScopeTable"];
    FilterMapMember(t.keys, PoolMapOf(cfg, host, t), m);
  }

  const DerivedKeys: set<string> := {"snmpindex", "id", "dns", "routers"}

  lemma DerivedKeysAre(row: Row, idx: string, host: Host)
    ensures Derived(row, idx, host).Keys == DerivedKeys
    ensures "enabled" !in DerivedKeys && "network" !in DerivedKeys
  {
  }

  /** The state becomes True exactly when it was 1, and the network carries the netmask's prefix length. */
  lemma CleanedRules(row: Row, host: Host)
    ensures var c := Cleaned(row, host);
      && c.Keys == row.Keys
      && ("enabled" in row ==> c["enabled"] == Bool(IsOne(row["enabled"])))
      && ("network" in row && "netmask" in row ==>
            c["network"] == Str(PyStr(row["network"]) + "/" + IntToString(host.maskToBits(row["netmask"]))))
      && ("network" in row && "netmask" !in row ==> c["network"] == row["network"])
      && forall a :: a in row && a != "enabled" && a != "network" ==> c[a] == row[a]
  {
  }

  /** The record's state and network are the cleaned ones. */
  lemma PoolColumns(row: Row, idx: string, host: Host)
    ensures var d := PoolData(row, idx, host);
      && ("enabled" in row ==> d["enabled"] == Bool(IsOne(row["enabled"])))
      && ("network" in row && "netmask" in row ==>
            d["network"] == Str(PyStr(row["network"]) + "/" + IntToString(host.maskToBits(row["netmask"]))))
      && ("network" in row && "netmask" !in row ==> d["network"] == row["network"])
  {
    DerivedKeysAre(row, idx, host);
    CleanedRules(row, host);
  }

  /** The derived columns: the stripped index, the id from the title, and the two server lists. */
  lemma PoolDerived(row: Row, idx: string, host: Host)
    ensures var d := PoolData(row, idx, host);
      && d["snmpindex"] == Str(Strip(idx, '.'))
      && d["id"] == Str(host.prepId(PyStr(Get(row, "title", NoneV))))
      && d["dns"] == List(Servers(row, "dns"))
      && d["routers"] == List(Servers(row, "router"))
  {
  }

  /** Every other column of the pool row reaches the record unchanged. */
  lemma PoolKeeps(row: Row, idx: string, host: Host)
    ensures var d := PoolData(row, idx, host);
      && d.Keys == row.Keys + DerivedKeys
      && forall a :: a in row && a != "enabled" && a != "network" && a !in DerivedKeys ==> d[a] == row[a]
  {
    DerivedKeysAre(row, idx, host);
    CleanedRules(row, host);
  }

  /** A pool whose network column is absent or empty is never skipped for its subnet. */
  lemma NoNetworkNotIgnored(cfg: Config, row: Row)
    requires Get(row, "network", Str("")) == Str("")
    ensures Skipped(cfg, row) <==>
      Get(row, "title", NoneV) == NoneV || IgnoredBy(cfg.ignoreNames, PyStr(Get(row, "title", NoneV)), false)
  {
    assert Split("", '.') == [""];
  }
}
