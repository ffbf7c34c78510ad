/**
 * The CiscoControllerVLAN modeler plugin: one VLAN interface record per row
 * of agentInterfaceConfigTable, filtered by name, by subnet and by VLAN
 * number, with the address written with its prefix length, the MAC address
 * normalised and an id formed from the interface name.
 */
module ControllerVlan {
  import opened Options
  import opened PyStrings
  import opened Values
  import opened Folds
  import opened Ipv4

  /** zWlanInterfaceIgnoreNames, zWlanInterfaceIgnoreSubnets and zWlanInterfaceIgnoreVlans. */
  datatype Config = Config(ignoreNames: Regex, ignoreSubnets: seq<string>, ignoreVlans: seq<string>)

  const Modname := "ZenPacks.daviswr.WirelessController.VlanInterface"

  /**
   * An interface is skipped without a title, for a name the pattern finds,
   * for an address in an ignored subnet, or for a VLAN number whose text is
   * in the ignored list (a row without a VLAN is looked up as `None`).
   */
  predicate Skipped(cfg: Config, row: Row) {
    var name := Get(row, "title", NoneV);
    || name == NoneV
    || IgnoredBy(cfg.ignoreNames, PyStr(name), false)
    || InAnyNet(Get(row, "ip", NoneV), ValidNets(cfg.ignoreSubnets))
    || PyStr(Get(row, "vlan", NoneV)) in cfg.ignoreVlans
  }

  /** The text the id is formed from: `vlan_<name>` with every `-` made `_`. */
  function IdText(name: Value): string {
    Replace("vlan_" + PyStr(name), "-", "_")
  }

  /** The address followed by the prefix length of its netmask, when there is an address and a netmask. */
  function WithPrefix(row: Row, host: Host): Row {
    var ip := Get(row, "ip", NoneV);
    if Truthy(ip) && "netmask" in row then row["ip" := Str(PyStr(ip) + "/" + IntToString(host.maskToBits(row["netmask"])))]
    else row
  }

  /** The MAC address in the host's normal form, when there is one. */
  function WithMac(row: Row, host: Host): Row {
    if "mac" in row then row["mac" := Str(host.asmac(row["mac"]))] else row
  }

  /** The interface record. */
  function Cleaned(row: Row, idx: string, host: Host): Row {
    WithMac(WithPrefix(row, host), host)["id" := Str(host.prepId(IdText(Get(row, "title", NoneV))))]["snmpindex" := Str(Strip(idx, '.'))]
  }

  /** The ObjectMap of the interface at `idx`, or None when it is skipped. */
  function InterfaceMap(cfg: Config, host: Host, t: Table, idx: string): Option<ObjMap> {
    var row := RowAt(t, idx);
    if Skipped(cfg, row) then None else Some(ObjMap(Modname, "", Cleaned(row, idx, host)))
  }

  function InterfaceMapOf(cfg: Config, host: Host, t: Table): string -> Option<ObjMap> {
    idx => InterfaceMap(cfg, host, t, idx)
  }

  /** What `process` returns: None without the interface table, else the vlanInterfaces relationship. */
  function Result(cfg: Config, host: Host, td: TableData): Option<RelMap> {
    if "agentInterfaceConfigTable" !in td then None
    else
      var t := td["agentInterfaceConfigTable"];
      Some(RelMap("", "vlanInterfaces", Modname, FilterMap(t.keys, InterfaceMapOf(cfg, host, t))))
  }

  method CleanInterface(row: Row, idx: string, host: Host) returns (data: Row)
    ensures data == Cleaned(row, idx, host)
  {
    data := row;
    var ip := Get(row, "ip", NoneV);
    if Truthy(ip) && "netmask" in data {
      var cidr := host.maskToBits(data["netmask"]);
      data := data["ip" := Str(PyStr(ip) + "/" + IntToString(cidr))];
    }
    if "mac" in data {
      data := data["mac" := Str(host.asmac(Get(data, "mac", NoneV)))];
    }
    data := data["id" := Str(host.prepId(Replace("vlan_" + PyStr(Get(row, "title", NoneV)), "-", "_")))];
    data := data["snmpindex" := Str(Strip(idx, '.'))];
  }

  method ProcessInterface(cfg: Config, nets: seq<Net>, host: Host, t: Table, idx: string) returns (om: Option<ObjMap>)
    requires nets == ValidNets(cfg.ignoreSubnets)
    ensures om == InterfaceMap(cfg, host, t, idx)
  {
    var row := RowAt(t, idx);
    var name := Get(row, "title", NoneV);
    if name == NoneV || IgnoredBy(cfg.ignoreNames, PyStr(name), false) {
      return None;
    }
    var inNet := IpInNets(Get(row, "ip", NoneV), nets);
    if inNet || PyStr(Get(row, "vlan", NoneV)) in cfg.ignoreVlans {
      return None;
    }
    var data := CleanInterface(row, idx, host);
    om := Some(ObjMap(Modname, "", data));
  }

  /** CiscoControllerVLAN.process */
  method Process(cfg: Config, host: Host, td: TableData) returns (rm: Option<RelMap>)
    ensures rm == Result(cfg, host, td)
  {
    if "agentInterfaceConfigTable" !in td {
      return None;
    }
    var t := td["agentInterfaceConfigTable"];
    var nets := ParseIgnoreNets(cfg.ignoreSubnets);
    var out: seq<ObjMap> := [];
    for i := 0 to |t.keys|
      invariant out == FilterMap(t.keys[..i], InterfaceMapOf(cfg, host, t))
    {
      FilterMapStep(t.keys, i, InterfaceMapOf(cfg, host, t));
      var om := ProcessInterface(cfg, nets, host, t, t.keys[i]);
      out := out + OptSeq(om);
    }
    assert t.keys[..|t.keys|] == t.keys;
    rm := Some(RelMap("", "vlanInterfaces", Modname, out));
  }

  // ----- properties -----

  /** Every record comes from an interface row that is not skipped, and every such row gives one. */
  lemma RecordsAreKeptInterfaces(cfg: Config, host: Host, td: TableData, m: ObjMap)
    requires "agentInterfaceConfigTable" in td
    ensures var t := td["agentInterfaceConfigTable"];
      m in Result(cfg, host, td).value.maps <==>
        exists i :: 0 <= i < |t.keys| && !Skipped(cfg, RowAt(t, t.keys[i])) && m == ObjMap(Modname, "", Cleaned(RowAt(t, t.keys[i]), t.keys[i], host))
  {
    var t := td["agentInterfaceConfigTable"];
    FilterMapMember(t.keys, InterfaceMapOf(cfg, host, t), m);
  }

  /** The prefix stage rewrites the address at most. */
  lemma PrefixKeeps(row: Row, host: Host)
    ensures var w := WithPrefix(row, host);
      && w.Keys == row.Keys
      && forall a :: a in row && a != "ip" ==> w[a] == row[a]
  {
  }

  /** The address gains its prefix length exactly when it is non-empty and a netmask is present. */
  lemma PrefixRules(row: Row, host: Host)
    ensures var w := WithPrefix(row, host);
      && (Truthy(Get(row, "ip", NoneV)) && "netmask" in row ==>
            w["ip"] == Str(PyStr(row["ip"]) + "/" + IntToString(host.maskToBits(row["netmask"]))))
      && (!(Truthy(Get(row, "ip", NoneV)) && "netmask" in row) ==> w == row)
  {
  }

  /** The column names the record rewrites are distinct. */
  lemma ColumnsApart()
    ensures "ip" != "mac" && "ip" != "id" && "ip" != "snmpindex"
    ensures "mac" != "id" && "mac" != "snmpindex" && "id" != "snmpindex"
  {
  }

  /** The record holds the address the prefix rule gives. */
  lemma CleanedAddress(row: Row, idx: string, host: Host)
    requires "ip" in row
    ensures Cleaned(row, idx, host)["ip"] == WithPrefix(row, host)["ip"]
  {
    ColumnsApart();
    PrefixKeeps(row, host);
  }

  /** The record holds the MAC address in the host's normal form. */
  lemma CleanedMac(row: Row, idx: string, host: Host)
    requires "mac" in row
    ensures Cleaned(row, idx, host)["mac"] == Str(host.asmac(row["mac"]))
  {
    ColumnsApart();
    PrefixKeeps(row, host);
  }

  /** The record's id is formed from the title and its index is stripped of dots. */
  lemma CleanedId(row: Row, idx: string, host: Host)
    ensures var d := Cleaned(row, idx, host);
      && d["id"] == Str(host.prepId(IdText(Get(row, "title", NoneV))))
      && d["snmpindex"] == Str(Strip(idx, '.'))
  {
    ColumnsApart();
  }

  /** The record gains only `id` and `snmpindex`, and every column other than the address and the MAC address is kept. */
  lemma CleanedKeeps(row: Row, idx: string, host: Host)
    ensures var d := Cleaned(row, idx, host);
      && d.Keys == row.Keys + {"id", "snmpindex"}
      && forall a :: a in row && a != "ip" && a != "mac" && a != "id" && a != "snmpindex" ==> d[a] == row[a]
  {
    ColumnsApart();
    PrefixKeeps(row, host);
  }

  /** The id text is `vlan_` followed by the name with each `-` made `_`, so it holds no `-`. */
  lemma IdTextForm(name: Value)
    ensures var n := PyStr(name);
      var s := IdText(name);
      && |s| == 5 + |n|
      && s[..5] == "vlan_"
      && (forall i :: 0 <= i < |n| ==> s[5 + i] == (if n[i] == '-' then '_' else n[i]))
      && '-' !in s
  {
    var n := PyStr(name);
    var full := "vlan_" + n;
    ReplaceCharMaps(full, '-', '_');
    var s := IdText(name);
    assert forall i :: 0 <= i < |n| ==> full[5 + i] == n[i];
    assert s[..5] == "vlan_" by {
      forall i | 0 <= i < 5 ensures s[i] == "vlan_"[i] {
        assert full[i] == "vlan_"[i];
      }
    }
    forall k | 0 <= k < |s| ensures s[k] != '-' {
    }
  }

  /** An interface without an address is never skipped for its subnet. */
  lemma NoAddressNotIgnored(cfg: Config, row: Row)
    requires "ip" !in row
    ensures Skipped(cfg, row) <==>
      || Get(row, "title", NoneV) == NoneV
      || IgnoredBy(cfg.ignoreNames, PyStr(Get(row, "title", NoneV)), false)
      || PyStr(Get(row, "vlan", NoneV)) in cfg.ignoreVlans
  {
  }

  /**
   * As written, the address test of an interface without an address raises:
   * `ip_in_nets` is handed `None`, and its error branch names an undefined
   * `log`, as soon as one ignored subnet is configured.
   */
  lemma NoAddressRaisesAsWritten(nets: seq<Net>)
    requires nets != [] && forall n :: n in nets ==> ValidNet(n)
    ensures IpInNetsAsWritten(NoneV, nets) == Raised(NameError("log"))
    ensures !InAnyNet(NoneV, nets)
  {
  }
}
