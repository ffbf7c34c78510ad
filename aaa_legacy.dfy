/**
 * The CiscoControllerAAA modeler plugin of the older WirelessController
 * ZenPack: LDAP servers only, with the type ignore, the inline subnet loop
 * and titles keyed on the presence of a port column.
 */
module WirelessAaa {
  import opened Options
  import opened PyStrings
  import opened Values
  import opened Folds
  import opened Ipv4
  import WlcAaa

  /** zWlanServerIgnoreSubnets and zWlanServerIgnoreTypes (zWlanServerIgnoreNames is read but never used). */
  datatype Config = Config(ignoreSubnets: seq<string>, ignoreTypes: seq<string>)

  const LdapModname := "ZenPacks.daviswr.WirelessController.LDAPServer"

  /** Either spelling of the LDAP type empties the table. */
  function LdapTable(td: TableData, cfg: Config): Table {
    if "LDAP" in cfg.ignoreTypes || "ldap" in cfg.ignoreTypes then EmptyDict() else TableOr(td, "cldlServerTable")
  }

  /** A title of `<ip>:<port>` whenever the row has a port column, whatever its value. */
  function AddressTitle(ip: string, row: Row): string {
    if "port" in row then ip + ":" + PyStr(row["port"]) else ip
  }

  /** The shared clean-up: `enabled` becomes True exactly when it is 1; the id is prepId of `ldap_<title>`. */
  function Record(row: Row, title: string, host: Host): ObjMap {
    var r := row["title" := Str(title)];
    var r' := if "enabled" in r then r["enabled" := Bool(IsOne(r["enabled"]))] else r;
    ObjMap(LdapModname, "", r'["id" := Str(host.prepId("ldap_" + title))])
  }

  /** One LDAP row: a record, no record (an ignored subnet), or the exception of an unconvertible address. */
  function LdapServer(nets: seq<Net>, host: Host, idx: string, row: Row): Outcome<Option<ObjMap>>
    requires forall n :: n in nets ==> ValidNet(n)
  {
    if "ip" in row && IsOne(Get(row, "ip_type", Int(0))) then
      var ip := host.asip(row["ip"]);
      match InlineSkip(true, Str(ip), nets)
      case Raised(e) => Raised(e)
      case Done(skip) =>
        if skip then Done(None)
        else Done(Some(Record(row["ip" := Str(ip)], AddressTitle(ip, row), host)))
    else Done(Some(Record(row, "LDAP Server " + Replace(idx, ".", ""), host)))
  }

  method ProcessLdap(nets: seq<Net>, host: Host, idx: string, row: Row) returns (r: Outcome<Option<ObjMap>>)
    requires forall n :: n in nets ==> ValidNet(n)
    ensures r == LdapServer(nets, host, idx, row)
  {
    var row' := row;
    var title: string;
    if "ip" in row' && IsOne(Get(row', "ip_type", Int(0))) {
      var ip := host.asip(row'["ip"]);
      row' := row'["ip" := Str(ip)];
      var skip := SkipNet(true, row'["ip"], nets);
      if skip.Raised? {
        return Raised(skip.error);
      }
      if skip.value {
        return Done(None);
      }
      if "port" in row' {
        title := ip + ":" + PyStr(row'["port"]);
      } else {
        title := ip;
      }
    } else {
      title := "LDAP Server " + Replace(idx, ".", "");
    }
    row' := row'["title" := Str(title)];
    if "enabled" in row' {
      row' := row'["enabled" := Bool(IsOne(row'["enabled"]))];
    }
    row' := row'["id" := Str(host.prepId("ldap_" + title))];
    r := Done(Some(ObjMap(LdapModname, "", row')));
  }

  function LdapOf(nets: seq<Net>, host: Host, t: Table): string -> Outcome<Option<ObjMap>>
    requires forall n :: n in nets ==> ValidNet(n)
  {
    idx => LdapServer(nets, host, idx, RowAt(t, idx))
  }

  /** What `process` returns, or the exception it ends in. */
  function Result(td: TableData, cfg: Config, host: Host): Outcome<RelMap> {
    match TryFilterMap(LdapTable(td, cfg).keys, LdapOf(ValidNets(cfg.ignoreSubnets), host, LdapTable(td, cfg)))
    case Raised(e) => Raised(e)
    case Done(maps) => Done(RelMap("", "aaaServers", "ZenPacks.daviswr.WirelessController.AAAServer", maps))
  }

  /** CiscoControllerAAA.process */
  method Process(td: TableData, cfg: Config, host: Host) returns (r: Outcome<RelMap>)
    ensures r == Result(td, cfg, host)
  {
    var table := TableOr(td, "cldlServerTable");
    var nets := ParseIgnoreNets(cfg.ignoreSubnets);
    if "LDAP" in cfg.ignoreTypes || "ldap" in cfg.ignoreTypes {
      table := EmptyDict();
    }
    assert table == LdapTable(td, cfg);
    var out: seq<ObjMap> := [];
    for i := 0 to |table.keys|
      invariant TryFilterMap(table.keys[..i], LdapOf(nets, host, table)) == Done(out)
    {
      var om := ProcessLdap(nets, host, table.keys[i], RowAt(table, table.keys[i]));
      TryFilterMapStep(table.keys, i, LdapOf(nets, host, table), out);
      if om.Raised? {
        TryFilterMapRaised(table.keys, i + 1, LdapOf(nets, host, table), om.error);
        return Raised(om.error);
      }
      out := out + OptSeq(om.value);
    }
    assert table.keys[..|table.keys|] == table.keys;
    r := Done(RelMap("", "aaaServers", "ZenPacks.daviswr.WirelessController.AAAServer", out));
  }

  // ----- properties -----

  /** Ignoring `LDAP` or `ldap` leaves an empty relationship. */
  lemma TypeIgnored(td: TableData, cfg: Config, host: Host)
    requires "LDAP" in cfg.ignoreTypes || "ldap" in cfg.ignoreTypes
    ensures Result(td, cfg, host) == Done(RelMap("", "aaaServers", "ZenPacks.daviswr.WirelessController.AAAServer", []))
  {
  }

  /** An address row is dropped exactly when an ignored network holds its dotted address. */
  lemma AddressRowSkipped(nets: seq<Net>, host: Host, idx: string, row: Row)
    requires forall n :: n in nets ==> ValidNet(n)
    requires "ip" in row && IsOne(Get(row, "ip_type", Int(0)))
    requires ParseAddress(Str(host.asip(row["ip"]))).Some?
    ensures LdapServer(nets, host, idx, row).Done?
    ensures LdapServer(nets, host, idx, row).value.None? <==> InAnyNet(Str(host.asip(row["ip"])), nets)
  {
    InlineSkipAgrees(true, Str(host.asip(row["ip"])), nets);
  }

  /** The conversion of an address that is not dotted IPv4 raises, once a subnet is configured. */
  lemma AddressRowRaises(nets: seq<Net>, host: Host, idx: string, row: Row)
    requires forall n :: n in nets ==> ValidNet(n)
    requires "ip" in row && IsOne(Get(row, "ip_type", Int(0)))
    ensures LdapServer(nets, host, idx, row).Raised? <==> nets != [] && ParseAddress(Str(host.asip(row["ip"]))).None?
  {
  }

  /** Every other row, one without an address included, is titled by its index with the dots removed. */
  lemma OtherRowTitled(nets: seq<Net>, host: Host, idx: string, row: Row)
    requires forall n :: n in nets ==> ValidNet(n)
    requires !("ip" in row && IsOne(Get(row, "ip_type", Int(0))))
    ensures LdapServer(nets, host, idx, row).Done? && LdapServer(nets, host, idx, row).value.Some?
    ensures var d := LdapServer(nets, host, idx, row).value.value.data;
      "title" in d && d["title"] == Str("LDAP Server " + Replace(idx, ".", "")) && '.' !in d["title"].s
  {
    ReplaceCharRemoves(idx, '.');
  }

  /** A record's id is prepId of `ldap_<title>`, and `enabled` is True exactly when its raw value is 1. */
  lemma RecordRules(row: Row, title: string, host: Host)
    ensures var d := Record(row, title, host).data;
      && d.Keys == row.Keys + {"title", "id"}
      && d["title"] == Str(title)
      && d["id"] == Str(host.prepId("ldap_" + title))
      && ("enabled" in row ==> d["enabled"] == Bool(IsOne(row["enabled"])))
  {
  }

  /**
   * The title follows the presence of the port column: a port of None still
   * gives `<ip>:None`, where the newer plugin's format_title gives the bare address.
   */
  lemma PortPresenceTitle(ip: string, row: Row)
    requires "port" in row && row["port"] == NoneV
    ensures AddressTitle(ip, row) == ip + ":None"
    ensures WlcAaa.FormatTitle(Str(ip), row["port"]) == Str(ip)
  {
  }
}
