/**
 * The CiscoControllerAAA modeler plugin of the Cisco WLC ZenPack: one
 * relationship of AAA servers, built from the LDAP, RADIUS authentication,
 * RADIUS accounting and TACACS+ server tables, in that order, with whole
 * server types and servers in ignored subnets left out.
 */
module WlcAaa {
  import opened Options
  import opened PyStrings
  import opened Values
  import opened Folds
  import opened Ipv4

  /** The device properties the plugin reads: zWlanServerIgnoreSubnets and zWlanServerIgnoreTypes. */
  datatype Config = Config(ignoreSubnets: seq<string>, ignoreTypes: seq<string>)

  /** format_title: `<ip>:<port>` when a port is known, else the address itself. */
  function FormatTitle(ip: Value, port: Value): Value {
    if port != NoneV then Str(PyStr(ip) + ":" + PyStr(port)) else ip
  }

  /** A title with a port splits back into the address and the port at the ':'. */
  lemma FormatTitleSplits(ip: string, port: Value)
    requires port != NoneV && ':' !in ip && ':' !in PyStr(port)
    ensures FormatTitle(Str(ip), port).Str?
    ensures Split(FormatTitle(Str(ip), port).s, ':') == [ip, PyStr(port)]
  {
    SplitNoSep(PyStr(port), ':');
    SplitCons(ip, PyStr(port), ':');
  }

  /** Without a port the title is the address. */
  lemma FormatTitleNoPort(ip: Value)
    ensures FormatTitle(ip, NoneV) == ip
  {
  }

  // ----- the parts every server record shares -----

  /** The shared clean-up: `enabled` becomes True exactly when it is 1, then the id and the stripped SNMP index. */
  function Finished(row: Row, idPrefix: string, idx: string, host: Host): Row
    requires "title" in row
  {
    var r := if "enabled" in row then row["enabled" := Bool(IsOne(row["enabled"]))] else row;
    r["id" := Str(host.prepId(idPrefix + PyStr(row["title"])))]["snmpindex" := Str(Strip(idx, '.'))]
  }

  method Finish(row: Row, idPrefix: string, idx: string, host: Host) returns (r: Row)
    requires "title" in row
    ensures r == Finished(row, idPrefix, idx, host)
  {
    r := row;
    if "enabled" in r {
      r := r["enabled" := Bool(IsOne(r["enabled"]))];
    }
    r := r["id" := Str(host.prepId(idPrefix + PyStr(r["title"])))];
    r := r["snmpindex" := Str(Strip(idx, '.'))];
  }

  /** What the shared clean-up promises about a record. */
  lemma FinishedRules(row: Row, idPrefix: string, idx: string, host: Host)
    requires "title" in row
    ensures var r := Finished(row, idPrefix, idx, host);
      && r.Keys == row.Keys + {"id", "snmpindex"}
      && r["id"] == Str(host.prepId(idPrefix + PyStr(row["title"])))
      && r["snmpindex"] == Str(Strip(idx, '.'))
      && ("enabled" in row ==> r["enabled"] == Bool(IsOne(row["enabled"])))
      && forall k :: k in row && k !in {"enabled", "id", "snmpindex"} ==> r[k] == row[k]
  {
  }

  /**
   * The address handling of the LDAP and TACACS+ passes: an address of type 1
   * is converted to dotted form, checked against the ignored subnets and gives
   * the title; another address gives the fallback title; no address, no server.
   */
  function TitledServer(nets: seq<Net>, host: Host, row: Row, fallback: string): (r: Option<Row>)
    requires forall n :: n in nets ==> ValidNet(n)
    ensures r.Some? ==> "title" in r.value
  {
    if "ip" in row && IsOne(Get(row, "ip_type", Int(0))) then
      var ip := Str(host.asip(row["ip"]));
      if InAnyNet(ip, nets) then None
      else Some(row["ip" := ip]["title" := FormatTitle(ip, Get(row, "port", NoneV))])
    else if "ip" in row then Some(row["title" := Str(fallback)])
    else None
  }

  method TitleServer(nets: seq<Net>, host: Host, row: Row, fallback: string) returns (r: Option<Row>)
    requires forall n :: n in nets ==> ValidNet(n)
    ensures r == TitledServer(nets, host, row, fallback)
  {
    var row' := row;
    if "ip" in row' && IsOne(Get(row', "ip_type", Int(0))) {
      row' := row'["ip" := Str(host.asip(row'["ip"]))];
      var ignored := IpInNets(row'["ip"], nets);
      if ignored {
        return None;
      }
      row' := row'["title" := FormatTitle(row'["ip"], Get(row', "port", NoneV))];
    } else if "ip" in row' {
      row' := row'["title" := Str(fallback)];
    } else {
      return None;
    }
    r := Some(row');
  }

  /** The three cases of the address handling. */
  lemma TitledServerRules(nets: seq<Net>, host: Host, row: Row, fallback: string)
    requires forall n :: n in nets ==> ValidNet(n)
    ensures "ip" !in row ==> TitledServer(nets, host, row, fallback).None?
    ensures "ip" in row && IsOne(Get(row, "ip_type", Int(0))) ==>
      var ip := host.asip(row["ip"]);
      (TitledServer(nets, host, row, fallback).None? <==> InAnyNet(Str(ip), nets))
      && (!InAnyNet(Str(ip), nets) ==>
            TitledServer(nets, host, row, fallback).value["title"] == FormatTitle(Str(ip), Get(row, "port", NoneV))
            && TitledServer(nets, host, row, fallback).value["ip"] == Str(ip))
    ensures "ip" in row && !IsOne(Get(row, "ip_type", Int(0))) ==>
      TitledServer(nets, host, row, fallback) == Some(row["title" := Str(fallback)])
  {
  }

  // ----- LDAP -----

  const LdapModname := "ZenPacks.daviswr.Cisco.WLC.LDAPServer"

  function LdapServer(nets: seq<Net>, host: Host, idx: string, row: Row): Option<ObjMap>
    requires forall n :: n in nets ==> ValidNet(n)
  {
    match TitledServer(nets, host, row, "LDAP Server " + Replace(idx, ".", ""))
    case None => None
    case Some(r) => Some(ObjMap(LdapModname, "", Finished(r, "ldap_", idx, host)))
  }

  method ProcessLdap(nets: seq<Net>, host: Host, idx: string, row: Row) returns (om: Option<ObjMap>)
    requires forall n :: n in nets ==> ValidNet(n)
    ensures om == LdapServer(nets, host, idx, row)
  {
    var titled := TitleServer(nets, host, row, "LDAP Server " + Replace(idx, ".", ""));
    if titled.None? {
      return None;
    }
    var data := Finish(titled.value, "ldap_", idx, host);
    om := Some(ObjMap(LdapModname, "", data));
  }

  function Nets(cfg: Config): (r: seq<Net>)
    ensures forall n :: n in r ==> ValidNet(n)
  {
    ValidNets(cfg.ignoreSubnets)
  }

  /** The LDAP table, emptied when LDAP servers are ignored as a type. */
  function LdapTable(td: TableData, cfg: Config): Table {
    if "ldap" in cfg.ignoreTypes then EmptyDict() else TableOr(td, "cldlServerTable")
  }

  function LdapOf(cfg: Config, host: Host, t: Table): string -> Option<ObjMap> {
    idx => LdapServer(Nets(cfg), host, idx, RowAt(t, idx))
  }

  function LdapMaps(td: TableData, cfg: Config, host: Host): seq<ObjMap> {
    FilterMap(LdapTable(td, cfg).keys, LdapOf(cfg, host, LdapTable(td, cfg)))
  }

  // ----- RADIUS -----

  /** A RADIUS server without an address, or in an ignored subnet, is skipped; the title is format_title. */
  function RadiusServer(nets: seq<Net>, host: Host, idx: string, row: Row, idPrefix: string, modname: string): Option<ObjMap>
    requires forall n :: n in nets ==> ValidNet(n)
  {
    var ip := Get(row, "ip", NoneV);
    if !Truthy(ip) || InAnyNet(ip, nets) then None
    else Some(ObjMap(modname, "", Finished(row["title" := FormatTitle(ip, Get(row, "port", NoneV))], idPrefix, idx, host)))
  }

  method ProcessRadius(nets: seq<Net>, host: Host, idx: string, row: Row, idPrefix: string, modname: string)
    returns (om: Option<ObjMap>)
    requires forall n :: n in nets ==> ValidNet(n)
    ensures om == RadiusServer(nets, host, idx, row, idPrefix, modname)
  {
    var ip := Get(row, "ip", NoneV);
    if !Truthy(ip) {
      return None;
    }
    var ignored := IpInNets(ip, nets);
    if ignored {
      return None;
    }
    var data := row["title" := FormatTitle(ip, Get(row, "port", NoneV))];
    data := Finish(data, idPrefix, idx, host);
    om := Some(ObjMap(modname, "", data));
  }

  /** The RADIUS servers of one table: authentication (`radauth_`) or accounting (`radacct_`). */
  datatype RadiusKind = Auth | Acct {
    function TableName(): string {
      if Auth? then "bsnRadiusAuthServerTable" else "bsnRadiusAccServerTable"
    }
    function TypeName(): string {
      if Auth? then "radiusauth" else "radiusacct"
    }
    function IdPrefix(): string {
      if Auth? then "radauth_" else "radacct_"
    }
    function Modname(): string {
      if Auth? then "ZenPacks.daviswr.Cisco.WLC.RadAuthServer" else "ZenPacks.daviswr.Cisco.WLC.RadAcctServer"
    }
  }

  /** A RADIUS table is emptied when its own type or `radius` is ignored. */
  predicate RadiusIgnored(cfg: Config, kind: RadiusKind) {
    kind.TypeName() in cfg.ignoreTypes || "radius" in cfg.ignoreTypes
  }

  function RadiusTable(td: TableData, cfg: Config, kind: RadiusKind): Table {
    if RadiusIgnored(cfg, kind) then EmptyDict() else TableOr(td, kind.TableName())
  }

  function RadiusOf(cfg: Config, host: Host, t: Table, kind: RadiusKind): string -> Option<ObjMap> {
    idx => RadiusServer(Nets(cfg), host, idx, RowAt(t, idx), kind.IdPrefix(), kind.Modname())
  }

  function RadiusMaps(td: TableData, cfg: Config, host: Host, kind: RadiusKind): seq<ObjMap> {
    FilterMap(RadiusTable(td, cfg, kind).keys, RadiusOf(cfg, host, RadiusTable(td, cfg, kind), kind))
  }

  // ----- TACACS+ -----

  /** The TACACS+ server kind, from the first component of the SNMP index. */
  function TacKind(idx: string): string {
    var first := Split(idx, '.')[0];
    if first == "1" then "TacAuthn"
    else if first == "2" then "TacAuthz"
    else if first == "3" then "TacAcct"
    else "Tacacs"
  }

  /** An index whose first component is 1, 2 or 3 names its kind; any other is plain Tacacs. */
  lemma TacKindOfIndex(first: string, rest: string)
    requires '.' !in first
    ensures TacKind(first + "." + rest) ==
      (if first == "1" then "TacAuthn" else if first == "2" then "TacAuthz"
       else if first == "3" then "TacAcct" else "Tacacs")
  {
    SplitCons(first, rest, '.');
  }

  function TacacsServer(cfg: Config, host: Host, idx: string, row: Row): Option<ObjMap>
    requires '.' in idx
  {
    var kind := TacKind(idx);
    if Lower(kind) in cfg.ignoreTypes then None
    else
      SplitHasTwo(idx, '.');
      match TitledServer(Nets(cfg), host, row, kind + " Server " + Split(idx, '.')[1])
      case None => None
      case Some(r) => Some(ObjMap("ZenPacks.daviswr.Cisco.WLC." + kind + "Server", "", Finished(r, Lower(kind) + "_", idx, host)))
  }

  method ProcessTacacs(cfg: Config, nets: seq<Net>, host: Host, idx: string, row: Row) returns (om: Option<ObjMap>)
    requires '.' in idx && nets == Nets(cfg)
    ensures om == TacacsServer(cfg, host, idx, row)
  {
    var kind := TacKind(idx);
    if Lower(kind) in cfg.ignoreTypes {
      return None;
    }
    SplitHasTwo(idx, '.');
    var titled := TitleServer(nets, host, row, kind + " Server " + Split(idx, '.')[1]);
    if titled.None? {
      return None;
    }
    var data := Finish(titled.value, Lower(kind) + "_", idx, host);
    om := Some(ObjMap("ZenPacks.daviswr.Cisco.WLC." + kind + "Server", "", data));
  }

  function TacacsTable(td: TableData, cfg: Config): Table {
    if "tacacs" in cfg.ignoreTypes then EmptyDict() else TableOr(td, "claTacacsServerTable")
  }

  /** The TACACS+ records of the servers at `keys`, in order. */
  function TacacsFrom(cfg: Config, host: Host, t: Table, keys: seq<string>): seq<ObjMap>
    requires forall k :: k in keys ==> '.' in k
  {
    if keys == [] then []
    else
      TacacsFrom(cfg, host, t, keys[..|keys| - 1])
        + OptSeq(TacacsServer(cfg, host, keys[|keys| - 1], RowAt(t, keys[|keys| - 1])))
  }

  /** One more index adds its record, if any, at the end. */
  lemma TacacsFromStep(cfg: Config, host: Host, t: Table, keys: seq<string>, i: nat)
    requires i < |keys| && forall k :: k in keys ==> '.' in k
    ensures TacacsFrom(cfg, host, t, keys[..i + 1]) ==
      TacacsFrom(cfg, host, t, keys[..i]) + OptSeq(TacacsServer(cfg, host, keys[i], RowAt(t, keys[i])))
  {
    assert keys[..i + 1][..i] == keys[..i];
  }

  /** Every SNMP index of the TACACS+ table has two components, server type and priority. */
  predicate TacacsIndexed(td: TableData) {
    forall k :: k in TableOr(td, "claTacacsServerTable").keys ==> '.' in k
  }

  function TacacsMaps(td: TableData, cfg: Config, host: Host): seq<ObjMap>
    requires TacacsIndexed(td)
  {
    TacacsFrom(cfg, host, TacacsTable(td, cfg), TacacsTable(td, cfg).keys)
  }

  // ----- the whole plugin -----

  /** What `process` returns: LDAP, then RADIUS authentication, RADIUS accounting and TACACS+ records. */
  function Result(td: TableData, cfg: Config, host: Host): RelMap
    requires TacacsIndexed(td)
  {
    RelMap("", "aaaServers", "ZenPacks.daviswr.Cisco.WLC.AAAServer",
      LdapMaps(td, cfg, host) + RadiusMaps(td, cfg, host, Auth) + RadiusMaps(td, cfg, host, Acct) + TacacsMaps(td, cfg, host))
  }

  method LdapPass(td: TableData, cfg: Config, nets: seq<Net>, host: Host) returns (out: seq<ObjMap>)
    requires nets == Nets(cfg)
    ensures out == LdapMaps(td, cfg, host)
  {
    var table := TableOr(td, "cldlServerTable");
    if "ldap" in cfg.ignoreTypes {
      table := EmptyDict();
    }
    assert table == LdapTable(td, cfg);
    out := [];
    for i := 0 to |table.keys|
      invariant out == FilterMap(table.keys[..i], LdapOf(cfg, host, table))
    {
      FilterMapStep(table.keys, i, LdapOf(cfg, host, table));
      var om := ProcessLdap(nets, host, table.keys[i], RowAt(table, table.keys[i]));
      if om.Some? {
        out := out + [om.value];
      }
    }
    assert table.keys[..|table.keys|] == table.keys;
  }

  method RadiusPass(td: TableData, cfg: Config, nets: seq<Net>, host: Host, kind: RadiusKind) returns (out: seq<ObjMap>)
    requires nets == Nets(cfg)
    ensures out == RadiusMaps(td, cfg, host, kind)
  {
    var table := TableOr(td, kind.TableName());
    if kind.TypeName() in cfg.ignoreTypes || "radius" in cfg.ignoreTypes {
      table := EmptyDict();
    }
    assert table == RadiusTable(td, cfg, kind);
    out := [];
    for i := 0 to |table.keys|
      invariant out == FilterMap(table.keys[..i], RadiusOf(cfg, host, table, kind))
    {
      FilterMapStep(table.keys, i, RadiusOf(cfg, host, table, kind));
      var om := ProcessRadius(nets, host, table.keys[i], RowAt(table, table.keys[i]), kind.IdPrefix(), kind.Modname());
      if om.Some? {
        out := out + [om.value];
      }
    }
    assert table.keys[..|table.keys|] == table.keys;
  }

  method TacacsPass(td: TableData, cfg: Config, nets: seq<Net>, host: Host) returns (out: seq<ObjMap>)
    requires nets == Nets(cfg) && TacacsIndexed(td)
    ensures out == TacacsMaps(td, cfg, host)
  {
    var table := TableOr(td, "claTacacsServerTable");
    if "tacacs" in cfg.ignoreTypes {
      table := EmptyDict();
    }
    assert table == TacacsTable(td, cfg);
    out := [];
    for i := 0 to |table.keys|
      invariant out == TacacsFrom(cfg, host, table, table.keys[..i])
    {
      TacacsFromStep(cfg, host, table, table.keys, i);
      var om := ProcessTacacs(cfg, nets, host, table.keys[i], RowAt(table, table.keys[i]));
      if om.Some? {
        out := out + [om.value];
      }
    }
    assert table.keys[..|table.keys|] == table.keys;
  }

  /** CiscoControllerAAA.process */
  method Process(td: TableData, cfg: Config, host: Host) returns (rm: RelMap)
    requires TacacsIndexed(td)
    ensures rm == Result(td, cfg, host)
  {
    var nets := ParseIgnoreNets(cfg.ignoreSubnets);
    var ldap := LdapPass(td, cfg, nets, host);
    var auth := RadiusPass(td, cfg, nets, host, Auth);
    var acct := RadiusPass(td, cfg, nets, host, Acct);
    var tacacs := TacacsPass(td, cfg, nets, host);
    rm := RelMap("", "aaaServers", "ZenPacks.daviswr.Cisco.WLC.AAAServer", ldap + auth + acct + tacacs);
  }

  // ----- properties -----

  /** Ignoring the type `ldap` leaves no LDAP record. */
  lemma LdapTypeIgnored(td: TableData, cfg: Config, host: Host)
    requires "ldap" in cfg.ignoreTypes
    ensures LdapMaps(td, cfg, host) == []
  {
  }

  /** `radius` suppresses both RADIUS tables, `radiusauth` and `radiusacct` only their own. */
  lemma RadiusTypesIgnored(td: TableData, cfg: Config, host: Host)
    ensures "radius" in cfg.ignoreTypes ==> RadiusMaps(td, cfg, host, Auth) == [] && RadiusMaps(td, cfg, host, Acct) == []
    ensures "radiusauth" in cfg.ignoreTypes ==> RadiusMaps(td, cfg, host, Auth) == []
    ensures "radiusacct" in cfg.ignoreTypes ==> RadiusMaps(td, cfg, host, Acct) == []
  {
  }

  /** Whether one RADIUS table is suppressed does not change the other's records. */
  lemma RadiusKindsIndependent(td: TableData, cfg1: Config, cfg2: Config, host: Host, kind: RadiusKind)
    requires cfg1.ignoreSubnets == cfg2.ignoreSubnets
    requires RadiusIgnored(cfg1, kind) == RadiusIgnored(cfg2, kind)
    ensures RadiusMaps(td, cfg1, host, kind) == RadiusMaps(td, cfg2, host, kind)
  {
    assert RadiusOf(cfg1, host, RadiusTable(td, cfg1, kind), kind) == RadiusOf(cfg2, host, RadiusTable(td, cfg2, kind), kind);
  }

  /** A RADIUS server is skipped exactly when it has no address or one in an ignored subnet. */
  lemma RadiusSkipIff(nets: seq<Net>, host: Host, idx: string, row: Row, kind: RadiusKind)
    requires forall n :: n in nets ==> ValidNet(n)
    ensures RadiusServer(nets, host, idx, row, kind.IdPrefix(), kind.Modname()).None? <==>
      !Truthy(Get(row, "ip", NoneV)) || InAnyNet(Get(row, "ip", NoneV), nets)
  {
  }

  /** An emitted RADIUS record is titled by format_title and its id carries the kind's prefix. */
  lemma RadiusRecord(nets: seq<Net>, host: Host, idx: string, row: Row, kind: RadiusKind)
    requires forall n :: n in nets ==> ValidNet(n)
    requires RadiusServer(nets, host, idx, row, kind.IdPrefix(), kind.Modname()).Some?
    ensures var m := RadiusServer(nets, host, idx, row, kind.IdPrefix(), kind.Modname()).value;
      var title := FormatTitle(row["ip"], Get(row, "port", NoneV));
      && m.modname == kind.Modname()
      && "title" in m.data && m.data["title"] == title
      && "id" in m.data && m.data["id"] == Str(host.prepId(kind.IdPrefix() + PyStr(title)))
  {
    assert "ip" in row && Get(row, "ip", NoneV) == row["ip"];
    var title := FormatTitle(row["ip"], Get(row, "port", NoneV));
    var titled := row["title" := title];
    assert RadiusServer(nets, host, idx, row, kind.IdPrefix(), kind.Modname())
      == Some(ObjMap(kind.Modname(), "", Finished(titled, kind.IdPrefix(), idx, host)));
    FinishedRules(titled, kind.IdPrefix(), idx, host);
  }

  /** A TACACS+ server whose lower-cased kind is an ignored type gives no record. */
  lemma TacacsKindIgnored(cfg: Config, host: Host, idx: string, row: Row)
    requires '.' in idx && Lower(TacKind(idx)) in cfg.ignoreTypes
    ensures TacacsServer(cfg, host, idx, row).None?
  {
  }

  /** An emitted TACACS+ record is of the class of its kind, and its id starts with the lower-cased kind. */
  lemma TacacsRecord(cfg: Config, host: Host, idx: string, row: Row)
    requires '.' in idx && TacacsServer(cfg, host, idx, row).Some?
    ensures var m := TacacsServer(cfg, host, idx, row).value;
      && m.modname == "ZenPacks.daviswr.Cisco.WLC." + TacKind(idx) + "Server"
      && "id" in m.data && "title" in m.data
      && m.data["id"] == Str(host.prepId(Lower(TacKind(idx)) + "_" + PyStr(m.data["title"])))
  {
    SplitHasTwo(idx, '.');
    var r := TitledServer(Nets(cfg), host, row, TacKind(idx) + " Server " + Split(idx, '.')[1]).value;
    FinishedRules(r, Lower(TacKind(idx)) + "_", idx, host);
  }
}
