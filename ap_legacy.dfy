/**
 * The CiscoAP modeler plugin, the older of the two AP plugins: AP groups,
 * the access points filed under them and each AP's radios, read from the
 * AP, CDP and radio tables only. Names are filtered from their start
 * (re.match), the subnet test converts the address inline, and radios are
 * titled "<ap> Radio <slot>".
 */
module CiscoAp {
  import opened Options
  import opened Values
  import opened PyStrings
  import opened Folds
  import opened Ipv4
  import opened ApCommon

  /** The zProperties the plugin reads. */
  datatype Config = Config(groupNames: Regex, models: seq<string>, apNames: Regex, subnets: seq<string>)

  /** What `process` works on: the properties, the framework helpers and the SNMP tables. */
  datatype Env = Env(cfg: Config, host: Host, td: TableData)

  /** The tables the plugin takes the length of: without any one of them it raises. */
  const Required: seq<string> := ["bsnAPGroupsVlanTable", "bsnAPTable", "clcCdpApCacheTable", "bsnAPIfTable"]

  function T(env: Env, name: string): Table {
    TableOr(env.td, name)
  }

  // ----- access points -----

  /** The name and model filters: no title, a name matched from its start, or an ignored model. */
  predicate NamedOut(cfg: Config, row: Row) {
    var name := Get(row, "title", NoneV);
    || name == NoneV
    || IgnoredBy(cfg.apNames, PyStr(name), true)
    || ModelIgnored(Get(row, "model", Str("")), cfg.models)
  }

  /**
   * Whether an AP is skipped: by the name and model filters, else by the
   * inline subnet loop, which raises for an address that is not IPv4 when
   * there is an address and at least one valid ignored network.
   */
  function Skip(cfg: Config, row: Row): Outcome<bool> {
    if NamedOut(cfg, row) then Done(true)
    else
      var ip := Get(row, "ip", Str(""));
      InlineSkip(Truthy(ip), ip, ValidNets(cfg.subnets))
  }

  /** The AP row with its MACs converted and a non-empty model stripped. */
  function Cleaned(row: Row, host: Host): Row {
    ModelStripped(ColumnsMapped(row, Macs, Asmac(host)), Get(row, "model", Str("")))
  }

  /** The finished AP record: cleaned, joined with its CDP neighbour, identified. */
  function ApRow(env: Env, idx: string, row: Row): Outcome<Row> {
    match CdpJoined(Cleaned(row, env.host), T(env, "clcCdpApCacheTable"), idx, env.host)
    case Raised(e) => Raised(e)
    case Done(r) => Done(Identified(r, idx, Get(row, "title", NoneV), env.host))
  }

  function SkipOf(cfg: Config): Row -> Outcome<bool> {
    row => Skip(cfg, row)
  }

  function CleanOf(env: Env): (string, Row) -> Outcome<Row> {
    (idx, row) => ApRow(env, idx, row)
  }

  /** One AP row: skipped, or cleaned and filed under its group with an empty radio table. */
  function ApStep(env: Env): (ApState, string) -> Outcome<ApState> {
    ApFiling(T(env, "bsnAPTable"), env.host, SkipOf(env.cfg), CleanOf(env))
  }

  /** The filters of the AP loop, with the ignored networks parsed beforehand. */
  method SkipAp(cfg: Config, nets: seq<Net>, row: Row) returns (r: Outcome<bool>)
    requires nets == ValidNets(cfg.subnets)
    ensures r == Skip(cfg, row)
  {
    var name := Get(row, "title", NoneV);
    if name == NoneV || IgnoredBy(cfg.apNames, PyStr(name), true) || ModelIgnored(Get(row, "model", Str("")), cfg.models) {
      return Done(true);
    }
    var ip := Get(row, "ip", Str(""));
    r := SkipNet(Truthy(ip), ip, nets);
  }

  method CleanAp(env: Env, idx: string, row: Row) returns (out: Outcome<Row>)
    ensures out == ApRow(env, idx, row)
  {
    var r := ConvertMacs(row, env.host);
    var model := Get(row, "model", Str(""));
    if Truthy(model) {
      r := r["model" := StripValue(r["model"], ' ')];
    }
    assert r == Cleaned(row, env.host);
    var joined := JoinCdp(r, T(env, "clcCdpApCacheTable"), idx, env.host);
    if joined.Raised? {
      return Raised(joined.error);
    }
    r := joined.value["snmpindex" := Str(Strip(idx, '.'))];
    r := r["id" := Str(env.host.prepId(PyStr(Get(row, "title", NoneV))))];
    out := Done(r);
  }

  method ApPass(env: Env, gs: Groups) returns (out: Outcome<ApState>)
    ensures out == TryFold(T(env, "bsnAPTable").keys, ApState(gs, EmptyDict()), ApStep(env))
  {
    var t := T(env, "bsnAPTable");
    var keys := t.keys;
    var init := ApState(gs, EmptyDict());
    var nets := ParseIgnoreNets(env.cfg.subnets);
    var st := init;
    for i := 0 to |keys|
      invariant TryFold(keys[..i], init, ApStep(env)) == Done(st)
    {
      TryFoldStep(keys, i, init, ApStep(env), st);
      var idx := keys[i];
      var row := RowAt(t, idx);
      var skip := SkipAp(env.cfg, nets, row);
      if skip.Raised? {
        assert ApStep(env)(st, idx) == Raised(skip.error);
        TryFoldRaised(keys, i + 1, init, ApStep(env), skip.error);
        return Raised(skip.error);
      }
      if skip.value {
        continue;
      }
      var r := CleanAp(env, idx, row);
      if r.Raised? {
        assert ApStep(env)(st, idx) == Raised(r.error);
        TryFoldRaised(keys, i + 1, init, ApStep(env), r.error);
        return Raised(r.error);
      }
      st := Accepted(st, env.host, Get(row, "group", Str("default-group")), PyStr(Get(row, "title", NoneV)), idx, r.value);
    }
    assert keys[..|keys|] == keys;
    out := Done(st);
  }

  /**
   * The AP filter raises exactly when a row passes the name and model
   * filters, has an address, there is a valid ignored network, and the
   * address is no IPv4 address; otherwise it skips the names and models the
   * properties ignore and the addresses in an ignored network.
   */
  lemma SkipRules(cfg: Config, row: Row)
    ensures var ip := Get(row, "ip", Str(""));
      var nets := ValidNets(cfg.subnets);
      && (Skip(cfg, row).Raised? <==> !NamedOut(cfg, row) && Truthy(ip) && nets != [] && ParseAddress(ip).None?)
      && (Skip(cfg, row).Raised? ==> Skip(cfg, row).error == ValueError(PyStr(ip)))
      && (Skip(cfg, row).Done? ==> Skip(cfg, row).value == (NamedOut(cfg, row) || (Truthy(ip) && InAnyNet(ip, nets))))
  {
    var ip := Get(row, "ip", Str(""));
    InlineSkipAgrees(Truthy(ip), ip, ValidNets(cfg.subnets));
  }

  /** An AP without an address is never dropped for its subnet, and its filter never raises. */
  lemma NoAddressKept(cfg: Config, row: Row)
    requires !Truthy(Get(row, "ip", Str("")))
    ensures Skip(cfg, row) == Done(NamedOut(cfg, row))
  {
  }

  /** Without ignored subnets the filter never raises and only names and models count. */
  lemma NoSubnetsNoRaise(cfg: Config, row: Row)
    requires ValidNets(cfg.subnets) == []
    ensures Skip(cfg, row) == Done(NamedOut(cfg, row))
  {
  }

  /**
   * The cleaned AP row has the columns of the AP row: the MACs converted,
   * a non-empty model stripped, every other column as read.
   */
  lemma CleanedRules(row: Row, host: Host)
    ensures var r := Cleaned(row, host);
      && r.Keys == row.Keys
      && (forall a :: a in row && a in Macs ==> r[a] == Str(host.asmac(row[a])))
      && (Truthy(Get(row, "model", Str(""))) ==> r["model"] == StripValue(row["model"], ' '))
      && (forall a :: a in row && a !in Macs && a != "model" ==> r[a] == row[a])
      && ("model" in row && !Truthy(row["model"]) ==> r["model"] == row["model"])
  {
  }

  /**
   * An AP record fails only for a CDP neighbour typed 1 without an address;
   * otherwise it carries the stripped index and the id made from the title.
   */
  lemma ApRowRules(env: Env, idx: string, row: Row)
    ensures var cdp := T(env, "clcCdpApCacheTable");
      var out := ApRow(env, idx, row);
      && (out.Raised? <==>
            idx + ".1" in cdp.vals && IsOne(Get(cdp.vals[idx + ".1"], "neighborIpType", Str(""))) && "neighborIp" !in cdp.vals[idx + ".1"])
      && (out.Raised? ==> out.error == KeyError("neighborIp"))
      && (out.Done? ==>
            && out.value["snmpindex"] == Str(Strip(idx, '.'))
            && out.value["id"] == Str(env.host.prepId(PyStr(Get(row, "title", NoneV)))))
  {
  }

  // ----- radios -----

  const RadioCodes: map<string, map<int, Value>> := map[
    "band" := BandCodes, "diversity" := DiversityCodes, "mode" := AntennaModeCodes,
    "antenna" := AntennaCodes, "assignment" := AssignmentCodes]

  /** The radio record built from the bsnAPIfTable row `raw`: its codes translated, its index stripped. */
  function RadioFinished(raw: Row, idx: string): Row {
    TranslatedRow(raw, RadioCodes)["snmpindex" := Str(Strip(idx, '.'))]
  }

  function RadioRow(env: Env, idx: string): Row {
    RadioFinished(RowAt(T(env, "bsnAPIfTable"), idx), idx)
  }

  /** One radio row, filed under its AP when that AP was kept. */
  function RadioStep(env: Env): (Radios, string) -> Radios {
    (rs: Radios, idx: string) => RadioPlace(rs, RadioIndexes(idx).0, RadioIndexes(idx).1, RadioRow(env, idx))
  }

  method CleanRadio(env: Env, idx: string) returns (r: Row)
    ensures r == RadioRow(env, idx)
  {
    r := TranslateCodes(RowAt(T(env, "bsnAPIfTable"), idx), RadioCodes);
    r := r["snmpindex" := Str(Strip(idx, '.'))];
  }

  method RadioPass(env: Env, rs: Radios) returns (out: Radios)
    ensures out == Fold(T(env, "bsnAPIfTable").keys, rs, RadioStep(env))
  {
    var keys := T(env, "bsnAPIfTable").keys;
    out := rs;
    for i := 0 to |keys|
      invariant out == Fold(keys[..i], rs, RadioStep(env))
    {
      FoldStep(keys, i, rs, RadioStep(env));
      var idx := keys[i];
      var r := CleanRadio(env, idx);
      var (apIdx, radioIdx) := RadioIndexes(idx);
      out := RadioPlace(out, apIdx, radioIdx, r);
    }
    assert keys[..|keys|] == keys;
  }

  /** The band, diversity, antenna mode, antenna and channel assignment codes take their names. */
  lemma RadioTranslates(raw: Row, idx: string)
    ensures var r := RadioFinished(raw, idx);
      forall a :: a in raw && a in RadioCodes ==> r[a] == Translated(RadioCodes[a], raw[a])
  {
  }

  /** A radio record has the columns of its row and the stripped index; the uncoded columns are kept. */
  lemma RadioColumns(raw: Row, idx: string)
    ensures var r := RadioFinished(raw, idx);
      && r.Keys == raw.Keys + {"snmpindex"}
      && r["snmpindex"] == Str(Strip(idx, '.'))
      && forall a :: a in raw && a !in RadioCodes && a != "snmpindex" ==> r[a] == raw[a]
  {
  }

  /** A band code of 1 reads 2.4 GHz and of 2 reads 5 GHz. */
  lemma RadioBand(raw: Row, idx: string)
    requires "band" in raw
    ensures raw["band"] == Int(1) ==> RadioFinished(raw, idx)["band"] == Str("2.4 GHz")
    ensures raw["band"] == Int(2) ==> RadioFinished(raw, idx)["band"] == Str("5 GHz")
  {
    BandCoded();
    var t := TranslatedRow(raw, RadioCodes);
    assert RadioFinished(raw, idx)["band"] == t["band"];
    assert t["band"] == Translated(BandCodes, raw["band"]);
    TranslatedRule(BandCodes, raw["band"]);
  }

  lemma BandCoded()
    ensures "band" in RadioCodes && RadioCodes["band"] == BandCodes
  {
  }

  /** The radio pass files radios under the APs of the AP pass and opens no new ones. */
  lemma {:induction false} RadioPassKeepsAps(env: Env, keys: seq<string>, rs: Radios)
    ensures Fold(keys, rs, RadioStep(env)).keys == rs.keys
    ensures Fold(keys, rs, RadioStep(env)).vals.Keys == rs.vals.Keys
  {
    if keys != [] {
      RadioPassKeepsAps(env, keys[..|keys| - 1], rs);
    }
  }

  // ----- process -----

  /** What `process` returns, or the exception it raises. */
  function Result(env: Env): Outcome<seq<RelMap>> {
    if !HasTables(env.td, Required) then Raised(TypeError("len"))
    else
      var gs := GroupsOf(env.host, env.cfg.groupNames, true, T(env, "bsnAPGroupsVlanTable"));
      match TryFold(T(env, "bsnAPTable").keys, ApState(gs, EmptyDict()), ApStep(env))
      case Raised(e) => Raised(e)
      case Done(st) =>
        var radios := Fold(T(env, "bsnAPIfTable").keys, st.radios, RadioStep(env));
        Done(Relations(ApState(st.groups, radios), env.host, "Radio"))
  }

  method Process(env: Env) returns (out: Outcome<seq<RelMap>>)
    ensures out == Result(env)
  {
    if !HasTables(env.td, Required) {
      return Raised(TypeError("len"));
    }
    var gs := GroupPass(env.host, env.cfg.groupNames, true, T(env, "bsnAPGroupsVlanTable"));
    var aps := ApPass(env, gs);
    if aps.Raised? {
      return Raised(aps.error);
    }
    var radios := RadioPass(env, aps.value.radios);
    var maps := BuildRelations(ApState(aps.value.groups, radios), env.host, "Radio");
    out := Done(maps);
  }
}
