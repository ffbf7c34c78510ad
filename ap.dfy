/**
 * The CiscoControllerAP modeler plugin: AP groups, the access points filed
 * under them and each AP's radios, read from a controller running AireOS.
 * Access points and radios take columns from several tables merged on the
 * same SNMP index, and their coded columns are translated into names.
 */
module ControllerAp {
  import opened Options
  import opened Values
  import opened PyStrings
  import opened Ipv4
  import opened ApCommon

  /** The zProperties the plugin reads. */
  datatype Config = Config(groupNames: Regex, models: seq<string>, apNames: Regex, subnets: seq<string>)

  /** What `process` works on: the properties, the framework helpers and the SNMP tables. */
  datatype Env = Env(cfg: Config, host: Host, td: TableData)

  /** The tables read without a default: without any one of them the plugin raises. */
  const Required: seq<string> :=
    ["bsnAPGroupsVlanTable", "bsnAPTable", "cLApTable", "entPhysicalTable", "clcCdpApCacheTable", "bsnAPIfTable"]

  function T(env: Env, name: string): Table {
    TableOr(env.td, name)
  }

  // ----- access points -----

  const ApModeCodes: map<int, Value> := map[
    0 := Str("Local"), 1 := Str("Monitor"), 2 := Str("FlexConnect"), 3 := Str("Rogue Detector"),
    4 := Str("Sniffer"), 5 := Str("Bridge"), 6 := Str("Spectrum Expert Connect")]

  const ApCodes: map<string, map<int, Value>> := map["enabled" := EnabledCodes, "latency" := EnabledCodes, "mode" := ApModeCodes]

  /** An AP is skipped without a title, for a name or model the properties ignore, or for an address in an ignored subnet. */
  predicate ApSkipped(cfg: Config, row: Row) {
    var name := Get(row, "title", NoneV);
    || name == NoneV
    || IgnoredBy(cfg.apNames, PyStr(name), false)
    || ModelIgnored(Get(row, "model", Str("")), cfg.models)
    || InAnyNet(Get(row, "ip", Str("")), ValidNets(cfg.subnets))
  }

  /** The AP row with the latency and cLApTable rows of its index merged in. */
  function Merged(env: Env, idx: string, row: Row): Row {
    Update(Update(row, RowAt(T(env, "cLApLinkLatencyTable"), idx)), RowAt(T(env, "cLApTable"), idx))
  }

  /** The merged row with its codes translated and its MACs converted. */
  function Coded(m: Row, host: Host): (r: Row)
    ensures r.Keys == m.Keys
  {
    ColumnsMapped(TranslatedRow(m, ApCodes), Macs, Asmac(host))
  }

  /**
   * The merged row `m` with its codes translated, its MACs converted, a model
   * given in the AP table and the IOS version stripped, and the hardware
   * version of the entity it names added from `ent`.
   */
  function Cleaned(m: Row, model: Value, ent: Table, host: Host): Row
    requires Truthy(model) ==> "model" in m
  {
    WithHardware(IosStripped(ModelStripped(Coded(m, host), model)), ent)
  }

  /** The IOS version has the `$` at its ends stripped. */
  function IosStripped(r: Row): Row {
    if "iosVersion" in r then r["iosVersion" := StripValue(r["iosVersion"], '$')] else r
  }

  /** The hardware version of the entity the row's ent_idx names, None where there is none. */
  function WithHardware(r: Row, ent: Table): Row {
    r["hwVersion" := Get(RowAt(ent, PyStr(Get(r, "ent_idx", Int(0)))), "hwVersion", NoneV)]
  }

  function ApCleaned(env: Env, idx: string, row: Row): Row {
    Cleaned(Merged(env, idx, row), Get(row, "model", Str("")), T(env, "entPhysicalTable"), env.host)
  }

  /** The finished AP record: cleaned, joined with its CDP neighbour, identified. */
  function ApRow(env: Env, idx: string, row: Row): Outcome<Row> {
    match CdpJoined(ApCleaned(env, idx, row), T(env, "clcCdpApCacheTable"), idx, env.host)
    case Raised(e) => Raised(e)
    case Done(r) => Done(Identified(r, idx, Get(row, "title", NoneV), env.host))
  }

  /** The stripping of a model given in the AP table and of the IOS version. */
  method StripText(c: Row, model: Value) returns (r: Row)
    requires Truthy(model) ==> "model" in c
    ensures r == IosStripped(ModelStripped(c, model))
  {
    r := c;
    if Truthy(model) {
      r := r["model" := StripValue(r["model"], ' ')];
    }
    assert r == ModelStripped(c, model);
    if "iosVersion" in r {
      r := r["iosVersion" := StripValue(r["iosVersion"], '$')];
    }
  }

  method CleanColumns(m: Row, model: Value, ent: Table, host: Host) returns (r: Row)
    requires Truthy(model) ==> "model" in m
    ensures r == Cleaned(m, model, ent, host)
  {
    r := TranslateCodes(m, ApCodes);
    r := ConvertMacs(r, host);
    assert r == Coded(m, host);
    r := StripText(r, model);
    var entity := RowAt(ent, PyStr(Get(r, "ent_idx", Int(0))));
    r := r["hwVersion" := Get(entity, "hwVersion", NoneV)];
  }

  method CleanAp(env: Env, idx: string, row: Row) returns (out: Outcome<Row>)
    ensures out == ApRow(env, idx, row)
  {
    var r := Update(row, RowAt(T(env, "cLApLinkLatencyTable"), idx));
    r := Update(r, RowAt(T(env, "cLApTable"), idx));
    r := CleanColumns(r, Get(row, "model", Str("")), T(env, "entPhysicalTable"), env.host);
    var joined := JoinCdp(r, T(env, "clcCdpApCacheTable"), idx, env.host);
    if joined.Raised? {
      return Raised(joined.error);
    }
    r := joined.value["snmpindex" := Str(Strip(idx, '.'))];
    r := r["id" := Str(env.host.prepId(PyStr(Get(row, "title", NoneV))))];
    out := Done(r);
  }

  function SkipOf(cfg: Config): Row -> Outcome<bool> {
    row => Done(ApSkipped(cfg, row))
  }

  function CleanOf(env: Env): (string, Row) -> Outcome<Row> {
    (idx, row) => ApRow(env, idx, row)
  }

  /** One AP row: skipped, or cleaned and filed under its group with an empty radio table. */
  function ApStep(env: Env): (ApState, string) -> Outcome<ApState> {
    ApFiling(T(env, "bsnAPTable"), env.host, SkipOf(env.cfg), CleanOf(env))
  }

  method ApPass(env: Env, gs: Groups) returns (out: Outcome<ApState>)
    ensures out == TryFold(T(env, "bsnAPTable").keys, ApState(gs, EmptyDict()), ApStep(env))
  {
    var t := T(env, "bsnAPTable");
    var keys := t.keys;
    var init := ApState(gs, EmptyDict());
    var nets := ParseIgnoreNets(env.cfg.subnets);
    var st := init;
    for i := 0 to |keys|
      invariant TryFold(keys[..i], init, ApStep(env)) == Done(st)
    {
      TryFoldStep(keys, i, init, ApStep(env), st);
      var idx := keys[i];
      var row := RowAt(t, idx);
      var name := Get(row, "title", NoneV);
      if name == NoneV || IgnoredBy(env.cfg.apNames, PyStr(name), false) || ModelIgnored(Get(row, "model", Str("")), env.cfg.models) {
        continue;
      }
      var inNet := IpInNets(Get(row, "ip", Str("")), nets);
      if inNet {
        continue;
      }
      assert !ApSkipped(env.cfg, row);
      var r := CleanAp(env, idx, row);
      if r.Raised? {
        assert ApStep(env)(st, idx) == Raised(r.error);
        TryFoldRaised(keys, i + 1, init, ApStep(env), r.error);
        return Raised(r.error);
      }
      st := Accepted(st, env.host, Get(row, "group", Str("default-group")), PyStr(name), idx, r.value);
    }
    assert keys[..|keys|] == keys;
    out := Done(st);
  }

  /** The coded columns take the names of their codes. */
  lemma CodedTranslates(m: Row, host: Host)
    ensures forall a :: a in m && a in ApCodes ==> Coded(m, host)[a] == Translated(ApCodes[a], m[a])
  {
  }

  /** The MAC columns are converted with asmac. */
  lemma CodedMacs(m: Row, host: Host)
    ensures forall a :: a in m && a in Macs ==> Coded(m, host)[a] == Str(host.asmac(m[a]))
  {
  }

  /** The columns that are neither coded nor MACs are kept. */
  lemma CodedKeeps(m: Row, host: Host)
    ensures forall a :: a in m && a !in ApCodes && a !in Macs ==> Coded(m, host)[a] == m[a]
  {
  }

  /** The stages after the coding, on any coded row `c`. */
  lemma StripStages(c: Row, model: Value, ent: Table)
    requires Truthy(model) ==> "model" in c
    ensures var r := WithHardware(IosStripped(ModelStripped(c, model)), ent);
      && r.Keys == c.Keys + {"hwVersion"}
      && (Truthy(model) ==> r["model"] == StripValue(c["model"], ' '))
      && ("iosVersion" in c ==> r["iosVersion"] == StripValue(c["iosVersion"], '$'))
      && r["hwVersion"] == Get(RowAt(ent, PyStr(Get(c, "ent_idx", Int(0)))), "hwVersion", NoneV)
      && forall a :: (a in c && a != "model" && a != "iosVersion" && a != "hwVersion") ==> r[a] == c[a]
  {
    var r2 := IosStripped(ModelStripped(c, model));
    assert Get(r2, "ent_idx", Int(0)) == Get(c, "ent_idx", Int(0));
  }

  /**
   * The cleaned AP row: a model given in the AP table and the IOS version
   * stripped, and the hardware version of the entity its ent_idx names;
   * every other column as coded.
   */
  lemma CleanedRules(m: Row, model: Value, ent: Table, host: Host)
    requires Truthy(model) ==> "model" in m
    ensures var c := Coded(m, host);
      var r := Cleaned(m, model, ent, host);
      && (Truthy(model) ==> r["model"] == StripValue(c["model"], ' '))
      && ("iosVersion" in m ==> r["iosVersion"] == StripValue(c["iosVersion"], '$'))
      && r["hwVersion"] == Get(RowAt(ent, PyStr(Get(c, "ent_idx", Int(0)))), "hwVersion", NoneV)
  {
    StripStages(Coded(m, host), model, ent);
  }

  /** Cleaning adds the hardware version and keeps every column it does not strip. */
  lemma CleanedKeeps(m: Row, model: Value, ent: Table, host: Host)
    requires Truthy(model) ==> "model" in m
    ensures var c := Coded(m, host);
      var r := Cleaned(m, model, ent, host);
      && r.Keys == m.Keys + {"hwVersion"}
      && forall a :: (a in m && a != "model" && a != "iosVersion" && a != "hwVersion") ==> r[a] == c[a]
  {
    StripStages(Coded(m, host), model, ent);
  }

  /** The text columns the cleaning strips are neither coded nor MACs. */
  lemma CodedKeepsText(m: Row, host: Host)
    ensures forall a :: a in m && (a == "model" || a == "iosVersion" || a == "ent_idx") ==> Coded(m, host)[a] == m[a]
  {
    CodedKeeps(m, host);
  }

  /** The merged row: the cLApTable row wins over the latency row, which wins over the AP row. */
  lemma MergedRules(env: Env, idx: string, row: Row)
    ensures var lat := RowAt(T(env, "cLApLinkLatencyTable"), idx);
      var ap := RowAt(T(env, "cLApTable"), idx);
      var m := Merged(env, idx, row);
      && m.Keys == row.Keys + lat.Keys + ap.Keys
      && (forall a :: a in ap ==> m[a] == ap[a])
      && (forall a :: a in lat && a !in ap ==> m[a] == lat[a])
      && (forall a :: a in row && a !in lat && a !in ap ==> m[a] == row[a])
  {
  }

  /** A missing latency table reads as an empty one: the AP row takes only its cLApTable row. */
  lemma NoLatencyTable(env: Env, idx: string, row: Row)
    requires "cLApLinkLatencyTable" !in env.td
    ensures Merged(env, idx, row) == Update(row, RowAt(T(env, "cLApTable"), idx))
  {
  }

  // ----- radios -----

  const WidthCodes: map<int, Value> := map[
    1 := Str("5 MHz"), 2 := Str("10 MHz"), 3 := Str("20 MHz"), 4 := Str("40 MHz"), 5 := Str("80 MHz")]

  const RadioCodes: map<string, map<int, Value>> := map[
    "11n" := EnabledCodes, "antenna" := AntennaCodes, "assignment" := AssignmentCodes, "band" := BandCodes,
    "diversity" := DiversityCodes, "enabled" := EnabledCodes, "mode" := AntennaModeCodes,
    "width" := WidthCodes, "width_new" := WidthCodes]

  lemma RadioCodesAt()
    ensures "11n" in RadioCodes && RadioCodes["11n"] == EnabledCodes
    ensures "band" in RadioCodes && RadioCodes["band"] == BandCodes
  {
  }

  /** The bsnAPIfTable row with its cLApDot11IfTable row merged in, codes translated. */
  function RadioMerged(env: Env, idx: string): Row {
    TranslatedRow(Update(RowAt(T(env, "bsnAPIfTable"), idx), RowAt(T(env, "cLApDot11IfTable"), idx)), RadioCodes)
  }

  /** The letter of the radio type by band, for a radio without 11n. */
  function BandLetter(band: Value): string {
    if band == Str("2.4 GHz") then "g" else if band == Str("5 GHz") then "a" else ""
  }

  /** The IEEE 802.11 radio type before the channel width is known. */
  function Dot11(r: Row): string {
    "802.11" + (if Truthy(Get(r, "11n", NoneV)) then "n" else BandLetter(Get(r, "band", NoneV)))
  }

  /** A non-empty extension channel is appended to the channel; a value without a length raises. */
  function ChannelJoined(r: Row): Outcome<Row> {
    var ext := Get(r, "ext_channel", Str(""));
    match PyLen(ext)
    case Raised(e) => Raised(e)
    case Done(n) =>
      if n == 0 then Done(r)
      else if "channel" !in r then Raised(KeyError("channel"))
      else Done(r["channel" := Str(PyStr(r["channel"]) + "," + PyStr(ext))])
  }

  /** The newer width column wins; an 80 MHz channel makes the radio 802.11ac; a radio with no width raises. */
  function WidthSet(r: Row): Outcome<Row> {
    var r1 := if "width_new" in r then r["width" := r["width_new"]] else r;
    if "width" !in r1 then Raised(KeyError("width"))
    else if r1["width"] == Str("80 MHz") then Done(r1["dot11" := Str("802.11ac")])
    else Done(r1)
  }

  /** The channel is joined with a non-empty extension channel; nothing else changes. */
  lemma ChannelJoinedRules(r: Row)
    ensures var ext := Get(r, "ext_channel", Str(""));
      var out := ChannelJoined(r);
      && (out.Raised? <==> PyLen(ext).Raised? || (PyLen(ext).value > 0 && "channel" !in r))
      && (out.Raised? ==> out.error == (if PyLen(ext).Raised? then TypeError("len") else KeyError("channel")))
      && (out.Done? ==>
            && out.value.Keys == r.Keys
            && (PyLen(ext).value > 0 ==> out.value["channel"] == Str(PyStr(r["channel"]) + "," + PyStr(ext)))
            && (forall a :: a in r && (a != "channel" || PyLen(ext).value == 0) ==> out.value[a] == r[a]))
  {
  }

  /** The width is the newer column when there is one, and an 80 MHz width makes the type 802.11ac; nothing else changes. */
  lemma WidthSetRules(r: Row)
    ensures var out := WidthSet(r);
      && (out.Raised? <==> "width" !in r && "width_new" !in r)
      && (out.Raised? ==> out.error == KeyError("width"))
      && (out.Done? ==>
            && out.value.Keys == r.Keys + {"width"} + (if out.value["width"] == Str("80 MHz") then {"dot11"} else {})
            && out.value["width"] == (if "width_new" in r then r["width_new"] else r["width"])
            && (out.value["width"] == Str("80 MHz") ==> out.value["dot11"] == Str("802.11ac"))
            && (forall a :: a in r && a != "width" && (a != "dot11" || out.value["width"] != Str("80 MHz")) ==> out.value[a] == r[a]))
  {
  }

  /** The finished radio record of index `idx`. */
  function RadioRow(env: Env, idx: string): Outcome<Row> {
    RadioFinished(RadioMerged(env, idx), idx)
  }

  /** The radio record built from the translated row `t`. */
  function RadioFinished(t: Row, idx: string): Outcome<Row> {
    match ChannelJoined(t["dot11" := Str(Dot11(t))])
    case Raised(e) => Raised(e)
    case Done(r) =>
      match WidthSet(r)
      case Raised(e) => Raised(e)
      case Done(w) => Done(w["snmpindex" := Str(Strip(idx, '.'))])
  }

  method CleanRadio(env: Env, idx: string) returns (out: Outcome<Row>)
    ensures out == RadioRow(env, idx)
  {
    var r := Update(RowAt(T(env, "bsnAPIfTable"), idx), RowAt(T(env, "cLApDot11IfTable"), idx));
    r := TranslateCodes(r, RadioCodes);
    var t := r;
    var dot11 := "802.11";
    if Truthy(Get(r, "11n", NoneV)) {
      dot11 := dot11 + "n";
    } else {
      dot11 := dot11 + BandLetter(Get(r, "band", NoneV));
    }
    r := r["dot11" := Str(dot11)];
    var ext := Get(r, "ext_channel", Str(""));
    var n := PyLen(ext);
    if n.Raised? {
      return Raised(n.error);
    }
    if n.value > 0 {
      if "channel" !in r {
        return Raised(KeyError("channel"));
      }
      r := r["channel" := Str(PyStr(r["channel"]) + "," + PyStr(ext))];
    }
    assert ChannelJoined(t["dot11" := Str(Dot11(t))]) == Done(r);
    if "width_new" in r {
      r := r["width" := r["width_new"]];
    }
    if "width" !in r {
      return Raised(KeyError("width"));
    }
    if r["width"] == Str("80 MHz") {
      r := r["dot11" := Str("802.11ac")];
    }
    out := Done(r["snmpindex" := Str(Strip(idx, '.'))]);
  }

  /** One radio row, filed under its AP when that AP was kept. */
  function RadioStep(env: Env): (Radios, string) -> Outcome<Radios> {
    (rs: Radios, idx: string) =>
      match RadioRow(env, idx)
      case Raised(e) => Raised(e)
      case Done(r) => Done(RadioPlace(rs, RadioIndexes(idx).0, RadioIndexes(idx).1, r))
  }

  method RadioPass(env: Env, rs: Radios) returns (out: Outcome<Radios>)
    ensures out == TryFold(T(env, "bsnAPIfTable").keys, rs, RadioStep(env))
  {
    var keys := T(env, "bsnAPIfTable").keys;
    var cur := rs;
    ghost var f := RadioStep(env);
    for i := 0 to |keys|
      invariant TryFold(keys[..i], rs, f) == Done(cur)
    {
      TryFoldStep(keys, i, rs, f, cur);
      var idx := keys[i];
      var r := CleanRadio(env, idx);
      if r.Raised? {
        assert f(cur, idx) == Raised(r.error);
        TryFoldRaised(keys, i + 1, rs, f, r.error);
        return Raised(r.error);
      }
      var (apIdx, radioIdx) := RadioIndexes(idx);
      assert f(cur, idx) == Done(RadioPlace(cur, apIdx, radioIdx, r.value));
      cur := RadioPlace(cur, apIdx, radioIdx, r.value);
    }
    assert keys[..|keys|] == keys;
    out := Done(cur);
  }

  /** A radio the 802.11n column marks as supporting 11n is of type 802.11n. */
  lemma Dot11N(raw: Row)
    requires "11n" in raw && raw["11n"] == Int(1)
    ensures Dot11(TranslatedRow(raw, RadioCodes)) == "802.11n"
  {
    RadioCodesAt();
    assert TranslatedRow(raw, RadioCodes)["11n"] == Translated(EnabledCodes, raw["11n"]);
  }

  /** A radio whose 802.11n column is absent or says no is not marked as 11n once translated. */
  lemma Without11n(raw: Row)
    requires "11n" !in raw || raw["11n"] == Int(2)
    ensures !Truthy(Get(TranslatedRow(raw, RadioCodes), "11n", NoneV))
  {
    RadioCodesAt();
    if "11n" in raw {
      assert TranslatedRow(raw, RadioCodes)["11n"] == Translated(EnabledCodes, raw["11n"]);
    }
  }

  /** The translated band is the name of the band code. */
  lemma BandTranslated(raw: Row)
    requires "band" in raw
    ensures Get(TranslatedRow(raw, RadioCodes), "band", NoneV) == Translated(BandCodes, raw["band"])
  {
    RadioCodesAt();
  }

  /** The type of a radio not marked as 11n, by its band name. */
  lemma Dot11OfBand(r: Row)
    requires !Truthy(Get(r, "11n", NoneV))
    ensures Get(r, "band", NoneV) == Str("2.4 GHz") ==> Dot11(r) == "802.11g"
    ensures Get(r, "band", NoneV) == Str("5 GHz") ==> Dot11(r) == "802.11a"
  {
  }

  /** Without 11n the type follows the band: g for 2.4 GHz, a for 5 GHz. */
  lemma Dot11ByBand(raw: Row)
    requires "11n" !in raw || raw["11n"] == Int(2)
    requires "band" in raw
    ensures raw["band"] == Int(1) ==> Dot11(TranslatedRow(raw, RadioCodes)) == "802.11g"
    ensures raw["band"] == Int(2) ==> Dot11(TranslatedRow(raw, RadioCodes)) == "802.11a"
  {
    Without11n(raw);
    BandTranslated(raw);
    Dot11OfBand(TranslatedRow(raw, RadioCodes));
  }

  /** A radio with neither 11n nor a band has no letter. */
  lemma Dot11NoBand(raw: Row)
    requires "11n" !in raw || raw["11n"] == Int(2)
    requires "band" !in raw
    ensures Dot11(TranslatedRow(raw, RadioCodes)) == "802.11"
  {
    Without11n(raw);
  }

  /**
   * A radio record raises for an extension channel without a length, for an
   * extension channel without a channel, and for a radio without any width.
   */
  lemma RadioRaises(t: Row, idx: string)
    ensures var ext := Get(t, "ext_channel", Str(""));
      var out := RadioFinished(t, idx);
      && (out.Raised? <==>
            (|| PyLen(ext).Raised?
             || (PyLen(ext).value > 0 && "channel" !in t)
             || ("width" !in t && "width_new" !in t)))
      && (out.Raised? ==>
            out.error == (if PyLen(ext).Raised? then TypeError("len")
                          else if PyLen(ext).value > 0 && "channel" !in t then KeyError("channel")
                          else KeyError("width")))
  {
    var t1 := t["dot11" := Str(Dot11(t))];
    assert Get(t1, "ext_channel", Str("")) == Get(t, "ext_channel", Str(""));
    ChannelJoinedRules(t1);
    if ChannelJoined(t1).Done? {
      WidthSetRules(ChannelJoined(t1).value);
    }
  }

  /**
   * A radio record that does not raise carries the joined channel, the newer
   * width, the radio type (802.11ac for 80 MHz) and the stripped index.
   */
  lemma RadioRecord(t: Row, idx: string)
    requires RadioFinished(t, idx).Done?
    ensures var ext := Get(t, "ext_channel", Str(""));
      var r := RadioFinished(t, idx).value;
      && PyLen(ext).Done?
      && r["width"] == (if "width_new" in t then t["width_new"] else t["width"])
      && r["dot11"] == Str(if r["width"] == Str("80 MHz") then "802.11ac" else Dot11(t))
      && (PyLen(ext).value > 0 ==> r["channel"] == Str(PyStr(t["channel"]) + "," + PyStr(ext)))
      && (PyLen(ext).value == 0 && "channel" in t ==> r["channel"] == t["channel"])
      && r["snmpindex"] == Str(Strip(idx, '.'))
  {
    var t1 := t["dot11" := Str(Dot11(t))];
    assert Get(t1, "ext_channel", Str("")) == Get(t, "ext_channel", Str(""));
    ChannelJoinedRules(t1);
    WidthSetRules(ChannelJoined(t1).value);
  }

  /** A radio record has the columns of the translated row and the type, the index and the width. */
  lemma RadioColumns(t: Row, idx: string)
    requires RadioFinished(t, idx).Done?
    ensures RadioFinished(t, idx).value.Keys == t.Keys + {"dot11", "snmpindex", "width"}
  {
    var t1 := t["dot11" := Str(Dot11(t))];
    ChannelJoinedRules(t1);
    WidthSetRules(ChannelJoined(t1).value);
  }

  /** A radio record keeps every other column of the translated row and adds only the type, the index and the width. */
  lemma RadioKeepsColumns(t: Row, idx: string)
    requires RadioFinished(t, idx).Done?
    ensures var r := RadioFinished(t, idx).value;
      forall a :: (a in t && a != "width" && a != "dot11" && a != "channel" && a != "snmpindex") ==> r[a] == t[a]
  {
    var t1 := t["dot11" := Str(Dot11(t))];
    ChannelJoinedRules(t1);
    var t2 := ChannelJoined(t1).value;
    WidthSetRules(t2);
    var w := WidthSet(t2).value;
    forall a | a in t && a != "width" && a != "dot11" && a != "channel" && a != "snmpindex"
      ensures w[a] == t[a]
    {
      assert t2[a] == t1[a] == t[a];
    }
  }

  /** The radio pass files radios under the APs of the AP pass and opens no new ones. */
  lemma {:induction false} RadioPassKeepsAps(env: Env, keys: seq<string>, rs: Radios, out: Radios)
    requires TryFold(keys, rs, RadioStep(env)) == Done(out)
    ensures out.keys == rs.keys && out.vals.Keys == rs.vals.Keys
  {
    if keys != [] {
      var prev := TryFold(keys[..|keys| - 1], rs, RadioStep(env));
      RadioPassKeepsAps(env, keys[..|keys| - 1], rs, prev.value);
    }
  }

  // ----- process -----

  /** What `process` returns, or the exception it raises. */
  function Result(env: Env): Outcome<seq<RelMap>> {
    if !HasTables(env.td, Required) then Raised(TypeError("len"))
    else
      var gs := GroupsOf(env.host, env.cfg.groupNames, false, T(env, "bsnAPGroupsVlanTable"));
      match TryFold(T(env, "bsnAPTable").keys, ApState(gs, EmptyDict()), ApStep(env))
      case Raised(e) => Raised(e)
      case Done(st) =>
        match TryFold(T(env, "bsnAPIfTable").keys, st.radios, RadioStep(env))
        case Raised(e) => Raised(e)
        case Done(radios) => Done(Relations(ApState(st.groups, radios), env.host, "Slot"))
  }

  method Process(env: Env) returns (out: Outcome<seq<RelMap>>)
    ensures out == Result(env)
  {
    if !HasTables(env.td, Required) {
      return Raised(TypeError("len"));
    }
    var gs := GroupPass(env.host, env.cfg.groupNames, false, T(env, "bsnAPGroupsVlanTable"));
    var aps := ApPass(env, gs);
    if aps.Raised? {
      return Raised(aps.error);
    }
    var radios := RadioPass(env, aps.value.radios);
    if radios.Raised? {
      return Raised(radios.error);
    }
    var maps := BuildRelations(ApState(aps.value.groups, radios.value), env.host, "Slot");
    out := Done(maps);
  }
}
