/**
 * The CiscoControllerDevice modeler plugin of the Cisco WLC ZenPack: the
 * scalar values become the controller's own ObjectMap, with the product keys,
 * the mobility domain as a list and the temperature thresholds of the
 * operating environment added; the memory size goes to the `hw` component.
 */
module ControllerDevice {
  import opened Options
  import opened PyStrings
  import opened Values
  import opened DeviceCommon
  import ControllerTemperature

  const Modname := "ZenPacks.daviswr.Cisco.WLC.Controller"

  /** The temperature thresholds of an operating environment: 0 to 40 for commercial, -10 to 70 for industrial, none otherwise. */
  function Thresholds(environment: Value): Row {
    match NumKey(environment)
    case Some(k) =>
      if k == 1 then map["tempThresholdLow" := Int(0), "tempThresholdHigh" := Int(40)]
      else if k == 2 then map["tempThresholdLow" := Int(-10), "tempThresholdHigh" := Int(70)]
      else map[]
    case None => map[]
  }

  /** The hardware product key, for a row with a model. */
  function WithHardware(row: Row, manufacturer: string): Row {
    if "model" in row then row["setHWProductKey" := Args([row["model"], Str(manufacturer)])] else row
  }

  /** The operating system product key, named from the version when there is one. */
  function WithOs(row: Row, manufacturer: string): Row {
    row["setOSProductKey" := Args([Str(OsName(if "version" in row then Some(row["version"]) else None)), Str(manufacturer)])]
  }

  /** The mobility domain as a list of the one domain, for a row with one. */
  function WithMobility(row: Row): Row {
    if "mobility" in row then Update(row, map["mobilityDomains" := List([row["mobility"]])]) else row
  }

  /** The thresholds of the operating environment, for a row with one. */
  function WithThresholds(row: Row): Row {
    if "environment" in row then Update(row, Thresholds(row["environment"])) else row
  }

  /** The product keys and the mobility domain, which both device plugins add. */
  function ProductData(g: Row, manufacturer: string): Row {
    WithMobility(WithOs(WithHardware(g, manufacturer), manufacturer))
  }

  /** The controller's data, or the exception its manufacturer value raises. */
  function DeviceData(g: Row): Outcome<Row> {
    match Manufacturer(Get(g, "manufacturer", Str("")))
    case Raised(e) => Raised(e)
    case Done(m) => Done(WithThresholds(ProductData(g, m)))
  }

  /** The controller's ObjectMap under `modname`, followed by the memory map when there is a memory size. */
  function MapsFor(modname: string, data: Outcome<Row>): Outcome<Option<seq<ObjMap>>> {
    match data
    case Raised(e) => Raised(e)
    case Done(d) =>
      if "memory" !in d then Done(Some([ObjMap(modname, "", d)]))
      else
        match Bytes(d["memory"])
        case Raised(e) => Raised(e)
        case Done(n) => Done(Some([ObjMap(modname, "", d), ObjMap("", "hw", map["totalMemory" := Int(n)])]))
  }

  /** What `process` returns: None without scalar values or with none of them, else the maps above. */
  function Result(getdata: Option<Row>): Outcome<Option<seq<ObjMap>>> {
    if getdata.None? || getdata.value == map[] then Done(None)
    else MapsFor(Modname, DeviceData(getdata.value))
  }

  /** The product keys and the mobility domain, added to the scalar values in the order of the source. */
  method FillProduct(g: Row, manufacturer: string) returns (data: Row)
    ensures data == ProductData(g, manufacturer)
  {
    data := g;
    if "model" in data {
      data := data["setHWProductKey" := Args([data["model"], Str(manufacturer)])];
    }
    var os := "AireOS";
    if "version" in data {
      os := os + " " + PyStr(data["version"]);
      assert os == "AireOS " + PyStr(data["version"]);
    }
    data := data["setOSProductKey" := Args([Str(os), Str(manufacturer)])];
    if "mobility" in data {
      data := Update(data, map["mobilityDomains" := List([data["mobility"]])]);
    }
  }

  /** The list of maps made from the controller's data. */
  method BuildMaps(modname: string, data: Row) returns (r: Outcome<Option<seq<ObjMap>>>)
    ensures r == MapsFor(modname, Done(data))
  {
    var maps := [ObjMap(modname, "", data)];
    if "memory" in data {
      var memory := Bytes(data["memory"]);
      if memory.Raised? {
        return Raised(memory.error);
      }
      maps := maps + [ObjMap("", "hw", map["totalMemory" := Int(memory.value)])];
      assert maps == [ObjMap(modname, "", data), ObjMap("", "hw", map["totalMemory" := Int(memory.value)])];
    }
    r := Done(Some(maps));
  }

  /** CiscoControllerDevice.process (Cisco WLC) */
  method Process(getdata: Option<Row>) returns (r: Outcome<Option<seq<ObjMap>>>)
    ensures r == Result(getdata)
  {
    if getdata.None? || getdata.value == map[] {
      return Done(None);
    }
    var manufacturer := Manufacturer(Get(getdata.value, "manufacturer", Str("")));
    if manufacturer.Raised? {
      return Raised(manufacturer.error);
    }
    var data := FillProduct(getdata.value, manufacturer.value);
    if "environment" in data {
      data := Update(data, Thresholds(data["environment"]));
    }
    r := BuildMaps(Modname, data);
  }

  // ----- properties -----

  /** Each environment the temperature plugin names has a threshold range, and no other. */
  lemma ThresholdsForNamedEnvironments(environment: Value)
    ensures Thresholds(environment) != map[] <==>
      NumKey(environment).Some? && NumKey(environment).value in ControllerTemperature.StateCodes
  {
    var codes := ControllerTemperature.StateCodes;
    assert codes.Keys == {1, 2};
    if NumKey(environment) == Some(1) || NumKey(environment) == Some(2) {
      assert "tempThresholdLow" in Thresholds(environment);
    }
  }

  /**
   * A threshold range runs from its low to its high bound, and the industrial
   * range holds the commercial one.
   */
  lemma ThresholdRanges(environment: Value)
    ensures var t := Thresholds(environment);
      t != map[] ==> t.Keys == {"tempThresholdLow", "tempThresholdHigh"} && t["tempThresholdLow"].i < t["tempThresholdHigh"].i
    ensures var commercial := Thresholds(Int(1));
      var industrial := Thresholds(Int(2));
      && industrial["tempThresholdLow"].i <= commercial["tempThresholdLow"].i
      && commercial["tempThresholdHigh"].i <= industrial["tempThresholdHigh"].i
  {
  }

  /** The columns the product stage adds are distinct from one another. */
  lemma ColumnsApart()
    ensures "setHWProductKey" != "setOSProductKey" && "setHWProductKey" != "mobilityDomains" && "setOSProductKey" != "mobilityDomains"
    ensures "model" != "setHWProductKey" && "version" != "setHWProductKey" && "mobility" != "setHWProductKey" && "mobility" != "setOSProductKey"
  {
  }

  /**
   * The product keys and the mobility domain are added, as the manufacturer,
   * the model, the version and the domain give them, and no other column
   * changes.
   */
  lemma ProductRule(g: Row, m: string)
    ensures var d := ProductData(g, m);
      && d.Keys == g.Keys + {"setOSProductKey"} + (if "model" in g then {"setHWProductKey"} else {}) + (if "mobility" in g then {"mobilityDomains"} else {})
      && d["setOSProductKey"] == Args([Str(OsName(if "version" in g then Some(g["version"]) else None)), Str(m)])
      && ("model" in g ==> d["setHWProductKey"] == Args([g["model"], Str(m)]))
      && ("mobility" in g ==> d["mobilityDomains"] == List([g["mobility"]]))
      && forall a :: a in g && a != "setHWProductKey" && a != "setOSProductKey" && a != "mobilityDomains" ==> d[a] == g[a]
  {
    ColumnsApart();
    var h := WithHardware(g, m);
    HardwareStage(g, m);
    var o := WithOs(h, m);
    OsStage(h, m);
    MobilityStage(o);
  }

  /** The hardware stage adds its key for a row with a model and keeps every other column. */
  lemma HardwareStage(g: Row, m: string)
    ensures var h := WithHardware(g, m);
      && h.Keys == g.Keys + (if "model" in g then {"setHWProductKey"} else {})
      && ("model" in g ==> h["setHWProductKey"] == Args([g["model"], Str(m)]))
      && forall a :: a in g && a != "setHWProductKey" ==> h[a] == g[a]
  {
  }

  /** The operating system stage adds its key and keeps every other column. */
  lemma OsStage(h: Row, m: string)
    ensures var o := WithOs(h, m);
      && o.Keys == h.Keys + {"setOSProductKey"}
      && o["setOSProductKey"] == Args([Str(OsName(if "version" in h then Some(h["version"]) else None)), Str(m)])
      && forall a :: a in h && a != "setOSProductKey" ==> o[a] == h[a]
  {
  }

  /** The mobility stage adds the domain list for a row with a domain and keeps every other column. */
  lemma MobilityStage(o: Row)
    ensures var d := WithMobility(o);
      && d.Keys == o.Keys + (if "mobility" in o then {"mobilityDomains"} else {})
      && ("mobility" in o ==> d["mobilityDomains"] == List([o["mobility"]]))
      && forall a :: a in o && a != "mobilityDomains" ==> d[a] == o[a]
  {
  }

  /** The environment adds its two thresholds, for a commercial or an industrial one, and nothing else. */
  lemma ThresholdRule(row: Row)
    ensures var d := WithThresholds(row);
      && ("environment" in row && Thresholds(row["environment"]) != map[] ==>
            && d.Keys == row.Keys + {"tempThresholdLow", "tempThresholdHigh"}
            && d["tempThresholdLow"] == Thresholds(row["environment"])["tempThresholdLow"]
            && d["tempThresholdHigh"] == Thresholds(row["environment"])["tempThresholdHigh"]
            && forall a :: a in row && a != "tempThresholdLow" && a != "tempThresholdHigh" ==> d[a] == row[a])
      && (!("environment" in row && Thresholds(row["environment"]) != map[]) ==> d == row)
  {
    if "environment" in row {
      var t := Thresholds(row["environment"]);
      if t == map[] {
        assert Update(row, map[]) == row;
      } else {
        ThresholdRanges(row["environment"]);
        assert t.Keys == {"tempThresholdLow", "tempThresholdHigh"};
      }
    }
  }

  /** A memory size of a number of kilobytes becomes a map of the `hw` component holding that many times 1024 bytes. */
  lemma MemoryRule(modname: string, d: Row, k: int)
    requires "memory" in d && (d["memory"] == Int(k) || d["memory"] == Str(IntToString(k)))
    ensures MapsFor(modname, Done(d)) == Done(Some([ObjMap(modname, "", d), ObjMap("", "hw", map["totalMemory" := Int(k * 1024)])]))
  {
    BytesOfKilobytes(k);
  }
}
