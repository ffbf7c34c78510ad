/**
 * The CiscoController modeler plugin: the controller's hardware and
 * operating system product keys, then one separate ObjectMap each for the
 * serial number, the memory size, the mobility domain and the most access
 * points the platform supports, each only when the controller reports a
 * non-empty value for it.
 */
module CiscoController {
  import opened Options
  import opened PyStrings
  import opened Values
  import opened DeviceCommon

  /** The product keys: the hardware one only for a non-empty model; the operating system one always. */
  function DeviceMap(g: Row): Outcome<ObjMap> {
    match Manufacturer(Get(g, "agentInventoryManufacturerName", Str("")))
    case Raised(e) => Raised(e)
    case Done(m) =>
      var model := Get(g, "agentInventoryMachineModel", NoneV);
      var version := Get(g, "agentInventoryProductVersion", NoneV);
      var hw: Row := if Truthy(model) then map["setHWProductKey" := Args([model, Str(m)])] else map[];
      Done(ObjMap("", "", hw["setOSProductKey" := Args([Str(OsName(if Truthy(version) then Some(version) else None)), Str(m)])]))
  }

  /** The serial number map, for a non-empty serial number. */
  function SerialMaps(g: Row): seq<ObjMap> {
    var serial := Get(g, "agentInventorySerialNumber", NoneV);
    if Truthy(serial) then [ObjMap("", "", map["setHWSerialNumber" := serial])] else []
  }

  /** The memory map of the `hw` component, its size in bytes written as text, for a non-empty size. */
  function MemoryMaps(g: Row): Outcome<seq<ObjMap>> {
    var memory := Get(g, "agentTotalMemory", NoneV);
    if !Truthy(memory) then Done([])
    else
      match Bytes(memory)
      case Raised(e) => Raised(e)
      case Done(n) => Done([ObjMap("", "hw", map["totalMemory" := Str(IntToString(n))])])
  }

  /** The mobility domain map, a list of the one domain, for a non-empty domain name. */
  function MobilityMaps(g: Row): seq<ObjMap> {
    var mobility := Get(g, "bsnRFMobilityDomainName", NoneV);
    if Truthy(mobility) then [ObjMap("", "", map["mobilityDomains" := List([mobility])])] else []
  }

  /** The map of the most access points supported, as an integer, for a non-empty value. */
  function MaxApMaps(g: Row): Outcome<seq<ObjMap>> {
    var maxAp := Get(g, "agentInventoryMaxNumberOfAPsSupported", NoneV);
    if !Truthy(maxAp) then Done([])
    else
      match PyInt(maxAp)
      case Raised(e) => Raised(e)
      case Done(n) => Done([ObjMap("", "", map["platformMaxAPs" := Int(n)])])
  }

  /** What `process` returns: None without the scalar values, else the maps in the order above, or the first exception raised. */
  function Result(getdata: Option<Row>): Outcome<Option<seq<ObjMap>>> {
    match getdata
    case None => Done(None)
    case Some(g) =>
      match DeviceMap(g)
      case Raised(e) => Raised(e)
      case Done(om) =>
        match MemoryMaps(g)
        case Raised(e) => Raised(e)
        case Done(memory) =>
          match MaxApMaps(g)
          case Raised(e) => Raised(e)
          case Done(maxAp) => Done(Some([om] + SerialMaps(g) + memory + MobilityMaps(g) + maxAp))
  }

  /** The product keys, set on the map one at a time. */
  method BuildDeviceMap(g: Row) returns (r: Outcome<ObjMap>)
    ensures r == DeviceMap(g)
  {
    var manufacturer := Manufacturer(Get(g, "agentInventoryManufacturerName", Str("")));
    if manufacturer.Raised? {
      return Raised(manufacturer.error);
    }
    var m := manufacturer.value;
    var data: Row := map[];
    var model := Get(g, "agentInventoryMachineModel", NoneV);
    if Truthy(model) {
      data := data["setHWProductKey" := Args([model, Str(m)])];
    }
    var os := "AireOS";
    var version := Get(g, "agentInventoryProductVersion", NoneV);
    if Truthy(version) {
      os := os + " " + PyStr(version);
      assert os == "AireOS " + PyStr(version);
    }
    data := data["setOSProductKey" := Args([Str(os), Str(m)])];
    r := Done(ObjMap("", "", data));
  }

  /** CiscoController.process: the maps are appended in turn. */
  method Process(getdata: Option<Row>) returns (r: Outcome<Option<seq<ObjMap>>>)
    ensures r == Result(getdata)
  {
    if getdata.None? {
      return Done(None);
    }
    var g := getdata.value;
    var om := BuildDeviceMap(g);
    if om.Raised? {
      return Raised(om.error);
    }
    var maps := [om.value];
    var serial := Get(g, "agentInventorySerialNumber", NoneV);
    if Truthy(serial) {
      maps := maps + [ObjMap("", "", map["setHWSerialNumber" := serial])];
    }
    var memory := Get(g, "agentTotalMemory", NoneV);
    var memoryMaps: seq<ObjMap> := [];
    if Truthy(memory) {
      var n := Bytes(memory);
      if n.Raised? {
        return Raised(n.error);
      }
      memoryMaps := [ObjMap("", "hw", map["totalMemory" := Str(IntToString(n.value))])];
    }
    assert maps == [om.value] + SerialMaps(g);
    assert MemoryMaps(g) == Done(memoryMaps);
    maps := maps + memoryMaps;
    var mobility := Get(g, "bsnRFMobilityDomainName", NoneV);
    if Truthy(mobility) {
      maps := maps + [ObjMap("", "", map["mobilityDomains" := List([mobility])])];
    }
    var maxAp := Get(g, "agentInventoryMaxNumberOfAPsSupported", NoneV);
    if Truthy(maxAp) {
      var n := PyInt(maxAp);
      if n.Raised? {
        return Raised(n.error);
      }
      maps := maps + [ObjMap("", "", map["platformMaxAPs" := Int(n.value)])];
    }
    assert maps == [om.value] + SerialMaps(g) + memoryMaps + MobilityMaps(g) + MaxApMaps(g).value;
    r := Done(Some(maps));
  }

  // ----- properties -----

  /** The number of the optional values that are present and non-empty. */
  function Present(g: Row): nat {
    (if Truthy(Get(g, "agentInventorySerialNumber", NoneV)) then 1 else 0)
    + (if Truthy(Get(g, "agentTotalMemory", NoneV)) then 1 else 0)
    + (if Truthy(Get(g, "bsnRFMobilityDomainName", NoneV)) then 1 else 0)
    + (if Truthy(Get(g, "agentInventoryMaxNumberOfAPsSupported", NoneV)) then 1 else 0)
  }

  /** The maps of a run that does not raise, in the order they are appended. */
  lemma MapsOrder(g: Row)
    requires Result(Some(g)).Done?
    ensures DeviceMap(g).Done? && MemoryMaps(g).Done? && MaxApMaps(g).Done?
    ensures Result(Some(g)).value.value == [DeviceMap(g).value] + SerialMaps(g) + MemoryMaps(g).value + MobilityMaps(g) + MaxApMaps(g).value
  {
  }

  /** The first map holds the product keys, and one more map follows for each optional value present. */
  lemma MapsCount(g: Row)
    requires Result(Some(g)).Done?
    ensures var ms := Result(Some(g)).value.value;
      && |ms| == 1 + Present(g)
      && ms[0] == DeviceMap(g).value
  {
    MapsOrder(g);
  }

  /** Only the memory map belongs to the `hw` component. */
  lemma MemoryIsHardware(g: Row)
    requires Result(Some(g)).Done?
    ensures var ms := Result(Some(g)).value.value;
      (exists i :: 0 <= i < |ms| && ms[i].compname == "hw") <==> Truthy(Get(g, "agentTotalMemory", NoneV))
  {
    MapsOrder(g);
    var ms := Result(Some(g)).value.value;
    var memory := MemoryMaps(g).value;
    if Truthy(Get(g, "agentTotalMemory", NoneV)) {
      assert ms[1 + |SerialMaps(g)|] == memory[0];
    } else {
      forall i | 0 <= i < |ms| ensures ms[i].compname == "" {
      }
    }
  }

  /** The product keys: hardware exactly for a non-empty model, and the operating system named from the version. */
  lemma DeviceMapRule(g: Row)
    requires DeviceMap(g).Done?
    ensures var version := Get(g, "agentInventoryProductVersion", NoneV);
      var m := Manufacturer(Get(g, "agentInventoryManufacturerName", Str(""))).value;
      var d := DeviceMap(g).value.data;
      && d.Keys == (if Truthy(Get(g, "agentInventoryMachineModel", NoneV)) then {"setHWProductKey", "setOSProductKey"} else {"setOSProductKey"})
      && d["setOSProductKey"] == Args([Str(OsName(if Truthy(version) then Some(version) else None)), Str(m)])
      && (Truthy(Get(g, "agentInventoryMachineModel", NoneV)) ==> d["setHWProductKey"] == Args([g["agentInventoryMachineModel"], Str(m)]))
  {
  }

  /** A memory size reported as a number of kilobytes is recorded as the text of that many times 1024 bytes. */
  lemma MemoryRule(g: Row, k: int)
    requires "agentTotalMemory" in g && g["agentTotalMemory"] == Str(IntToString(k))
    ensures MemoryMaps(g) == Done([ObjMap("", "hw", map["totalMemory" := Str(IntToString(k * 1024))])])
  {
    BytesOfKilobytes(k);
  }

  /** A manufacturer value that is no text makes the plugin raise before any map is made. */
  lemma ManufacturerRaises(g: Row)
    requires "agentInventoryManufacturerName" in g && !g["agentInventoryManufacturerName"].Str?
    ensures Result(Some(g)) == Raised(AttributeError("lower"))
  {
  }
}
