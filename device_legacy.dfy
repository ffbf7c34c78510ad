/**
 * The older CiscoControllerDevice plugin of the WirelessController ZenPack:
 * the same controller map as the Cisco WLC plugin under its own module name,
 * without the temperature thresholds, and made even from an empty set of
 * scalar values.
 */
module ControllerDeviceLegacy {
  import opened Options
  import opened PyStrings
  import opened Values
  import opened DeviceCommon
  import Device = ControllerDevice

  const Modname := "ZenPacks.daviswr.WirelessController.CiscoController"

  /** The controller's data, or the exception its manufacturer value raises. */
  function DeviceData(g: Row): Outcome<Row> {
    match Manufacturer(Get(g, "manufacturer", Str("")))
    case Raised(e) => Raised(e)
    case Done(m) => Done(Device.ProductData(g, m))
  }

  /** What `process` returns: None only without scalar values, else the controller map and the memory map. */
  function Result(getdata: Option<Row>): Outcome<Option<seq<ObjMap>>> {
    match getdata
    case None => Done(None)
    case Some(g) => Device.MapsFor(Modname, DeviceData(g))
  }

  /** CiscoControllerDevice.process (WirelessController) */
  method Process(getdata: Option<Row>) returns (r: Outcome<Option<seq<ObjMap>>>)
    ensures r == Result(getdata)
  {
    if getdata.None? {
      return Done(None);
    }
    var manufacturer := Manufacturer(Get(getdata.value, "manufacturer", Str("")));
    if manufacturer.Raised? {
      return Raised(manufacturer.error);
    }
    var data := Device.FillProduct(getdata.value, manufacturer.value);
    r := Device.BuildMaps(Modname, data);
  }

  // ----- properties -----

  /**
   * For non-empty scalar values without an operating environment, the two
   * plugins make the same maps, differing only in the controller map's
   * module name.
   */
  lemma AgreesWithWlcPlugin(g: Row)
    requires g != map[] && "environment" !in g
    ensures Result(Some(g)) == Device.MapsFor(Modname, Device.DeviceData(g))
    ensures Device.Result(Some(g)) == Device.MapsFor(Device.Modname, Device.DeviceData(g))
  {
    match Manufacturer(Get(g, "manufacturer", Str("")))
    case Raised(e) =>
    case Done(m) =>
      Device.ProductRule(g, m);
      assert "environment" !in Device.ProductData(g, m);
  }

  /**
   * From empty scalar values the older plugin still makes a controller map
   * for a Cisco controller running AireOS, where the Cisco WLC plugin returns None.
   */
  lemma EmptyValues()
    ensures Result(Some(map[])) == Done(Some([ObjMap(Modname, "", map["setOSProductKey" := Args([Str("AireOS"), Str("Cisco")])])]))
    ensures Device.Result(Some(map[])) == Done(None)
  {
    NoManufacturerIsCisco();
    var d := Device.ProductData(map[], "Cisco");
    assert d == map["setOSProductKey" := Args([Str("AireOS"), Str("Cisco")])];
    assert "memory" !in d;
  }
}
