/**
 * The older CiscoControllerTemperature plugin of the WirelessController
 * ZenPack: the same sensors as the Cisco WLC plugin, except that every
 * sensor is numbered (a lone sensor is not called the internal one) and an
 * empty table gives an empty relationship instead of None.
 */
module ControllerTemperatureLegacy {
  import opened Options
  import opened PyStrings
  import opened Values
  import opened Folds
  import Temp = ControllerTemperature

  /** `condition`, written with `find`: no sensors are modelled on virtual controllers and WiSM modules. */
  function Condition(model: string): (r: bool)
    ensures r <==> !(Contains(model, "VM") || Contains(model, "WISM"))
  {
    FindIffContains(model, "VM");
    FindIffContains(model, "WISM");
    !(Find(model, "VM") > -1 || Find(model, "WISM") > -1)
  }

  /** The name of a sensor: always `Temperature Sensor <index + 1>`. */
  function SensorName(idx: string): Outcome<string> {
    match Temp.SensorNumber(idx)
    case Raised(e) => Raised(e)
    case Done(n) => Done("Temperature Sensor " + IntToString(n))
  }

  const NameOf: string -> Outcome<string> := idx => SensorName(idx)

  /** What `process` returns: None without the table or on the sentinel; else the temperaturesensors relationship. */
  function Result(host: Host, td: TableData): Outcome<Option<RelMap>> {
    if "bsnSensorTemperature" !in td then Done(None)
    else Temp.Relation(Temp.Sensors(td["bsnSensorTemperature"], NameOf, host))
  }

  /** CiscoControllerTemperature.process (WirelessController) */
  method Process(host: Host, td: TableData) returns (rm: Outcome<Option<RelMap>>)
    ensures rm == Result(host, td)
  {
    if "bsnSensorTemperature" !in td {
      return Done(None);
    }
    var sensors := Temp.SensorLoop(td["bsnSensorTemperature"], NameOf, host);
    rm := Temp.Relation(sensors);
  }

  // ----- properties -----

  /** Both plugins run on the same controllers. */
  lemma ConditionsAgree(model: string)
    ensures Condition(model) == Temp.Condition(model)
  {
  }

  /** Every sensor is numbered with its index plus one. */
  lemma NameRule(idx: string, k: int)
    requires Replace(idx, ".", "") == IntToString(k)
    ensures SensorName(idx) == Done("Temperature Sensor " + IntToString(k + 1))
  {
    PyIntOfString(k);
  }

  /**
   * On a table of several sensors the two plugins agree; on a table of one
   * sensor only the names differ; on an empty table the older plugin returns
   * an empty relationship where the newer returns None.
   */
  lemma AgreesWithWlcPlugin(host: Host, td: TableData)
    requires "bsnSensorTemperature" in td && |td["bsnSensorTemperature"].keys| != 1
    ensures td["bsnSensorTemperature"].keys != [] ==> Result(host, td) == Temp.Result(host, td)
    ensures td["bsnSensorTemperature"].keys == [] ==>
      Result(host, td) == Done(Some(RelMap("hw", "temperaturesensors", Temp.Modname, []))) && Temp.Result(host, td) == Done(None)
  {
    var t := td["bsnSensorTemperature"];
    assert forall idx :: NameOf(idx) == Temp.NameOf(t)(idx);
    Temp.SensorsSameNames(t, NameOf, Temp.NameOf(t), host, |t.keys|);
    assert t.keys[..|t.keys|] == t.keys;
  }
}
