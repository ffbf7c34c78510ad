/**
 * The CiscoControllerTemperature modeler plugin: one temperature sensor per
 * row of bsnSensorTemperature, named after its index (or `Internal
 * Temperature` when it is the only one), with the operating environment
 * given its name and the reading also written in Fahrenheit. A reading of
 * 5000 degrees, which virtual and WiSM controllers report, abandons the whole
 * result.
 */
module ControllerTemperature {
  import opened Options
  import opened PyStrings
  import opened Values
  import opened Folds

  const Modname := "Products.ZenModel.TemperatureSensor"

  /** `condition`: virtual controllers and WiSM modules have no temperature sensors. */
  function Condition(model: string): bool {
    !(Contains(model, "VM") || Contains(model, "WISM"))
  }

  /** bsnOperatingTemperatureEnvironment */
  const StateCodes: map<int, Value> := map[1 := Str("Commercial"), 2 := Str("Industrial")]

  const StateMap: map<string, map<int, Value>> := map["state" := StateCodes]

  /** The reading the virtual and WiSM controllers report in place of a temperature. */
  const Sentinel := 5000

  /** The number of a sensor: its index with the dots removed, read as an integer, plus one. */
  function SensorNumber(idx: string): Outcome<int> {
    match PyInt(Str(Replace(idx, ".", "")))
    case Raised(e) => Raised(e)
    case Done(n) => Done(n + 1)
  }

  /** The name of a sensor of a table with `count` rows. */
  function SensorName(count: nat, idx: string): Outcome<string> {
    match SensorNumber(idx)
    case Raised(e) => Raised(e)
    case Done(n) => Done(if count == 1 then "Internal Temperature" else "Temperature Sensor " + IntToString(n))
  }

  /** A reading in degrees Celsius, when the value is a number. */
  function Celsius(v: Value): Option<real> {
    match v
    case Int(i) => Some(i as real)
    case Bool(b) => Some(if b then 1.0 else 0.0)
    case Float(f) => Some(f)
    case _ => None
  }

  /** The Fahrenheit reading meant by `celsius * (9/5) + 32`. */
  function Fahrenheit(celsius: real): real {
    celsius * 9.0 / 5.0 + 32.0
  }

  /** `celsius * (9/5) + 32` as written, for an integer reading: Python 2 divides the integers 9 and 5 to 1. */
  function FahrenheitAsWritten(celsius: int): int {
    celsius * (9 / 5) + 32
  }

  /**
   * The Fahrenheit column of a row with a reading; None for the sentinel
   * reading, which ends the whole plugin, and an exception for a reading
   * that is no number.
   */
  function WithFahrenheit(row: Row): Outcome<Option<Row>> {
    if "temperature_celsius" !in row then Done(Some(row))
    else
      var v := row["temperature_celsius"];
      if NumKey(v) == Some(Sentinel) then Done(None)
      else
        match Celsius(v)
        case Some(c) => Done(Some(row["temperature_fahrenheit" := Float(Fahrenheit(c))]))
        case None => Raised(TypeError("temperature_celsius"))
  }

  /** The columns `process` adds to a sensor named `name`. */
  function Labels(idx: string, name: string, host: Host): Row {
    map["id" := Str(host.prepId(Replace(name, " ", ""))), "title" := Str(name), "snmpindex" := Str(Strip(idx, '.'))]
  }

  /** The ObjectMap of a sensor, None when its reading is the sentinel, or the exception its row raises. */
  function SensorFrom(row: Row, idx: string, name: string, host: Host): Outcome<Option<ObjMap>> {
    match WithFahrenheit(TranslatedRow(row, StateMap))
    case Raised(e) => Raised(e)
    case Done(r) =>
      match r
      case None => Done(None)
      case Some(r') => Done(Some(ObjMap(Modname, "hw", Update(r', Labels(idx, name, host)))))
  }

  /** The sensor at `idx`, named by `nameOf`. */
  function SensorAt(t: Table, nameOf: string -> Outcome<string>, host: Host, idx: string): Outcome<Option<ObjMap>> {
    match nameOf(idx)
    case Raised(e) => Raised(e)
    case Done(name) => SensorFrom(RowAt(t, idx), idx, name, host)
  }

  /** One pass of the sensor loop: the sensors so far, or None once the loop has returned. */
  function Step(t: Table, nameOf: string -> Outcome<string>, host: Host, st: Option<seq<ObjMap>>, idx: string): Outcome<Option<seq<ObjMap>>> {
    if st.None? then Done(None)
    else
      match SensorAt(t, nameOf, host, idx)
      case Raised(e) => Raised(e)
      case Done(o) =>
        match o
        case None => Done(None)
        case Some(m) => Done(Some(st.value + [m]))
  }

  function StepOf(t: Table, nameOf: string -> Outcome<string>, host: Host): (Option<seq<ObjMap>>, string) -> Outcome<Option<seq<ObjMap>>> {
    (st, idx) => Step(t, nameOf, host, st, idx)
  }

  /** The sensor loop over a table. */
  function Sensors(t: Table, nameOf: string -> Outcome<string>, host: Host): Outcome<Option<seq<ObjMap>>> {
    TryFold(t.keys, Some([]), StepOf(t, nameOf, host))
  }

  /** The relationship of a loop that ran to the end, None for one that returned, or its exception. */
  function Relation(sensors: Outcome<Option<seq<ObjMap>>>): Outcome<Option<RelMap>> {
    match sensors
    case Raised(e) => Raised(e)
    case Done(o) =>
      match o
      case None => Done(None)
      case Some(ms) => Done(Some(RelMap("hw", "temperaturesensors", Modname, ms)))
  }

  function NameOf(t: Table): string -> Outcome<string> {
    idx => SensorName(|t.keys|, idx)
  }

  /** What `process` returns: None without the table, for an empty table or on the sentinel; else the temperaturesensors relationship. */
  function Result(host: Host, td: TableData): Outcome<Option<RelMap>> {
    if "bsnSensorTemperature" !in td || td["bsnSensorTemperature"].keys == [] then Done(None)
    else
      var t := td["bsnSensorTemperature"];
      Relation(Sensors(t, NameOf(t), host))
  }

  /** The sentinel test and the Fahrenheit column of one row. */
  method ConvertReading(row: Row) returns (o: Outcome<Option<Row>>)
    ensures o == WithFahrenheit(row)
  {
    if "temperature_celsius" !in row {
      return Done(Some(row));
    }
    var v := row["temperature_celsius"];
    if NumKey(v) == Some(Sentinel) {
      return Done(None);
    }
    var c := Celsius(v);
    if c.None? {
      return Raised(TypeError("temperature_celsius"));
    }
    o := Done(Some(row["temperature_fahrenheit" := Float(c.value * 9.0 / 5.0 + 32.0)]));
  }

  /** The row updates of one sensor, in the order the source makes them. */
  method CleanSensor(row: Row, idx: string, name: string, host: Host) returns (o: Outcome<Option<ObjMap>>)
    ensures o == SensorFrom(row, idx, name, host)
  {
    var data := TranslateCodes(row, StateMap);
    var converted := ConvertReading(data);
    if converted.Raised? {
      return Raised(converted.error);
    }
    if converted.value.None? {
      return Done(None);
    }
    data := Update(converted.value.value, map["id" := Str(host.prepId(Replace(name, " ", ""))), "title" := Str(name), "snmpindex" := Str(Strip(idx, '.'))]);
    o := Done(Some(ObjMap(Modname, "hw", data)));
  }

  /** The name and the ObjectMap of the sensor at `idx`. */
  method SensorRow(t: Table, nameOf: string -> Outcome<string>, host: Host, idx: string) returns (o: Outcome<Option<ObjMap>>)
    ensures o == SensorAt(t, nameOf, host, idx)
  {
    var name := nameOf(idx);
    if name.Raised? {
      return Raised(name.error);
    }
    o := CleanSensor(RowAt(t, idx), idx, name.value, host);
  }

  /**
   * The loop of `process` over the rows of `t`: each sensor is named by
   * `nameOf`, and the loop returns None at once on the sentinel.
   */
  method SensorLoop(t: Table, nameOf: string -> Outcome<string>, host: Host) returns (r: Outcome<Option<seq<ObjMap>>>)
    ensures r == Sensors(t, nameOf, host)
  {
    var out: seq<ObjMap> := [];
    ghost var f := StepOf(t, nameOf, host);
    for i := 0 to |t.keys|
      invariant TryFold(t.keys[..i], Some([]), f) == Done(Some(out))
    {
      TryFoldStep(t.keys, i, Some([]), f, Some(out));
      var o := SensorRow(t, nameOf, host, t.keys[i]);
      if o.Raised? {
        TryFoldRaised(t.keys, i + 1, Some([]), f, o.error);
        return Raised(o.error);
      }
      if o.value.None? {
        TryFoldAbsorbs(t.keys, i + 1, Some([]), f, None);
        return Done(None);
      }
      out := out + [o.value.value];
    }
    assert t.keys[..|t.keys|] == t.keys;
    r := Done(Some(out));
  }

  /** CiscoControllerTemperature.process (Cisco/WLC) */
  method Process(host: Host, td: TableData) returns (rm: Outcome<Option<RelMap>>)
    ensures rm == Result(host, td)
  {
    if "bsnSensorTemperature" !in td || td["bsnSensorTemperature"].keys == [] {
      return Done(None);
    }
    var t := td["bsnSensorTemperature"];
    var sensors := SensorLoop(t, NameOf(t), host);
    rm := Relation(sensors);
  }

  // ----- properties -----

  /** Where no row raises or returns, the loop keeps every sensor in table order. */
  lemma SensorsAllKept(t: Table, nameOf: string -> Outcome<string>, host: Host, n: nat)
    requires n <= |t.keys|
    requires forall i :: 0 <= i < n ==> SensorAt(t, nameOf, host, t.keys[i]).Done? && SensorAt(t, nameOf, host, t.keys[i]).value.Some?
    ensures var r := TryFold(t.keys[..n], Some([]), StepOf(t, nameOf, host));
      && r.Done? && r.value.Some? && |r.value.value| == n
      && forall i :: 0 <= i < n ==> r.value.value[i] == SensorAt(t, nameOf, host, t.keys[i]).value.value
  {
    var f := StepOf(t, nameOf, host);
    var g := (idx: string) =>
      match SensorAt(t, nameOf, host, idx)
      case Done(Some(m)) => m
      case _ => ObjMap("", "", map[]);
    forall i | 0 <= i < n
      ensures StepAppends(f, g, t.keys[i])
    {
    }
    TryFoldAppends(t.keys, n, f, g);
  }

  /** Where no row raises, a loop that reaches a sentinel reading returns None. */
  lemma {:induction false} SensorsAbort(t: Table, nameOf: string -> Outcome<string>, host: Host, n: nat, j: nat)
    requires j < n <= |t.keys|
    requires forall i :: 0 <= i < n ==> SensorAt(t, nameOf, host, t.keys[i]).Done?
    requires SensorAt(t, nameOf, host, t.keys[j]) == Done(None)
    ensures TryFold(t.keys[..n], Some([]), StepOf(t, nameOf, host)) == Done(None)
  {
    var f := StepOf(t, nameOf, host);
    SensorsDone(t, nameOf, host, n - 1);
    var prev := TryFold(t.keys[..n - 1], Some([]), f);
    TryFoldStep(t.keys, n - 1, Some([]), f, prev.value);
    if j < n - 1 {
      SensorsAbort(t, nameOf, host, n - 1, j);
    }
  }

  /** The loop depends on the naming only through the names it gives. */
  lemma {:induction false} SensorsSameNames(t: Table, a: string -> Outcome<string>, b: string -> Outcome<string>, host: Host, n: nat)
    requires n <= |t.keys|
    requires forall idx :: a(idx) == b(idx)
    ensures TryFold(t.keys[..n], Some([]), StepOf(t, a, host)) == TryFold(t.keys[..n], Some([]), StepOf(t, b, host))
  {
    if n > 0 {
      SensorsSameNames(t, a, b, host, n - 1);
      assert t.keys[..n][..n - 1] == t.keys[..n - 1];
      assert SensorAt(t, a, host, t.keys[n - 1]) == SensorAt(t, b, host, t.keys[n - 1]);
    }
  }

  /** Where no row raises, neither does the loop. */
  lemma {:induction false} SensorsDone(t: Table, nameOf: string -> Outcome<string>, host: Host, n: nat)
    requires n <= |t.keys|
    requires forall i :: 0 <= i < n ==> SensorAt(t, nameOf, host, t.keys[i]).Done?
    ensures TryFold(t.keys[..n], Some([]), StepOf(t, nameOf, host)).Done?
  {
    if n > 0 {
      var f := StepOf(t, nameOf, host);
      SensorsDone(t, nameOf, host, n - 1);
      TryFoldStep(t.keys, n - 1, Some([]), f, TryFold(t.keys[..n - 1], Some([]), f).value);
    }
  }

  /**
   * Where no row raises, the plugin returns None exactly when some row reads
   * the sentinel; otherwise it returns one sensor per row, in table order.
   */
  lemma SentinelDecides(t: Table, nameOf: string -> Outcome<string>, host: Host)
    requires forall i :: 0 <= i < |t.keys| ==> SensorAt(t, nameOf, host, t.keys[i]).Done?
    ensures (exists j :: 0 <= j < |t.keys| && SensorAt(t, nameOf, host, t.keys[j]) == Done(None)) ==> Sensors(t, nameOf, host) == Done(None)
    ensures (forall j :: 0 <= j < |t.keys| ==> SensorAt(t, nameOf, host, t.keys[j]).value.Some?) ==>
      && Sensors(t, nameOf, host).Done? && Sensors(t, nameOf, host).value.Some?
      && |Sensors(t, nameOf, host).value.value| == |t.keys|
      && forall i :: 0 <= i < |t.keys| ==> Sensors(t, nameOf, host).value.value[i] == SensorAt(t, nameOf, host, t.keys[i]).value.value
  {
    assert t.keys[..|t.keys|] == t.keys;
    if j :| 0 <= j < |t.keys| && SensorAt(t, nameOf, host, t.keys[j]) == Done(None) {
      SensorsAbort(t, nameOf, host, |t.keys|, j);
    }
    if forall j :: 0 <= j < |t.keys| ==> SensorAt(t, nameOf, host, t.keys[j]).value.Some? {
      SensorsAllKept(t, nameOf, host, |t.keys|);
    }
  }

  /** A row that reads the sentinel ends the plugin with None, whatever else the row holds. */
  lemma SentinelRow(row: Row, idx: string, name: string, host: Host)
    requires "temperature_celsius" in row && NumKey(row["temperature_celsius"]) == Some(Sentinel)
    ensures SensorFrom(row, idx, name, host) == Done(None)
  {
    var r := TranslatedRow(row, StateMap);
    assert r["temperature_celsius"] == row["temperature_celsius"];
  }

  /** A sensor of a table with one row is the internal sensor; otherwise it carries its index plus one. */
  lemma NameRules(count: nat, idx: string, k: int)
    requires Replace(idx, ".", "") == IntToString(k)
    ensures count == 1 ==> SensorName(count, idx) == Done("Internal Temperature")
    ensures count != 1 ==> SensorName(count, idx) == Done("Temperature Sensor " + IntToString(k + 1))
  {
    PyIntOfString(k);
  }

  /** The environment state takes the name of codes 1 and 2, and any other value is kept. */
  lemma StateRule(row: Row)
    requires "state" in row
    ensures var s := TranslatedRow(row, StateMap)["state"];
      && (NumKey(row["state"]) == Some(1) ==> s == Str("Commercial"))
      && (NumKey(row["state"]) == Some(2) ==> s == Str("Industrial"))
      && (NumKey(row["state"]) != Some(1) && NumKey(row["state"]) != Some(2) ==> s == row["state"])
  {
  }

  /** A kept sensor is titled with its name, its id is the name without spaces, and its index is stripped of dots. */
  lemma SensorLabels(row: Row, idx: string, name: string, host: Host)
    requires SensorFrom(row, idx, name, host).Done? && SensorFrom(row, idx, name, host).value.Some?
    ensures var d := SensorFrom(row, idx, name, host).value.value.data;
      && "title" in d && d["title"] == Str(name)
      && "id" in d && d["id"] == Str(host.prepId(Replace(name, " ", "")))
      && "snmpindex" in d && d["snmpindex"] == Str(Strip(idx, '.'))
  {
    var r := WithFahrenheit(TranslatedRow(row, StateMap)).value.value;
    assert SensorFrom(row, idx, name, host).value.value.data == Update(r, Labels(idx, name, host));
    LabelsWin(r, idx, name, host);
  }

  /** The label columns overwrite whatever the row holds under their names. */
  lemma LabelsWin(r: Row, idx: string, name: string, host: Host)
    ensures var d := Update(r, Labels(idx, name, host));
      && "title" in d && d["title"] == Str(name)
      && "id" in d && d["id"] == Str(host.prepId(Replace(name, " ", "")))
      && "snmpindex" in d && d["snmpindex"] == Str(Strip(idx, '.'))
  {
  }

  /** A numeric reading other than the sentinel gains its Fahrenheit reading. */
  lemma FahrenheitColumn(row: Row)
    requires "temperature_celsius" in row && Celsius(row["temperature_celsius"]).Some?
    requires NumKey(row["temperature_celsius"]) != Some(Sentinel)
    ensures WithFahrenheit(row) == Done(Some(row["temperature_fahrenheit" := Float(Fahrenheit(Celsius(row["temperature_celsius"]).value))]))
  {
  }

  /** The Fahrenheit reading converts back to the Celsius one, and the scales meet at -40 degrees. */
  lemma FahrenheitInverse(celsius: real)
    ensures (Fahrenheit(celsius) - 32.0) * 5.0 / 9.0 == celsius
    ensures Fahrenheit(-40.0) == -40.0
  {
  }

  /** As written, the conversion only adds 32: 100 degrees Celsius are recorded as 132, not 212. */
  lemma FahrenheitAsWrittenShifts(celsius: int)
    ensures FahrenheitAsWritten(celsius) == celsius + 32
    ensures FahrenheitAsWritten(100) == 132 && Fahrenheit(100.0) == 212.0
  {
  }
}
