/**
 * What the three controller device plugins share: the manufacturer they
 * report (Cisco unless the controller names another vendor), the name of
 * the operating system, and the memory size reported in kilobytes.
 */
module DeviceCommon {
  import opened Options
  import opened PyStrings
  import opened Values

  /**
   * The manufacturer, written with `find` as the older plugins test it:
   * a name containing `cisco` in any case, or no name, is reported as
   * `Cisco`; a value that is no text has no `lower` and raises. The second
   * ensures is the `in` and `not` form that the Cisco WLC plugin writes.
   */
  function Manufacturer(v: Value): (r: Outcome<string>)
    ensures r.Raised? <==> !v.Str?
    ensures v.Str? ==> r.value == (if Contains(Lower(v.s), "cisco") || !Truthy(v) then "Cisco" else v.s)
    ensures r.Raised? ==> r.error == AttributeError("lower")
  {
    if !v.Str? then Raised(AttributeError("lower"))
    else
      FindIffContains(Lower(v.s), "cisco");
      if Find(Lower(v.s), "cisco") > -1 || |v.s| == 0 then Done("Cisco") else Done(v.s)
  }

  /** The name of the operating system: `AireOS`, followed by the version when there is one. */
  function OsName(version: Option<Value>): (r: string)
    ensures |r| >= 6 && r[..6] == "AireOS"
    ensures version.None? <==> r == "AireOS"
    ensures version.Some? ==> r[6..] == " " + PyStr(version.value)
  {
    match version
    case None => "AireOS"
    case Some(v) => "AireOS " + PyStr(v)
  }

  /** `int(memory)*1024`: agentTotalMemory counts kilobytes. */
  function Bytes(memory: Value): Outcome<int> {
    match PyInt(memory)
    case Raised(e) => Raised(e)
    case Done(n) => Done(n * 1024)
  }

  // ----- properties -----

  /** The manufacturer is `Cisco` or another vendor's non-empty name that does not mention Cisco. */
  lemma ManufacturerNames(v: Value)
    requires v.Str?
    ensures var m := Manufacturer(v).value;
      m == "Cisco" || (m == v.s && m != "" && !Contains(Lower(m), "cisco"))
  {
  }

  /** Reporting a reported manufacturer again changes nothing. */
  lemma ManufacturerIdempotent(v: Value)
    requires v.Str?
    ensures Manufacturer(Str(Manufacturer(v).value)) == Manufacturer(v)
  {
    var m := Manufacturer(v).value;
    if m == "Cisco" {
      assert Lower("Cisco") == "cisco";
      assert OccursAt("cisco", "cisco", 0);
    }
  }

  /** A controller that names no manufacturer is reported as a Cisco one. */
  lemma NoManufacturerIsCisco()
    ensures Manufacturer(Str("")) == Done("Cisco")
  {
  }

  /** A memory size written as a number of kilobytes, or held as one, gives that many times 1024 bytes. */
  lemma BytesOfKilobytes(k: int)
    ensures Bytes(Str(IntToString(k))) == Done(k * 1024)
    ensures Bytes(Int(k)) == Done(k * 1024)
  {
    PyIntOfString(k);
  }
}
