/**
 * The CiscoControllerLicense modeler plugin: one license record per named
 * row of clmgmtLicenseInfoTable, with the numeric status kept for the
 * severity column, status and type codes given their names, the title
 * prefixed with the license type, and the remaining validity written in
 * weeks and days as the controller's web interface shows it.
 */
module ControllerLicense {
  import opened Options
  import opened PyStrings
  import opened Values
  import opened Folds

  const Modname := "ZenPacks.daviswr.Cisco.WLC.License"

  /** Seconds in a week and in a day. */
  const Week := 604800
  const Day := 86400

  /** clmgmtLicenseStatus */
  const StatusCodes: map<int, Value> := map[
    1 := Str("inactive"), 2 := Str("not in use"), 3 := Str("in use"),
    4 := Str("expired, in use"), 5 := Str("expire, not in use"), 6 := Str("usage count consumed")]

  /** clmgmtLicenseType */
  const TypeCodes: map<int, Value> := map[
    1 := Str("evaluation"), 2 := Str("extension"), 3 := Str("grace period"), 4 := Str("permanent"),
    5 := Str("paid subscription"), 6 := Str("evaluation subscription"), 7 := Str("extension subscription"),
    8 := Str("evaluation right to use"), 9 := Str("right to use"), 10 := Str("permanent right to use")]

  const LicenseCodes: map<string, map<int, Value>> := map["status" := StatusCodes, "type" := TypeCodes]

  /** A row is a license only with a title that is neither missing nor empty. */
  predicate Named(row: Row) {
    var name := Get(row, "title", NoneV);
    name != NoneV && name != Str("")
  }

  /** The numeric status, copied to `statusSev` before it is translated. */
  function WithSeverity(row: Row): Row {
    if "status" in row then row["statusSev" := row["status"]] else row
  }

  /**
   * The title prefixed with the title-cased type, and `Never` as the
   * expiration of a permanent license; a type left as a number has no
   * `title` method, so the code raises.
   */
  function Titled(row: Row, name: Value): Outcome<Row> {
    if "type" !in row then Done(row)
    else
      match row["type"]
      case Str(t) =>
        var r := row["title" := Str(Title(t) + " " + PyStr(name))];
        Done(if t == "permanent" then r["expiration" := Str("Never")] else r)
      case _ => Raised(AttributeError("title"))
  }

  /** The remaining validity in whole weeks, when there is at least one, and whole days. */
  function ExpirationText(seconds: int): string {
    (if seconds >= Week then IntToString(seconds / Week) + " weeks, " else "")
      + IntToString((seconds % Week) / Day) + " days"
  }

  /** The text as the source computes it, with weeks only for more than a week. */
  function ExpirationTextAsWritten(seconds: int): string {
    (if seconds > Week then IntToString(seconds / Week) + " weeks, " else "")
      + IntToString((seconds % Week) / Day) + " days"
  }

  /**
   * The expiration text of a license with a remaining validity and no
   * `Never`; a remaining value that is no number makes the arithmetic raise.
   */
  function WithExpiration(row: Row): Outcome<Row> {
    if "remaining" in row && Get(row, "expiration", Str("")) != Str("Never") then
      match NumKey(row["remaining"])
      case Some(n) => Done(row["expiration" := Str(ExpirationText(n))])
      case None => Raised(TypeError("remaining"))
    else Done(row)
  }

  /** The row with the severity copied and the codes named. */
  function Coded(row: Row): Row {
    TranslatedRow(WithSeverity(row), LicenseCodes)
  }

  /** The index stripped of dots and the id formed from the index as read. */
  function Finished(row: Row, idx: string, host: Host): Row {
    Update(row, map["snmpindex" := Str(Strip(idx, '.')), "id" := Str(host.prepId("license_" + idx))])
  }

  /** The record of a license row, or the exception its row raises. */
  function LicenseData(row: Row, idx: string, host: Host): Outcome<Row> {
    match Titled(Coded(row), Get(row, "title", NoneV))
    case Raised(e) => Raised(e)
    case Done(r) =>
      match WithExpiration(r)
      case Raised(e) => Raised(e)
      case Done(r') => Done(Finished(r', idx, host))
  }

  /** The ObjectMap of the license at `idx`, None for a row without a name, or the exception its row raises. */
  function LicenseMap(host: Host, t: Table, idx: string): Outcome<Option<ObjMap>> {
    var row := RowAt(t, idx);
    if !Named(row) then Done(None)
    else
      match LicenseData(row, idx, host)
      case Raised(e) => Raised(e)
      case Done(data) => Done(Some(ObjMap(Modname, "", data)))
  }

  function LicenseMapOf(host: Host, t: Table): string -> Outcome<Option<ObjMap>> {
    idx => LicenseMap(host, t, idx)
  }

  /** What `process` returns (None without the license table), or the exception it raises. */
  function Result(host: Host, td: TableData): Outcome<Option<RelMap>> {
    if "clmgmtLicenseInfoTable" !in td then Done(None)
    else
      var t := td["clmgmtLicenseInfoTable"];
      match TryFilterMap(t.keys, LicenseMapOf(host, t))
      case Raised(e) => Raised(e)
      case Done(licenses) => Done(Some(RelMap("", "licenses", Modname, licenses)))
  }

  /** The `if 'type' in row` block. */
  method TitleLicense(row: Row, name: Value) returns (r: Outcome<Row>)
    ensures r == Titled(row, name)
  {
    var data := row;
    if "type" in data {
      if !data["type"].Str? {
        return Raised(AttributeError("title"));
      }
      data := data["title" := Str(Title(data["type"].s) + " " + PyStr(name))];
      if data["type"] == Str("permanent") {
        data := data["expiration" := Str("Never")];
      }
    }
    r := Done(data);
  }

  /** The `if 'remaining' in row` block. */
  method ExpireLicense(row: Row) returns (r: Outcome<Row>)
    ensures r == WithExpiration(row)
  {
    var data := row;
    if "remaining" in data && Get(data, "expiration", Str("")) != Str("Never") {
      var seconds := NumKey(data["remaining"]);
      if seconds.None? {
        return Raised(TypeError("remaining"));
      }
      var text := "";
      if seconds.value >= Week {
        text := IntToString(seconds.value / Week) + " weeks, ";
      }
      text := text + IntToString((seconds.value % Week) / Day) + " days";
      data := data["expiration" := Str(text)];
    }
    r := Done(data);
  }

  method CleanLicense(row: Row, idx: string, host: Host) returns (r: Outcome<Row>)
    ensures r == LicenseData(row, idx, host)
  {
    var data := row;
    if "status" in data {
      data := data["statusSev" := data["status"]];
    }
    data := TranslateCodes(data, LicenseCodes);
    var titled := TitleLicense(data, Get(row, "title", NoneV));
    if titled.Raised? {
      return Raised(titled.error);
    }
    var expired := ExpireLicense(titled.value);
    if expired.Raised? {
      return Raised(expired.error);
    }
    r := Done(Update(expired.value, map["snmpindex" := Str(Strip(idx, '.')), "id" := Str(host.prepId("license_" + idx))]));
  }

  /** CiscoControllerLicense.process */
  method Process(host: Host, td: TableData) returns (rm: Outcome<Option<RelMap>>)
    ensures rm == Result(host, td)
  {
    if "clmgmtLicenseInfoTable" !in td {
      return Done(None);
    }
    var t := td["clmgmtLicenseInfoTable"];
    var out: seq<ObjMap> := [];
    for i := 0 to |t.keys|
      invariant TryFilterMap(t.keys[..i], LicenseMapOf(host, t)) == Done(out)
    {
      TryFilterMapStep(t.keys, i, LicenseMapOf(host, t), out);
      var om: Outcome<Option<ObjMap>> := Done(None);
      var row := RowAt(t, t.keys[i]);
      if Named(row) {
        var data := CleanLicense(row, t.keys[i], host);
        if data.Raised? {
          TryFilterMapRaised(t.keys, i + 1, LicenseMapOf(host, t), data.error);
          return Raised(data.error);
        }
        om := Done(Some(ObjMap(Modname, "", data.value)));
      }
      out := out + OptSeq(om.value);
    }
    assert t.keys[..|t.keys|] == t.keys;
    rm := Done(Some(RelMap("", "licenses", Modname, out)));
  }

  // ----- properties -----

  /**
   * When no license row raises, the relationship holds one record per named
   * row, and nothing else.
   */
  lemma RecordsAreNamedLicenses(host: Host, td: TableData, m: ObjMap)
    requires "clmgmtLicenseInfoTable" in td
    requires forall i :: 0 <= i < |td["clmgmtLicenseInfoTable"].keys| ==>
      LicenseMap(host, td["clmgmtLicenseInfoTable"], td["clmgmtLicenseInfoTable"].keys[i]).Done?
    ensures var t := td["clmgmtLicenseInfoTable"];
      && Result(host, td).Done?
      && (m in Result(host, td).value.value.maps <==>
            exists i :: 0 <= i < |t.keys| && Named(RowAt(t, t.keys[i])) &&
              m == ObjMap(Modname, "", LicenseData(RowAt(t, t.keys[i]), t.keys[i], host).value))
  {
    var t := td["clmgmtLicenseInfoTable"];
    var g := (idx: string) => if LicenseMap(host, t, idx).Done? then LicenseMap(host, t, idx).value else None;
    TryFilterMapDone(t.keys, LicenseMapOf(host, t), g);
    FilterMapMember(t.keys, g, m);
  }

  /** The status codes 1 to 6 and the type codes 1 to 10 have names; no other code has. */
  lemma CodesAre()
    ensures forall k :: k in StatusCodes <==> 1 <= k <= 6
    ensures forall k :: k in TypeCodes <==> 1 <= k <= 10
  {
  }

  /** The severity column holds the status as it was read, and the status column its name when the code is known. */
  lemma SeverityKept(row: Row)
    requires "status" in row
    ensures var r := TranslatedRow(WithSeverity(row), LicenseCodes);
      && r["statusSev"] == row["status"]
      && r["status"] == Translated(StatusCodes, row["status"])
  {
  }

  /** A type with a name prefixes the title; a permanent one sets the expiration to `Never`. */
  lemma TitleRule(row: Row, name: Value)
    requires "type" in row && row["type"].Str?
    ensures Titled(row, name).Done?
    ensures Titled(row, name).value["title"] == Str(Title(row["type"].s) + " " + PyStr(name))
    ensures row["type"] == Str("permanent") ==> Titled(row, name).value["expiration"] == Str("Never")
    ensures row["type"] != Str("permanent") ==> Titled(row, name).value == row["title" := Str(Title(row["type"].s) + " " + PyStr(name))]
  {
  }

  /** A type code the table does not name stays a number, and taking its title case raises. */
  lemma UnknownTypeRaises(row: Row, idx: string, host: Host)
    requires "type" in row && row["type"].Int? && row["type"].i !in TypeCodes
    ensures LicenseData(row, idx, host) == Raised(AttributeError("title"))
  {
    CodedType(row);
    TranslatedRule(TypeCodes, row["type"]);
    assert Titled(Coded(row), Get(row, "title", NoneV)) == Raised(AttributeError("title"));
  }

  /** A license of type 4, permanent, expires `Never`, whatever validity it reports. */
  lemma PermanentNeverExpires(row: Row, idx: string, host: Host)
    requires "type" in row && row["type"] == Int(4)
    ensures var d := LicenseData(row, idx, host);
      d.Done? && "expiration" in d.value && d.value["expiration"] == Str("Never")
  {
    var r' := Titled(Coded(row), Get(row, "title", NoneV)).value;
    PermanentTitled(row);
    assert WithExpiration(r') == Done(r');
    FinishedKeeps(r', idx, host);
  }

  /** Type 4 is named `permanent`, and the type stage gives such a row the expiration `Never`. */
  lemma PermanentTitled(row: Row)
    requires "type" in row && row["type"] == Int(4)
    ensures var t := Titled(Coded(row), Get(row, "title", NoneV));
      t.Done? && "expiration" in t.value && t.value["expiration"] == Str("Never")
  {
    CodedType(row);
    TypeFour();
    TitleRule(Coded(row), Get(row, "title", NoneV));
  }

  /** The type column holds the name of its code. */
  lemma CodedType(row: Row)
    requires "type" in row
    ensures "type" in Coded(row) && Coded(row)["type"] == Translated(TypeCodes, row["type"])
  {
    assert WithSeverity(row)["type"] == row["type"];
  }

  lemma TypeFour()
    ensures Translated(TypeCodes, Int(4)) == Str("permanent")
  {
    assert TypeCodes[4] == Str("permanent");
  }

  /** The last step adds the index and the id and keeps every other column. */
  lemma FinishedKeeps(row: Row, idx: string, host: Host)
    ensures var f := Finished(row, idx, host);
      && f.Keys == row.Keys + {"snmpindex", "id"}
      && f["snmpindex"] == Str(Strip(idx, '.'))
      && f["id"] == Str(host.prepId("license_" + idx))
      && forall a :: a in row && a != "snmpindex" && a != "id" ==> f[a] == row[a]
  {
  }

  /**
   * For a non-negative validity the text names the whole weeks, shown only
   * when there is at least one, and the whole days of the part week left.
   */
  lemma ExpirationMeaning(seconds: nat)
    ensures var w := seconds / Week;
      var d := (seconds % Week) / Day;
      && ExpirationText(seconds) == (if w > 0 then NatToString(w) + " weeks, " else "") + NatToString(d) + " days"
      && w * Week + d * Day <= seconds < w * Week + (d + 1) * Day
      && d < 7
  {
    var w := seconds / Week;
    var r := seconds % Week;
    var d := r / Day;
    assert seconds == w * Week + r;
    assert r == d * Day + r % Day;
  }

  /** The source writes the weeks only for more than a week: exactly one week shows as `0 days`. */
  lemma OneWeekAsWritten()
    ensures ExpirationTextAsWritten(Week) == "0 days"
    ensures ExpirationText(Week) == "1 weeks, 0 days"
  {
  }

  /** Apart from a validity of exactly one week, the two texts agree. */
  lemma AsWrittenAgrees(seconds: int)
    requires seconds != Week
    ensures ExpirationTextAsWritten(seconds) == ExpirationText(seconds)
  {
  }

  /** A remaining validity that is no number makes the record raise unless the license is permanent. */
  lemma RemainingNotNumberRaises(row: Row)
    requires "remaining" in row && NumKey(row["remaining"]).None? && Get(row, "expiration", Str("")) != Str("Never")
    ensures WithExpiration(row) == Raised(TypeError("remaining"))
  {
  }

  /** The record's index is stripped of dots, and its id is formed from the index as read. */
  lemma LicenseIds(row: Row, idx: string, host: Host)
    requires LicenseData(row, idx, host).Done?
    ensures var d := LicenseData(row, idx, host).value;
      && "snmpindex" in d && d["snmpindex"] == Str(Strip(idx, '.'))
      && "id" in d && d["id"] == Str(host.prepId("license_" + idx))
  {
    var r := Titled(Coded(row), Get(row, "title", NoneV)).value;
    FinishedKeeps(WithExpiration(r).value, idx, host);
  }
}
