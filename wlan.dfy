/**
 * The CiscoWLAN modeler plugin: one WLAN record per row of bsnDot11EssTable,
 * merged with the configuration, CCKM, CKIP and WLAN-LDAP rows of the same
 * index, with coded columns decoded and the security label and the RADIUS
 * and LDAP server lists derived.
 */
module CiscoWlan {
  import opened Options
  import opened PyStrings
  import opened Values
  import opened Folds

  const Required: seq<string> :=
    ["bsnDot11EssTable", "cLWlanConfigTable", "cLWSecDot11EssCckmTable", "cLWSecDot11EssCkipTable"]

  const Booleans: seq<string> :=
    ["broadcast", "ckip", "enabled", "webauth", "wep", "wep_dot1x", "wired", "wpa1", "wpa2"]

  const KeyMgmtCodes: map<int, Value> :=
    map[0x00 := Str(""), 0x20 := Str("PSK"), 0x40 := Str("CCKM"), 0x80 := Str("802.1x"), 0xc0 := Str("802.1x+CCKM")]

  const SubtypeCodes: map<int, Value> :=
    map[1 := Str("CiscoWLAN"), 2 := Str("CiscoGuestLAN"), 3 := Str("CiscoRemoteLAN")]

  const CipherCodes: map<int, Value> :=
    map[0x00 := Str(""), 0x40 := Str("AES"), 0x80 := Str("TKIP"), 0xc0 := Str("AES+TKIP")]

  const CodeColumns: map<string, map<int, Value>> :=
    map["key_mgmt" := KeyMgmtCodes, "subtype" := SubtypeCodes, "wpa1_type" := CipherCodes, "wpa2_type" := CipherCodes]

  /** The coded columns that hold a one-octet string rather than an integer. */
  const ByteColumns: seq<string> := ["key_mgmt", "wpa1_type", "wpa2_type"]

  /** ord() of a one-character string; any other value is left as it is. */
  function Ord(v: Value): Value {
    if v.Str? && |v.s| == 1 then Int(v.s[0] as int) else v
  }

  /** `attr_map[attr].get(value)`: a code the map does not list becomes None. */
  function DecodedValue(attr: string, v: Value): Value
    requires attr in CodeColumns
  {
    var code := if attr in ByteColumns then Ord(v) else v;
    match Lookup(CodeColumns[attr], code)
    case Some(name) => name
    case None => NoneV
  }

  function Decoded(row: Row): (r: Row)
    ensures r.Keys == row.Keys
  {
    map a | a in row :: if a in CodeColumns then DecodedValue(a, row[a]) else row[a]
  }

  /** The row with the coded columns in `done` decoded. */
  function PartlyDecoded(row: Row, done: set<string>): Row {
    map a | a in row :: if a in CodeColumns && a in done then DecodedValue(a, row[a]) else row[a]
  }

  /** Decoding one more column of a partly decoded row. */
  lemma DecodeOne(row: Row, done: set<string>, a: string)
    requires a in CodeColumns && a !in done
    ensures a in row ==> PartlyDecoded(row, done + {a}) == PartlyDecoded(row, done)[a := DecodedValue(a, row[a])]
    ensures a !in row ==> PartlyDecoded(row, done + {a}) == PartlyDecoded(row, done)
  {
  }

  /** The `for attr in attr_map` loop, visiting the coded columns in an arbitrary order. */
  method DecodeCodes(row: Row) returns (r: Row)
    ensures r == Decoded(row)
  {
    r := row;
    var todo := CodeColumns.Keys;
    assert r == PartlyDecoded(row, {});
    while todo != {}
      invariant todo <= CodeColumns.Keys
      invariant r == PartlyDecoded(row, CodeColumns.Keys - todo)
      decreases todo
    {
      var a :| a in todo;
      ghost var done := CodeColumns.Keys - todo;
      DecodeOne(row, done, a);
      if a in r {
        var value := r[a];
        if a in ByteColumns {
          value := Ord(value);
        }
        r := r[a := match Lookup(CodeColumns[a], value) case Some(name) => name case None => NoneV];
      }
      todo := todo - {a};
      assert CodeColumns.Keys - todo == done + {a};
    }
    assert r == Decoded(row);
  }

  // ----- security label -----

  /** `WPA-<wpa1 type>` when WPA is on with a cipher, else empty. */
  function WpaPart(row: Row): string {
    var t1 := Get(row, "wpa1_type", NoneV);
    if Truthy(Get(row, "wpa1", NoneV)) && Truthy(t1) then "WPA-" + PyStr(t1) else ""
  }

  /** The WPA part followed by `/WPA2-<wpa2 type>`, where a shared cipher is named once. */
  function WpaModeRaw(row: Row): string {
    var t1 := Get(row, "wpa1_type", NoneV);
    var t2 := Get(row, "wpa2_type", NoneV);
    if Truthy(Get(row, "wpa2", NoneV)) && Truthy(t2) then
      (if t2 == t1 then Replace(WpaPart(row), "-" + PyStr(t2), "") else WpaPart(row)) + "/WPA2-" + PyStr(t2)
    else WpaPart(row)
  }

  /** The WPA part of the label: `WPA-<wpa1 type>`, `/WPA2-<wpa2 type>`, or both, without a leading '/'. */
  function WpaMode(row: Row): string {
    LStrip(WpaModeRaw(row), '/')
  }

  /** The label before the WebAuth and MAC filter suffixes. */
  function BaseSecurity(row: Row): string {
    var keyMgmt := Get(row, "key_mgmt", Str(""));
    if Truthy(keyMgmt) then WpaMode(row) + " " + PyStr(keyMgmt)
    else if Truthy(Get(row, "wep_dot1x", NoneV)) then "WEP 802.1x"
    else if Truthy(Get(row, "wep", NoneV)) then "WEP"
    else if Truthy(Get(row, "ckip", NoneV)) then "CKIP"
    else "Open"
  }

  function SecurityLabel(row: Row): string {
    BaseSecurity(row)
      + (if Truthy(Get(row, "webauth", NoneV)) then " + WebAuth" else "")
      + (if Truthy(Get(row, "mac_filter", NoneV)) then " + MAC Filter" else "")
  }

  /** The WPA part of the security-type block. */
  method BuildWpaMode(row: Row) returns (mode: string)
    ensures mode == WpaMode(row)
  {
    mode := "";
    var wpa1Type := Get(row, "wpa1_type", NoneV);
    var wpa2Type := Get(row, "wpa2_type", NoneV);
    if Truthy(Get(row, "wpa1", NoneV)) && Truthy(wpa1Type) {
      mode := "WPA-" + PyStr(wpa1Type);
    }
    assert mode == WpaPart(row);
    if Truthy(Get(row, "wpa2", NoneV)) && Truthy(wpa2Type) {
      if wpa2Type == wpa1Type {
        mode := Replace(mode, "-" + PyStr(wpa2Type), "");
      }
      mode := mode + "/WPA2-" + PyStr(wpa2Type);
    }
    assert mode == WpaModeRaw(row);
    mode := LStrip(mode, '/');
  }

  /** The security-type block of the loop, building the label step by step. */
  method BuildSecurity(row: Row) returns (security: string)
    ensures security == SecurityLabel(row)
  {
    security := BuildBase(row);
    if Truthy(Get(row, "webauth", NoneV)) {
      security := security + " + WebAuth";
    }
    if Truthy(Get(row, "mac_filter", NoneV)) {
      security := security + " + MAC Filter";
    }
  }

  /** The key management, WEP and CKIP part of the security-type block. */
  method BuildBase(row: Row) returns (security: string)
    ensures security == BaseSecurity(row)
  {
    security := "Open";
    var keyMgmt := Get(row, "key_mgmt", Str(""));
    if Truthy(keyMgmt) {
      var mode := BuildWpaMode(row);
      security := mode + " " + PyStr(keyMgmt);
    } else {
      if Truthy(Get(row, "ckip", NoneV)) {
        security := "CKIP";
      }
      if Truthy(Get(row, "wep", NoneV)) {
        security := "WEP";
      }
      if Truthy(Get(row, "wep_dot1x", NoneV)) {
        security := "WEP 802.1x";
      }
    }
  }

  /** Removing a pattern that starts with a character `w` lacks, from `w` followed by the pattern, leaves `w`. */
  lemma {:induction false} ReplaceTrailing(w: string, pat: string)
    requires pat != [] && pat[0] !in w
    ensures Replace(w + pat, pat, "") == w
    decreases |w|
  {
    if w == [] {
      assert pat[..|pat|] == pat;
      assert pat[|pat|..] == [];
      assert w + pat == pat;
    } else {
      var t := w + pat;
      assert t[..|pat|][0] == w[0] != pat[0];
      assert t[1..] == w[1..] + pat;
      ReplaceTrailing(w[1..], pat);
      assert [w[0]] + w[1..] == w;
    }
  }

  /** Dropping `-<cipher>` from `WPA-<cipher>` leaves `WPA`. */
  lemma ReplaceWpaCipher(cipher: string)
    ensures Replace("WPA-" + cipher, "-" + cipher, "") == "WPA"
  {
    ReplaceTrailing("WPA", "-" + cipher);
    assert "WPA-" + cipher == "WPA" + ("-" + cipher);
  }

  lemma WpaPartNamed(row: Row, cipher: string)
    requires Truthy(Get(row, "wpa1", NoneV))
    requires Get(row, "wpa1_type", NoneV) == Str(cipher) && cipher != ""
    ensures WpaPart(row) == "WPA-" + cipher
  {
  }

  lemma WpaModeRawSameCipher(row: Row, cipher: string)
    requires Truthy(Get(row, "wpa1", NoneV)) && Truthy(Get(row, "wpa2", NoneV))
    requires Get(row, "wpa1_type", NoneV) == Str(cipher) && Get(row, "wpa2_type", NoneV) == Str(cipher)
    requires cipher != ""
    ensures WpaModeRaw(row) == "WPA/WPA2-" + cipher
  {
    WpaPartNamed(row, cipher);
    ReplaceWpaCipher(cipher);
  }

  /** A WPA and WPA2 network with the same cipher is labelled `WPA/WPA2-<cipher> <key management>`. */
  lemma SecuritySameCipher(row: Row, cipher: string, keyMgmt: string)
    requires Get(row, "key_mgmt", Str("")) == Str(keyMgmt) && keyMgmt != ""
    requires Truthy(Get(row, "wpa1", NoneV)) && Truthy(Get(row, "wpa2", NoneV))
    requires Get(row, "wpa1_type", NoneV) == Str(cipher) && Get(row, "wpa2_type", NoneV) == Str(cipher)
    requires cipher != ""
    ensures BaseSecurity(row) == "WPA/WPA2-" + cipher + " " + keyMgmt
  {
    WpaModeRawSameCipher(row, cipher);
    LStripClean("WPA/WPA2-" + cipher, '/');
    assert WpaMode(row) == "WPA/WPA2-" + cipher;
  }

  /** Different ciphers are both named: `WPA-<wpa1 type>/WPA2-<wpa2 type> <key management>`. */
  lemma SecurityTwoCiphers(row: Row, c1: string, c2: string, keyMgmt: string)
    requires Get(row, "key_mgmt", Str("")) == Str(keyMgmt) && keyMgmt != ""
    requires Truthy(Get(row, "wpa1", NoneV)) && Truthy(Get(row, "wpa2", NoneV))
    requires Get(row, "wpa1_type", NoneV) == Str(c1) && Get(row, "wpa2_type", NoneV) == Str(c2)
    requires c1 != "" && c2 != "" && c1 != c2
    ensures BaseSecurity(row) == "WPA-" + c1 + "/WPA2-" + c2 + " " + keyMgmt
  {
    assert WpaModeRaw(row) == "WPA-" + c1 + "/WPA2-" + c2;
    LStripClean("WPA-" + c1 + "/WPA2-" + c2, '/');
  }

  /** WPA2 alone is labelled `WPA2-<cipher> <key management>`: the leading '/' is stripped. */
  lemma SecurityWpa2Only(row: Row, cipher: string, keyMgmt: string)
    requires Get(row, "key_mgmt", Str("")) == Str(keyMgmt) && keyMgmt != ""
    requires !Truthy(Get(row, "wpa1", NoneV)) && Truthy(Get(row, "wpa2", NoneV))
    requires Get(row, "wpa2_type", NoneV) == Str(cipher) && cipher != ""
    ensures BaseSecurity(row) == "WPA2-" + cipher + " " + keyMgmt
  {
    WpaModeRawWpa2Only(row, cipher);
    assert "/WPA2-" + cipher == "/" + ("WPA2-" + cipher);
    LStripOneSlash("WPA2-" + cipher);
    assert WpaMode(row) == "WPA2-" + cipher;
  }

  /** Without WPA the raw mode is `/WPA2-<cipher>`: there is no WPA part to remove a shared cipher from. */
  lemma WpaModeRawWpa2Only(row: Row, cipher: string)
    requires !Truthy(Get(row, "wpa1", NoneV)) && Truthy(Get(row, "wpa2", NoneV))
    requires Get(row, "wpa2_type", NoneV) == Str(cipher) && cipher != ""
    ensures WpaModeRaw(row) == "/WPA2-" + cipher
  {
    assert WpaPart(row) == "";
    assert Replace("", "-" + cipher, "") == "";
  }

  /** One leading '/' is stripped from a string that goes on without one. */
  lemma LStripOneSlash(s: string)
    requires s == [] || s[0] != '/'
    ensures LStrip("/" + s, '/') == s
  {
    assert ("/" + s)[1..] == s;
    LStripClean(s, '/');
  }

  /** WPA alone is labelled `WPA-<cipher> <key management>`. */
  lemma SecurityWpaOnly(row: Row, cipher: string, keyMgmt: string)
    requires Get(row, "key_mgmt", Str("")) == Str(keyMgmt) && keyMgmt != ""
    requires Truthy(Get(row, "wpa1", NoneV)) && !Truthy(Get(row, "wpa2", NoneV))
    requires Get(row, "wpa1_type", NoneV) == Str(cipher) && cipher != ""
    ensures BaseSecurity(row) == "WPA-" + cipher + " " + keyMgmt
  {
    assert WpaModeRaw(row) == "WPA-" + cipher;
    LStripClean("WPA-" + cipher, '/');
  }

  /** Without key management the label is Open, CKIP, WEP or WEP 802.1x, the later flags winning. */
  lemma SecurityNoKeyManagement(row: Row)
    requires !Truthy(Get(row, "key_mgmt", Str("")))
    ensures BaseSecurity(row) in ["Open", "CKIP", "WEP", "WEP 802.1x"]
    ensures Truthy(Get(row, "wep_dot1x", NoneV)) ==> BaseSecurity(row) == "WEP 802.1x"
    ensures BaseSecurity(row) == "Open" <==>
      !Truthy(Get(row, "ckip", NoneV)) && !Truthy(Get(row, "wep", NoneV)) && !Truthy(Get(row, "wep_dot1x", NoneV))
  {
  }

  /** The suffixes come in the order WebAuth, MAC filter. */
  lemma SecuritySuffixes(row: Row)
    ensures Truthy(Get(row, "webauth", NoneV)) && Truthy(Get(row, "mac_filter", NoneV)) ==>
      SecurityLabel(row) == BaseSecurity(row) + " + WebAuth + MAC Filter"
    ensures Truthy(Get(row, "webauth", NoneV)) && !Truthy(Get(row, "mac_filter", NoneV)) ==>
      SecurityLabel(row) == BaseSecurity(row) + " + WebAuth"
    ensures !Truthy(Get(row, "webauth", NoneV)) && Truthy(Get(row, "mac_filter", NoneV)) ==>
      SecurityLabel(row) == BaseSecurity(row) + " + MAC Filter"
    ensures !Truthy(Get(row, "webauth", NoneV)) && !Truthy(Get(row, "mac_filter", NoneV)) ==>
      SecurityLabel(row) == BaseSecurity(row)
  {
  }

  // ----- RADIUS and LDAP server lists -----

  /** The server of column `rad<kind><num>`, with spaces turned into ':', unless missing or 'none'. */
  function RadiusEntry(row: Row, kind: string, num: nat): Option<string> {
    var attr := "rad" + kind + NatToString(num);
    if Get(row, attr, Str("none")) != Str("none") then Some(Replace(PyStr(row[attr]), " ", ":")) else None
  }

  /** The servers of slots 1 to n, in slot order. */
  function RadiusUpTo(row: Row, kind: string, n: nat): (r: seq<string>)
    ensures |r| <= n
  {
    if n == 0 then [] else RadiusUpTo(row, kind, n - 1) + OptSeq(RadiusEntry(row, kind, n))
  }

  /** The nested `for num in range(1, 4): for rad in ['acct', 'auth']` loop. */
  method CollectRadius(row: Row) returns (acct: seq<string>, auth: seq<string>)
    ensures acct == RadiusUpTo(row, "acct", 3)
    ensures auth == RadiusUpTo(row, "auth", 3)
  {
    acct := [];
    auth := [];
    for num := 1 to 4
      invariant acct == RadiusUpTo(row, "acct", num - 1)
      invariant auth == RadiusUpTo(row, "auth", num - 1)
    {
      var kinds := ["acct", "auth"];
      for k := 0 to 2
        invariant acct == RadiusUpTo(row, "acct", if k >= 1 then num else num - 1)
        invariant auth == RadiusUpTo(row, "auth", if k >= 2 then num else num - 1)
      {
        var rad := kinds[k];
        assert k == 0 ==> rad == "acct";
        assert k == 1 ==> rad == "auth" && rad != "acct";
        ghost var entry := RadiusEntry(row, rad, num);
        var attr := "rad" + rad + NatToString(num);
        if Get(row, attr, Str("none")) != Str("none") {
          var server := Replace(PyStr(row[attr]), " ", ":");
          assert entry == Some(server);
          if "acct" == rad {
            acct := acct + [server];
          } else if "auth" == rad {
            auth := auth + [server];
          }
        } else {
          assert entry == None;
        }
        assert RadiusUpTo(row, rad, num) == RadiusUpTo(row, rad, num - 1) + OptSeq(entry);
      }
    }
  }

  /** Every slot that names a server contributes it, in slot order. */
  lemma {:induction false} RadiusMember(row: Row, kind: string, n: nat, server: string)
    ensures server in RadiusUpTo(row, kind, n) <==> exists k :: 1 <= k <= n && RadiusEntry(row, kind, k) == Some(server)
  {
    if n > 0 {
      RadiusMember(row, kind, n - 1, server);
    }
  }

  /** With all three slots naming servers the list is exactly those three, in order. */
  lemma RadiusAllSlots(row: Row, kind: string, s1: string, s2: string, s3: string)
    requires RadiusEntry(row, kind, 1) == Some(s1)
    requires RadiusEntry(row, kind, 2) == Some(s2)
    requires RadiusEntry(row, kind, 3) == Some(s3)
    ensures RadiusUpTo(row, kind, 3) == [s1, s2, s3]
  {
    assert RadiusUpTo(row, kind, 1) == [s1];
    assert RadiusUpTo(row, kind, 2) == [s1, s2];
  }

  /** The LDAP server of WLAN column `ldap<num>`: its address, dotted when typed 1, and `:<port>` when a port is known. */
  function LdapEntry(row: Row, servers: Table, host: Host, num: nat): Option<string> {
    var attr := "ldap" + NatToString(num);
    var key := PyStr(Get(row, attr, Int(0)));
    if key !in servers.vals then None
    else
      var server := servers.vals[key];
      if "ip" !in server then None
      else
        var address := if IsOne(Get(server, "ip_type", Int(0))) then host.asip(server["ip"]) else PyStr(server["ip"]);
        Some(if "port" in server then address + ":" + PyStr(server["port"]) else address)
  }

  function LdapUpTo(row: Row, servers: Table, host: Host, n: nat): (r: seq<string>)
    ensures |r| <= n
  {
    if n == 0 then [] else LdapUpTo(row, servers, host, n - 1) + OptSeq(LdapEntry(row, servers, host, n))
  }

  /** The `for num in range(1, 4)` LDAP loop. */
  method CollectLdap(row: Row, servers: Table, host: Host) returns (ldap: seq<string>)
    ensures ldap == LdapUpTo(row, servers, host, 3)
  {
    ldap := [];
    var ldapEntry := "";
    for num := 1 to 4
      invariant ldap == LdapUpTo(row, servers, host, num - 1)
    {
      var attr := "ldap" + NatToString(num);
      if PyStr(Get(row, attr, Int(0))) in servers.vals {
        var server := servers.vals[PyStr(Get(row, attr, Int(0)))];
        if "ip" in server {
          if IsOne(Get(server, "ip_type", Int(0))) {
            ldapEntry := host.asip(server["ip"]);
          } else {
            ldapEntry := PyStr(server["ip"]);
          }
          if "port" in server {
            ldapEntry := ldapEntry + ":" + PyStr(server["port"]);
          }
          ldap := ldap + [ldapEntry];
        }
      }
    }
  }

  /**
   * The slot's server contributes exactly when the server table has the row
   * the slot names and that row has an address: the address, converted by
   * asip for an address of type 1 and as text otherwise, followed by
   * `:<port>` when the row has a port.
   */
  lemma LdapEntryRules(row: Row, servers: Table, host: Host, num: nat)
    ensures var key := PyStr(Get(row, "ldap" + NatToString(num), Int(0)));
      && (LdapEntry(row, servers, host, num).Some? <==> key in servers.vals && "ip" in servers.vals[key])
      && (key in servers.vals && "ip" in servers.vals[key] ==>
            var server := servers.vals[key];
            var address := if IsOne(Get(server, "ip_type", Int(0))) then host.asip(server["ip"]) else PyStr(server["ip"]);
            LdapEntry(row, servers, host, num) == Some(if "port" in server then address + ":" + PyStr(server["port"]) else address))
  {
  }

  /** The LDAP list holds exactly the entries of the slots up to n. */
  lemma LdapMember(row: Row, servers: Table, host: Host, n: nat, entry: string)
    ensures entry in LdapUpTo(row, servers, host, n) <==> exists k :: 1 <= k <= n && LdapEntry(row, servers, host, k) == Some(entry)
  {
    var slot := (k: nat) => LdapEntry(row, servers, host, k);
    var upTo := (k: nat) => LdapUpTo(row, servers, host, k);
    forall k: nat | 1 <= k <= n
      ensures upTo(k) == upTo(k - 1) + OptSeq(slot(k))
    {
    }
    SlotsMember(slot, upTo, n, entry);
  }

  // ----- the WLAN record -----

  function StrList(ss: seq<string>): (v: Value)
    ensures v.List? && |v.items| == |ss|
    ensures forall i :: 0 <= i < |ss| ==> v.items[i] == Str(ss[i])
  {
    List(seq(|ss|, i requires 0 <= i < |ss| => Str(ss[i])))
  }

  /** The SNMP row of a WLAN merged with the rows of the same index in the other tables. */
  function Merged(td: TableData, idx: string): Row {
    Update(Update(Update(Update(
      RowAt(TableOr(td, "bsnDot11EssTable"), idx),
      RowAt(TableOr(td, "cLWlanConfigTable"), idx)),
      RowAt(TableOr(td, "cLWSecDot11EssCckmTable"), idx)),
      RowAt(TableOr(td, "cLWSecDot11EssCkipTable"), idx)),
      RowAt(TableOr(td, "cldlWlanLdapTable"), idx))
  }

  /** The merged row with booleans cleaned, codes decoded and an unset DHCP server removed. */
  function Cleaned(td: TableData, idx: string): Row {
    var r := Decoded(BooleansCleaned(Merged(td, idx), Booleans));
    if Get(r, "dhcp", NoneV) == Str("0.0.0.0") then r - {"dhcp"} else r
  }

  /** The attributes the plugin adds to the cleaned row. */
  function Derived(td: TableData, host: Host, idx: string): Row {
    var r := Cleaned(td, idx);
    var servers := TableOr(td, "cldlServerTable");
    var name := Get(RowAt(TableOr(td, "bsnDot11EssTable"), idx), "title", NoneV);
    map[
      "snmpindex" := Str(Strip(idx, '.')),
      "id" := Str(host.prepId(PyStr(Get(r, "profile", name)))),
      "ldap" := StrList(LdapUpTo(r, servers, host, 3)),
      "radAcct" := StrList(RadiusUpTo(r, "acct", 3)),
      "radAuth" := StrList(RadiusUpTo(r, "auth", 3)),
      "security" := Str(SecurityLabel(r))]
  }

  /** The name filter: a WLAN without a title, or whose title the ignore pattern finds, is not modelled. */
  predicate Skipped(td: TableData, ignoreNames: Regex, idx: string) {
    var name := Get(RowAt(TableOr(td, "bsnDot11EssTable"), idx), "title", NoneV);
    name == NoneV || IgnoredBy(ignoreNames, PyStr(name), false)
  }

  /** The attributes of an emitted WLAN: the cleaned row overwritten by the derived ones. */
  function WlanData(td: TableData, host: Host, idx: string): Row {
    Update(Cleaned(td, idx), Derived(td, host, idx))
  }

  /** The ObjectMap of a WLAN: its class is named by the decoded subtype, CiscoWLAN by default. */
  function WlanObject(data: Row): ObjMap {
    ObjMap("ZenPacks.daviswr.WirelessController." + PyStr(Get(data, "subtype", Str("CiscoWLAN"))), "", data)
  }

  /** The ObjectMap of one WLAN, or None when the WLAN is skipped. */
  function WlanMap(td: TableData, ignoreNames: Regex, host: Host, idx: string): Option<ObjMap> {
    if Skipped(td, ignoreNames, idx) then None else Some(WlanObject(WlanData(td, host, idx)))
  }

  function WlanMapOf(td: TableData, ignoreNames: Regex, host: Host): string -> Option<ObjMap> {
    idx => WlanMap(td, ignoreNames, host, idx)
  }

  /** What `process` returns. */
  function Result(td: TableData, ignoreNames: Regex, host: Host): Option<seq<RelMap>> {
    if !HasTables(td, Required) then None
    else
      assert Required[0] in td;
      var ess := td["bsnDot11EssTable"];
      Some([RelMap("", "wlans", "ZenPacks.daviswr.WirelessController.WLAN", FilterMap(ess.keys, WlanMapOf(td, ignoreNames, host)))])
  }

  /** The `row.update(...)` merge of the four other tables. */
  method MergeRow(td: TableData, idx: string) returns (row: Row)
    ensures row == Merged(td, idx)
  {
    row := RowAt(TableOr(td, "bsnDot11EssTable"), idx);
    row := Update(row, RowAt(TableOr(td, "cLWlanConfigTable"), idx));
    row := Update(row, RowAt(TableOr(td, "cLWSecDot11EssCckmTable"), idx));
    row := Update(row, RowAt(TableOr(td, "cLWSecDot11EssCkipTable"), idx));
    row := Update(row, RowAt(TableOr(td, "cldlWlanLdapTable"), idx));
  }

  /** The attribute clean-up: booleans, coded columns, and the unset DHCP server. */
  method CleanRow(td: TableData, idx: string) returns (row: Row)
    ensures row == Cleaned(td, idx)
  {
    row := MergeRow(td, idx);
    row := CleanBooleans(row, Booleans);
    row := DecodeCodes(row);
    if Get(row, "dhcp", NoneV) == Str("0.0.0.0") {
      row := row - {"dhcp"};
    }
  }

  /** The final `row.update({...})`. */
  method DeriveAttributes(td: TableData, host: Host, idx: string, row: Row) returns (extra: Row)
    requires row == Cleaned(td, idx)
    ensures extra == Derived(td, host, idx)
  {
    var name := Get(RowAt(TableOr(td, "bsnDot11EssTable"), idx), "title", NoneV);
    var security := BuildSecurity(row);
    var acct, auth := CollectRadius(row);
    var ldap := CollectLdap(row, TableOr(td, "cldlServerTable"), host);
    extra := map[
      "snmpindex" := Str(Strip(idx, '.')),
      "id" := Str(host.prepId(PyStr(Get(row, "profile", name)))),
      "ldap" := StrList(ldap),
      "radAcct" := StrList(acct),
      "radAuth" := StrList(auth),
      "security" := Str(security)];
  }

  /** The loop body after the name filter: merge, clean up, derive, and wrap in an ObjectMap. */
  method BuildWlan(td: TableData, host: Host, idx: string) returns (om: ObjMap)
    ensures om == WlanObject(WlanData(td, host, idx))
  {
    var row := CleanRow(td, idx);
    var extra := DeriveAttributes(td, host, idx, row);
    row := Update(row, extra);
    var className := "ZenPacks.daviswr.WirelessController." + PyStr(Get(row, "subtype", Str("CiscoWLAN")));
    om := ObjMap(className, "", row);
  }

  /** The body of the loop for one WLAN index. */
  method ProcessWlan(td: TableData, ignoreNames: Regex, host: Host, idx: string) returns (om: Option<ObjMap>)
    ensures om == WlanMap(td, ignoreNames, host, idx)
  {
    var name := Get(RowAt(TableOr(td, "bsnDot11EssTable"), idx), "title", NoneV);
    if name == NoneV {
      return None;
    } else if ignoreNames.text != "" && Search(ignoreNames, PyStr(name)) {
      return None;
    }
    var built := BuildWlan(td, host, idx);
    om := Some(built);
  }

  /** The `len()` calls on the tables read without a default. */
  method CheckTables(td: TableData) returns (ok: bool)
    ensures ok == HasTables(td, Required)
  {
    var i := 0;
    while i < |Required|
      invariant 0 <= i <= |Required|
      invariant forall j :: 0 <= j < i ==> Required[j] in td
    {
      if Required[i] !in td {
        return false;
      }
      i := i + 1;
    }
    return true;
  }

  /** CiscoWLAN.process */
  method Process(td: TableData, ignoreNames: Regex, host: Host) returns (maps: Option<seq<RelMap>>)
    ensures maps == Result(td, ignoreNames, host)
  {
    var ok := CheckTables(td);
    if !ok {
      return None;
    }
    assert Required[0] in td;
    var ess := td["bsnDot11EssTable"];
    var objects: seq<ObjMap> := [];
    for n := 0 to |ess.keys|
      invariant objects == FilterMap(ess.keys[..n], WlanMapOf(td, ignoreNames, host))
    {
      FilterMapStep(ess.keys, n, WlanMapOf(td, ignoreNames, host));
      var om := ProcessWlan(td, ignoreNames, host, ess.keys[n]);
      if om.Some? {
        objects := objects + [om.value];
      }
    }
    assert ess.keys[..|ess.keys|] == ess.keys;
    maps := Some([RelMap("", "wlans", "ZenPacks.daviswr.WirelessController.WLAN", objects)]);
  }

  // ----- properties of the result -----

  /** The result is None exactly when one of the four required tables is missing. */
  lemma ResultNoneIff(td: TableData, ignoreNames: Regex, host: Host)
    ensures Result(td, ignoreNames, host).None? <==>
      "bsnDot11EssTable" !in td || "cLWlanConfigTable" !in td
      || "cLWSecDot11EssCckmTable" !in td || "cLWSecDot11EssCkipTable" !in td
  {
    if "bsnDot11EssTable" !in td { assert Required[0] !in td; }
    if "cLWlanConfigTable" !in td { assert Required[1] !in td; }
    if "cLWSecDot11EssCckmTable" !in td { assert Required[2] !in td; }
    if "cLWSecDot11EssCkipTable" !in td { assert Required[3] !in td; }
  }

  /** A WLAN is emitted exactly when it has a title the ignore pattern does not find; skipping depends on its own row only. */
  lemma EmittedIff(td: TableData, ignoreNames: Regex, host: Host, idx: string)
    ensures WlanMap(td, ignoreNames, host, idx).Some? <==>
      var name := Get(RowAt(TableOr(td, "bsnDot11EssTable"), idx), "title", NoneV);
      name != NoneV && !(ignoreNames.text != "" && Search(ignoreNames, PyStr(name)))
  {
  }

  /** Every record in the relationship comes from one WLAN row that is not skipped, and every such row gives one. */
  lemma RecordsAreUnskippedRows(td: TableData, ignoreNames: Regex, host: Host, m: ObjMap)
    requires Result(td, ignoreNames, host).Some?
    ensures m in Result(td, ignoreNames, host).value[0].maps <==>
      exists i :: 0 <= i < |TableOr(td, "bsnDot11EssTable").keys| &&
        !Skipped(td, ignoreNames, TableOr(td, "bsnDot11EssTable").keys[i]) &&
        WlanMap(td, ignoreNames, host, TableOr(td, "bsnDot11EssTable").keys[i]) == Some(m)
  {
    assert Required[0] in td;
    FilterMapMember(TableOr(td, "bsnDot11EssTable").keys, WlanMapOf(td, ignoreNames, host), m);
  }

  const DerivedKeys: set<string> := {"snmpindex", "id", "ldap", "radAcct", "radAuth", "security"}

  lemma DerivedKeysAre(td: TableData, host: Host, idx: string)
    ensures Derived(td, host, idx).Keys == DerivedKeys
  {
  }

  /** Outside the derived attributes and the DHCP column, the record holds the decoded, cleaned merged row. */
  lemma DataAt(td: TableData, host: Host, idx: string, a: string)
    requires a !in DerivedKeys && a != "dhcp"
    ensures var d := Decoded(BooleansCleaned(Merged(td, idx), Booleans));
      (a in WlanData(td, host, idx) <==> a in d) && (a in d ==> WlanData(td, host, idx)[a] == d[a])
  {
    DerivedKeysAre(td, host, idx);
  }

  lemma BooleansNotDerived()
    ensures forall a :: a in Booleans ==> a !in DerivedKeys
  {
  }

  lemma BooleansNotCoded()
    ensures forall a :: a in Booleans ==> a !in CodeColumns && a != "dhcp"
  {
  }

  lemma KeyMgmtApart()
    ensures "key_mgmt" !in DerivedKeys && "key_mgmt" !in Booleans && "key_mgmt" != "dhcp"
  {
  }

  lemma DhcpApart()
    ensures "dhcp" !in DerivedKeys && "dhcp" !in Booleans && "dhcp" !in CodeColumns
  {
  }

  lemma BooleanNotDerived(attr: string)
    requires attr in Booleans
    ensures attr !in DerivedKeys && attr !in CodeColumns && attr != "dhcp"
  {
    BooleansNotDerived();
    BooleansNotCoded();
  }

  lemma CleanedBoolean(row: Row, attr: string)
    requires attr in Booleans && attr in row && attr !in CodeColumns
    ensures attr in Decoded(BooleansCleaned(row, Booleans))
    ensures Decoded(BooleansCleaned(row, Booleans))[attr] == Bool(IsOne(row[attr]))
  {
  }

  /** A boolean column the merged row has becomes True exactly when its raw value is 1. */
  lemma BooleanColumns(td: TableData, host: Host, idx: string, attr: string)
    requires attr in Booleans && attr in Merged(td, idx)
    ensures attr in WlanData(td, host, idx) && WlanData(td, host, idx)[attr] == Bool(IsOne(Merged(td, idx)[attr]))
  {
    BooleanNotDerived(attr);
    CleanedBoolean(Merged(td, idx), attr);
    DataAt(td, host, idx, attr);
  }

  lemma CleanedKeyMgmt(row: Row, code: char)
    requires Get(row, "key_mgmt", NoneV) == Str([code])
    ensures Decoded(BooleansCleaned(row, Booleans))["key_mgmt"] ==
      (if code as int in KeyMgmtCodes then KeyMgmtCodes[code as int] else NoneV)
  {
    KeyMgmtApart();
  }

  /** A key-management octet is decoded through its map, and an unknown one becomes None. */
  lemma KeyManagementDecoded(td: TableData, host: Host, idx: string, code: char)
    requires Get(Merged(td, idx), "key_mgmt", NoneV) == Str([code])
    ensures "key_mgmt" in WlanData(td, host, idx) && WlanData(td, host, idx)["key_mgmt"] ==
      (if code as int in KeyMgmtCodes then KeyMgmtCodes[code as int] else NoneV)
  {
    KeyMgmtApart();
    DataAt(td, host, idx, "key_mgmt");
    CleanedKeyMgmt(Merged(td, idx), code);
  }

  lemma CleanedDhcp(row: Row)
    requires Get(row, "dhcp", NoneV) == Str("0.0.0.0")
    ensures Get(Decoded(BooleansCleaned(row, Booleans)), "dhcp", NoneV) == Str("0.0.0.0")
  {
    DhcpApart();
  }

  /** An unset DHCP server, 0.0.0.0, does not reach the record. */
  lemma UnsetDhcpDropped(td: TableData, host: Host, idx: string)
    requires Get(Merged(td, idx), "dhcp", NoneV) == Str("0.0.0.0")
    ensures "dhcp" !in WlanData(td, host, idx)
  {
    DhcpApart();
    DerivedKeysAre(td, host, idx);
    CleanedDhcp(Merged(td, idx));
  }
}
