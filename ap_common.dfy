/**
 * What the two access point modeler plugins of the WirelessController
 * ZenPack share: the AP group pass, filing an accepted AP under its group,
 * splitting a radio's SNMP index, filing a radio under its AP, and the
 * relationship maps built from the groups, APs and radios.
 */
module ApCommon {
  import opened Options
  import opened PyStrings
  import opened Values
  import opened Folds

  /**
   * An AP group: its attributes and, under `aps`, its access points by name.
   * A group made up, as written, for a name no group row carries has no `aps`.
   */
  datatype Group = Group(data: Row, aps: Option<ODict<Row>>)

  type Groups = ODict<Group>

  /** AP index (dots stripped) to radio index to radio row: `ap_radios`. */
  type Radios = ODict<ODict<Row>>

  /** What the AP pass builds: `ap_groups` and `ap_radios`. */
  datatype ApState = ApState(groups: Groups, radios: Radios)

  function ApsOf(g: Group): ODict<Row> {
    if g.aps.Some? then g.aps.value else EmptyDict()
  }

  function GroupAt(gs: Groups, k: string): Group {
    if k in gs.vals then gs.vals[k] else Group(map[], None)
  }

  function RadiosAt(rs: Radios, k: string): ODict<Row> {
    if k in rs.vals then rs.vals[k] else EmptyDict()
  }

  // ----- AP groups -----

  /** A group row with a title the pattern does not ignore, filed under its title. */
  function GroupEntry(host: Host, groupNames: Regex, anchored: bool, idx: string, row: Row): Option<(string, Group)> {
    var name := Get(row, "title", NoneV);
    if name == NoneV || IgnoredBy(groupNames, PyStr(name), anchored) then None
    else Some((PyStr(name), Group(row["snmpindex" := Str(Strip(idx, '.'))]["id" := Str(host.prepId(PyStr(name)))], Some(EmptyDict()))))
  }

  function GroupStep(host: Host, groupNames: Regex, anchored: bool, t: Table): (Groups, string) -> Groups {
    (gs: Groups, idx: string) =>
      var e := GroupEntry(host, groupNames, anchored, idx, RowAt(t, idx));
      if e.Some? then gs.Put(e.value.0, e.value.1) else gs
  }

  function GroupsOf(host: Host, groupNames: Regex, anchored: bool, t: Table): Groups {
    Fold(t.keys, EmptyDict(), GroupStep(host, groupNames, anchored, t))
  }

  method GroupPass(host: Host, groupNames: Regex, anchored: bool, t: Table) returns (gs: Groups)
    ensures gs == GroupsOf(host, groupNames, anchored, t)
  {
    gs := EmptyDict();
    for i := 0 to |t.keys|
      invariant gs == Fold(t.keys[..i], EmptyDict(), GroupStep(host, groupNames, anchored, t))
    {
      FoldStep(t.keys, i, EmptyDict(), GroupStep(host, groupNames, anchored, t));
      var idx := t.keys[i];
      var row := RowAt(t, idx);
      var name := Get(row, "title", NoneV);
      if name == NoneV || IgnoredBy(groupNames, PyStr(name), anchored) {
        continue;
      }
      row := row["snmpindex" := Str(Strip(idx, '.'))]["id" := Str(host.prepId(PyStr(name)))];
      gs := gs.Put(PyStr(name), Group(row, Some(EmptyDict())));
    }
    assert t.keys[..|t.keys|] == t.keys;
  }

  /** A group row is kept exactly when it has a title the pattern does not ignore. */
  lemma GroupEntryIff(host: Host, groupNames: Regex, anchored: bool, idx: string, row: Row)
    ensures GroupEntry(host, groupNames, anchored, idx, row).Some? <==>
      "title" in row && row["title"] != NoneV && !IgnoredBy(groupNames, PyStr(row["title"]), anchored)
  {
  }

  /** The title under which a group row is kept, if it is. */
  function KeptTitle(host: Host, groupNames: Regex, anchored: bool, t: Table, idx: string): Option<string> {
    var e := GroupEntry(host, groupNames, anchored, idx, RowAt(t, idx));
    if e.Some? then Some(e.value.0) else None
  }

  /** Every group of the group pass is valid, has the id prepId(title) and no access point yet. */
  lemma {:induction false} GroupsOfFresh(host: Host, groupNames: Regex, anchored: bool, t: Table, keys: seq<string>)
    ensures var gs := Fold(keys, EmptyDict(), GroupStep(host, groupNames, anchored, t));
      && gs.Valid()
      && forall k :: k in gs.vals ==>
           gs.vals[k].aps == Some(EmptyDict()) && "id" in gs.vals[k].data && gs.vals[k].data["id"] == Str(host.prepId(k))
  {
    if keys != [] {
      GroupsOfFresh(host, groupNames, anchored, t, keys[..|keys| - 1]);
    }
  }

  /** One step of the group pass adds the row's title, if the row is kept. */
  lemma GroupStepNames(host: Host, groupNames: Regex, anchored: bool, t: Table, gs: Groups, idx: string, k: string)
    ensures k in GroupStep(host, groupNames, anchored, t)(gs, idx).vals <==>
      k in gs.vals || KeptTitle(host, groupNames, anchored, t, idx) == Some(k)
  {
  }

  /** A fold whose step adds the key `kept` names, if any, holds exactly the keys named along the way. */
  lemma {:induction false} FoldNames(keys: seq<string>, f: (Groups, string) -> Groups, kept: string -> Option<string>, k: string)
    requires forall gs, idx :: k in f(gs, idx).vals <==> k in gs.vals || kept(idx) == Some(k)
    ensures k in Fold(keys, EmptyDict(), f).vals <==> exists i :: 0 <= i < |keys| && kept(keys[i]) == Some(k)
  {
    if keys != [] {
      var init := keys[..|keys| - 1];
      FoldNames(init, f, kept, k);
      if exists i :: 0 <= i < |init| && kept(init[i]) == Some(k) {
        var i :| 0 <= i < |init| && kept(init[i]) == Some(k);
        assert keys[i] == init[i];
      }
      if exists i :: 0 <= i < |keys| && kept(keys[i]) == Some(k) {
        var i :| 0 <= i < |keys| && kept(keys[i]) == Some(k);
        if i < |init| {
          assert init[i] == keys[i];
        }
      }
    }
  }

  function KeptOf(host: Host, groupNames: Regex, anchored: bool, t: Table): string -> Option<string> {
    idx => KeptTitle(host, groupNames, anchored, t, idx)
  }

  /** After the group pass the groups are exactly the titles of the kept rows. */
  lemma GroupsOfNames(host: Host, groupNames: Regex, anchored: bool, t: Table, k: string)
    ensures k in GroupsOf(host, groupNames, anchored, t).vals <==>
      exists i :: 0 <= i < |t.keys| && KeptTitle(host, groupNames, anchored, t, t.keys[i]) == Some(k)
  {
    forall gs, idx ensures k in GroupStep(host, groupNames, anchored, t)(gs, idx).vals <==>
      k in gs.vals || KeptOf(host, groupNames, anchored, t)(idx) == Some(k)
    {
      GroupStepNames(host, groupNames, anchored, t, gs, idx, k);
    }
    FoldNames(t.keys, GroupStep(host, groupNames, anchored, t), KeptOf(host, groupNames, anchored, t), k);
  }

  /** A group the searching filter keeps is kept by the anchored filter too: only a match at the start ignores it there. */
  lemma SearchKeepsFewer(host: Host, groupNames: Regex, t: Table, idx: string, k: string)
    requires KeptTitle(host, groupNames, false, t, idx) == Some(k)
    ensures KeptTitle(host, groupNames, true, t, idx) == Some(k)
  {
    var row := RowAt(t, idx);
    var name := Get(row, "title", NoneV);
    if IgnoredBy(groupNames, PyStr(name), true) {
      MatchImpliesSearch(groupNames, PyStr(name));
    }
  }

  // ----- the AP filters -----

  /** `model in ignore_model_list`: only a text model can equal a listed name. */
  predicate ModelIgnored(model: Value, models: seq<string>) {
    model.Str? && model.s in models
  }

  // ----- filing an accepted AP -----

  /** The record made for a group name no group row carries: its id and title only. */
  function SyntheticGroup(host: Host, group: Value): Row {
    map["id" := Str(host.prepId(PyStr(group))), "title" := group]
  }

  /**
   * `ap_groups[group]['access_points'][name] = row` as written: a group made
   * up for an unknown name has no `access_points`, so the write raises.
   */
  function PlaceAsWritten(gs: Groups, host: Host, group: Value, name: string, row: Row): Outcome<Groups> {
    var g := PyStr(group);
    var gs' := if g in gs.vals then gs else gs.Put(g, Group(SyntheticGroup(host, group), None));
    var entry := GroupAt(gs', g);
    if entry.aps.None? then Raised(KeyError("access_points"))
    else Done(gs'.Put(g, Group(entry.data, Some(entry.aps.value.Put(name, row)))))
  }

  /** Any AP naming a group the group table does not list makes the plugin raise. */
  lemma UnknownGroupRaises(gs: Groups, host: Host, group: Value, name: string, row: Row)
    requires PyStr(group) !in gs.vals
    ensures PlaceAsWritten(gs, host, group, name, row) == Raised(KeyError("access_points"))
  {
  }

  /** The filing with the made-up group starting with no access points, as the group pass does. */
  function Place(gs: Groups, host: Host, group: Value, name: string, row: Row): Groups {
    var g := PyStr(group);
    var entry := if g in gs.vals then gs.vals[g] else Group(SyntheticGroup(host, group), Some(EmptyDict()));
    gs.Put(g, Group(entry.data, Some(ApsOf(entry).Put(name, row))))
  }

  /** The AP is filed under its group by name; an unknown group is added last; no other group changes. */
  lemma PlaceRules(gs: Groups, host: Host, group: Value, name: string, row: Row)
    ensures var r := Place(gs, host, group, name, row);
      var g := PyStr(group);
      && g in r.vals && r.vals[g].aps.Some?
      && name in r.vals[g].aps.value.vals && r.vals[g].aps.value.vals[name] == row
      && (g !in gs.vals ==> r.vals[g].data == SyntheticGroup(host, group) && r.keys == gs.keys + [g])
      && (g in gs.vals ==> r.vals[g].data == gs.vals[g].data && r.keys == gs.keys)
      && (forall k :: k in gs.vals && k != g ==> k in r.vals && r.vals[k] == gs.vals[k])
      && (gs.Valid() ==> r.Valid())
  {
  }

  /** Where the filing as written succeeds, it is the corrected one. */
  lemma PlaceAgrees(gs: Groups, host: Host, group: Value, name: string, row: Row)
    requires PlaceAsWritten(gs, host, group, name, row).Done?
    ensures PlaceAsWritten(gs, host, group, name, row).value == Place(gs, host, group, name, row)
  {
  }

  /** An accepted AP is filed under its group, and an empty radio table is opened for its index. */
  function Accepted(st: ApState, host: Host, group: Value, name: string, idx: string, row: Row): ApState {
    ApState(Place(st.groups, host, group, name, row), st.radios.Put(Strip(idx, '.'), EmptyDict()))
  }

  // ----- the AP pass -----

  /**
   * One row of the AP pass, given the plugin's filter `skip` (which may
   * raise) and its row cleaner `clean`: a skipped AP changes nothing, a kept
   * one is cleaned and filed under the group its row names, by its title.
   */
  function ApFiling(t: Table, host: Host, skip: Row -> Outcome<bool>, clean: (string, Row) -> Outcome<Row>): (ApState, string) -> Outcome<ApState> {
    (st: ApState, idx: string) =>
      var row := RowAt(t, idx);
      match skip(row)
      case Raised(e) => Raised(e)
      case Done(skipped) =>
        if skipped then Done(st)
        else
          match clean(idx, row)
          case Raised(e) => Raised(e)
          case Done(r) => Done(Accepted(st, host, Get(row, "group", Str("default-group")), PyStr(Get(row, "title", NoneV)), idx, r))
  }

  /**
   * A skipped AP changes nothing; a kept one is filed under its group by
   * name, with an empty radio table under its stripped index, and no other
   * group changes; an exception of the filter or the cleaner ends the pass.
   */
  lemma ApFilingRules(t: Table, host: Host, skip: Row -> Outcome<bool>, clean: (string, Row) -> Outcome<Row>, st: ApState, idx: string)
    ensures var row := RowAt(t, idx);
      var out := ApFiling(t, host, skip, clean)(st, idx);
      && (skip(row).Raised? ==> out == Raised(skip(row).error))
      && (skip(row) == Done(true) ==> out == Done(st))
      && (skip(row) == Done(false) && clean(idx, row).Raised? ==> out == Raised(clean(idx, row).error))
      && (skip(row) == Done(false) && clean(idx, row).Done? ==>
            var g := PyStr(Get(row, "group", Str("default-group")));
            var name := PyStr(Get(row, "title", NoneV));
            && out.Done?
            && g in out.value.groups.vals && out.value.groups.vals[g].aps.Some?
            && name in out.value.groups.vals[g].aps.value.vals
            && out.value.groups.vals[g].aps.value.vals[name] == clean(idx, row).value
            && Strip(idx, '.') in out.value.radios.vals && out.value.radios.vals[Strip(idx, '.')] == EmptyDict()
            && forall k :: k in st.groups.vals && k != g ==> k in out.value.groups.vals && out.value.groups.vals[k] == st.groups.vals[k])
  {
    var row := RowAt(t, idx);
    if skip(row) == Done(false) && clean(idx, row).Done? {
      PlaceRules(st.groups, host, Get(row, "group", Str("default-group")), PyStr(Get(row, "title", NoneV)), clean(idx, row).value);
    }
  }

  /** What the AP pass keeps of its start: every group and its attributes, the order of the groups, empty radio tables, validity. */
  ghost predicate KeepsGroups(init: ApState, st: ApState) {
    && (forall k :: k in init.groups.vals ==> k in st.groups.vals && st.groups.vals[k].data == init.groups.vals[k].data)
    && |init.groups.keys| <= |st.groups.keys| && st.groups.keys[..|init.groups.keys|] == init.groups.keys
    && (init.groups.Valid() ==> st.groups.Valid())
    && ((forall k :: k in init.radios.vals ==> init.radios.vals[k] == EmptyDict()) ==>
          forall k :: k in st.radios.vals ==> st.radios.vals[k] == EmptyDict())
  }

  /** One AP step keeps the groups it starts with. */
  lemma ApFilingKeeps(t: Table, host: Host, skip: Row -> Outcome<bool>, clean: (string, Row) -> Outcome<Row>, st: ApState, idx: string)
    requires ApFiling(t, host, skip, clean)(st, idx).Done?
    ensures KeepsGroups(st, ApFiling(t, host, skip, clean)(st, idx).value)
  {
    var row := RowAt(t, idx);
    if skip(row) == Done(false) {
      PlaceRules(st.groups, host, Get(row, "group", Str("default-group")), PyStr(Get(row, "title", NoneV)), clean(idx, row).value);
    }
  }

  /** The AP pass only adds: the groups it starts with stay, in order and with their attributes, and every radio table is empty. */
  lemma {:induction false} ApPassKeepsGroups(t: Table, host: Host, skip: Row -> Outcome<bool>, clean: (string, Row) -> Outcome<Row>,
                                             keys: seq<string>, init: ApState, st: ApState)
    requires TryFold(keys, init, ApFiling(t, host, skip, clean)) == Done(st)
    ensures KeepsGroups(init, st)
  {
    if keys != [] {
      var prev := TryFold(keys[..|keys| - 1], init, ApFiling(t, host, skip, clean));
      ApPassKeepsGroups(t, host, skip, clean, keys[..|keys| - 1], init, prev.value);
      ApFilingKeeps(t, host, skip, clean, prev.value, keys[|keys| - 1]);
      var n := |init.groups.keys|;
      assert st.groups.keys[..|prev.value.groups.keys|][..n] == st.groups.keys[..n];
    }
  }

  // ----- the parts of an AP row both plugins clean -----

  /** The MAC address columns, converted with asmac. */
  const Macs: seq<string> := ["radioMac", "mac"]

  function Asmac(host: Host): Value -> Value {
    v => Str(host.asmac(v))
  }

  /** The loop over the MAC address columns. */
  method ConvertMacs(r: Row, host: Host) returns (out: Row)
    ensures out == ColumnsMapped(r, Macs, Asmac(host))
  {
    out := MapColumns(r, Macs, Asmac(host));
  }

  /** A non-empty model has the spaces at its ends stripped. */
  function ModelStripped(r: Row, model: Value): Row
    requires Truthy(model) ==> "model" in r
  {
    if Truthy(model) then r["model" := StripValue(r["model"], ' ')] else r
  }

  /**
   * The CDP neighbour at `<index>.1`, merged into the row, with its address
   * converted with asip when the address type is 1 (a type of 1 without an
   * address raises).
   */
  function CdpJoined(r: Row, cdp: Table, idx: string, host: Host): Outcome<Row> {
    var cdpIdx := idx + ".1";
    if cdpIdx in cdp.vals then
      var entry := cdp.vals[cdpIdx];
      if IsOne(Get(entry, "neighborIpType", Str(""))) then
        if "neighborIp" in entry then Done(Update(r, entry["neighborIp" := Str(host.asip(entry["neighborIp"]))]))
        else Raised(KeyError("neighborIp"))
      else Done(Update(r, entry))
    else Done(r)
  }

  method JoinCdp(r: Row, cdp: Table, idx: string, host: Host) returns (out: Outcome<Row>)
    ensures out == CdpJoined(r, cdp, idx, host)
  {
    var cdpIdx := idx + ".1";
    if cdpIdx !in cdp.vals {
      return Done(r);
    }
    var entry := cdp.vals[cdpIdx];
    if IsOne(Get(entry, "neighborIpType", Str(""))) {
      if "neighborIp" !in entry {
        return Raised(KeyError("neighborIp"));
      }
      entry := entry["neighborIp" := Str(host.asip(entry["neighborIp"]))];
    }
    out := Done(Update(r, entry));
  }

  /** The neighbour's columns join the row, its address in dotted form when typed 1. */
  lemma CdpJoinedRules(r: Row, cdp: Table, idx: string, host: Host)
    ensures idx + ".1" !in cdp.vals ==> CdpJoined(r, cdp, idx, host) == Done(r)
    ensures idx + ".1" in cdp.vals && CdpJoined(r, cdp, idx, host).Done? ==>
      var entry := cdp.vals[idx + ".1"];
      var out := CdpJoined(r, cdp, idx, host).value;
      && out.Keys == r.Keys + entry.Keys
      && (forall k :: k in entry && k != "neighborIp" ==> out[k] == entry[k])
      && ("neighborIp" in entry ==>
            out["neighborIp"] == (if IsOne(Get(entry, "neighborIpType", Str(""))) then Str(host.asip(entry["neighborIp"])) else entry["neighborIp"]))
  {
  }

  /** The stripped SNMP index and the id prepId(name). */
  function Identified(r: Row, idx: string, name: Value, host: Host): Row {
    r["snmpindex" := Str(Strip(idx, '.'))]["id" := Str(host.prepId(PyStr(name)))]
  }

  // ----- radios -----

  /** True for 1 and False for 2: `enabled`, `latency` and `11n`. */
  const EnabledCodes: map<int, Value> := map[1 := Bool(true), 2 := Bool(false)]

  /** The radio columns both plugins translate. */
  const BandCodes: map<int, Value> := map[1 := Str("2.4 GHz"), 2 := Str("5 GHz")]
  const DiversityCodes: map<int, Value> := map[0 := Str("Connector A"), 1 := Str("Connector B"), 255 := Str("Enabled")]
  const AntennaModeCodes: map<int, Value> := map[1 := Str("Sector A"), 2 := Str("Sector B"), 3 := Str("Omnidirectional"), 99 := Str("Not Applicable")]
  const AntennaCodes: map<int, Value> := map[1 := Str("Internal"), 2 := Str("External")]
  const AssignmentCodes: map<int, Value> := map[1 := Str("Automatic"), 2 := Str("Customized")]


  /**
   * A radio's AP index is its SNMP index without the last component, and its
   * radio index what is left once the AP index is removed from the text.
   */
  function RadioIndexes(idx: string): (string, string) {
    var parts := Split(idx, '.');
    var apIdx := Strip(Join(parts[..|parts| - 1], '.'), '.');
    (apIdx, Strip(Replace(idx, apIdx, ""), '.'))
  }

  lemma ReplaceSkipsHead(c: char, s: string, pat: string)
    requires pat != [] && pat[0] != c
    ensures Replace([c] + s, pat, "") == [c] + Replace(s, pat, "")
  {
    var s' := [c] + s;
    assert s'[1..] == s;
    if |s'| >= |pat| {
      assert s'[..|pat|][0] == c;
    }
  }

  lemma ReplaceDropsHead(pat: string, s: string)
    requires pat != []
    ensures Replace(pat + s, pat, "") == Replace(s, pat, "")
  {
    assert (pat + s)[..|pat|] == pat;
    assert (pat + s)[|pat|..] == s;
  }

  /** `.<ap>.<slot>` splits into an empty piece, the pieces of the AP part and the slot. */
  lemma SplitDotted(a: string, r: string)
    requires '.' !in r
    ensures Split("." + a + "." + r, '.') == [""] + Split(a, '.') + [r]
  {
    assert "." + a + "." + r == [] + ['.'] + (a + ['.'] + r);
    SplitCons([], a + ['.'] + r, '.');
    SplitConcat(a, r, '.');
    SplitNoSep(r, '.');
  }

  /** Joining an empty piece and the pieces of `a` gives `.a`. */
  lemma JoinDotted(a: string)
    ensures Join([""] + Split(a, '.'), '.') == "." + a
  {
    JoinSplit(a, '.');
    var ps := Split(a, '.');
    assert ([""] + ps)[1..] == ps;
  }

  /** The AP part of `.<ap>.<slot>` is everything before the last dot, with the leading dot stripped. */
  lemma ApIndexOf(a: string, r: string)
    requires a != [] && a[0] != '.' && a[|a| - 1] != '.' && '.' !in r
    ensures var parts := Split("." + a + "." + r, '.');
      Strip(Join(parts[..|parts| - 1], '.'), '.') == a
  {
    SplitDotted(a, r);
    var parts := Split("." + a + "." + r, '.');
    assert parts[..|parts| - 1] == [""] + Split(a, '.');
    JoinDotted(a);
    StripLeadingDot(a);
  }

  /** Stripping dots from `.a`, where `a` neither starts nor ends with one, gives `a`. */
  lemma StripLeadingDot(a: string)
    requires a != [] && a[0] != '.' && a[|a| - 1] != '.'
    ensures Strip("." + a, '.') == a
  {
    assert ("." + a)[1..] == a;
    LStripClean(a, '.');
    assert LStrip("." + a, '.') == a;
  }

  /** A pattern that does not start with a dot and does not occur in `r` does not occur in `.r` either. */
  lemma NotInDotted(r: string, a: string)
    requires a != [] && a[0] != '.' && !Contains(r, a)
    ensures !Contains("." + r, a)
  {
    forall i | 0 <= i <= |"." + r| ensures !OccursAt("." + r, a, i) {
      if i == 0 {
        if |a| <= |"." + r| {
          assert ("." + r)[0..|a|][0] == '.';
        }
      } else {
        assert !OccursAt(r, a, i - 1);
        if i + |a| <= |"." + r| {
          assert ("." + r)[i..i + |a|] == r[i - 1..i - 1 + |a|];
        }
      }
    }
  }

  /** Removing the AP part from `.<ap>.<slot>` leaves `..<slot>`. */
  lemma RemoveApIndex(a: string, r: string)
    requires a != [] && a[0] != '.' && !Contains(r, a)
    ensures Replace("." + a + "." + r, a, "") == "." + "." + r
  {
    var dr := "." + r;
    var tail := a + dr;
    assert "." + a + "." + r == ['.'] + tail;
    ReplaceSkipsHead('.', tail, a);
    ReplaceDropsHead(a, dr);
    NotInDotted(r, a);
    ReplaceAbsent(dr, a, "");
  }

  /** Stripping the dots off `..<slot>` leaves the slot. */
  lemma StripDots(r: string)
    requires r != [] && '.' !in r
    ensures Strip("." + "." + r, '.') == r
  {
    assert ("." + "." + r)[1..] == "." + r;
    assert ("." + r)[1..] == r;
    LStripClean(r, '.');
  }

  /**
   * For an index `.<ap>.<slot>` whose AP part has no dot at either end and
   * does not occur in the slot, the split gives back the AP part and the slot.
   */
  lemma RadioIndexSplit(a: string, r: string)
    requires a != [] && a[0] != '.' && a[|a| - 1] != '.'
    requires r != [] && '.' !in r && !Contains(r, a)
    ensures RadioIndexes("." + a + "." + r) == (a, r)
  {
    var idx := "." + a + "." + r;
    var parts := Split(idx, '.');
    ApIndexOf(a, r);
    assert Strip(Join(parts[..|parts| - 1], '.'), '.') == a;
    RemoveApIndex(a, r);
    StripDots(r);
  }

  /** `ap_radios[ap_index][radio_index] = row` as written: a radio of an AP that was not kept raises. */
  function RadioPlaceAsWritten(rs: Radios, apIdx: string, radioIdx: string, row: Row): Outcome<Radios> {
    if apIdx in rs.vals then Done(rs.Put(apIdx, rs.vals[apIdx].Put(radioIdx, row)))
    else Raised(KeyError(apIdx))
  }

  /** The filing with the radios of an AP that was not kept left out. */
  function RadioPlace(rs: Radios, apIdx: string, radioIdx: string, row: Row): (r: Radios)
    ensures apIdx !in rs.vals ==> r == rs
    ensures apIdx in rs.vals ==> r.keys == rs.keys && r.vals.Keys == rs.vals.Keys
    ensures apIdx in rs.vals ==> r.vals[apIdx].vals == rs.vals[apIdx].vals[radioIdx := row]
    ensures forall k :: k in rs.vals && k != apIdx ==> r.vals[k] == rs.vals[k]
  {
    if apIdx in rs.vals then rs.Put(apIdx, rs.vals[apIdx].Put(radioIdx, row)) else rs
  }

  /** A radio whose AP was skipped makes the code as written raise, and the two agree otherwise. */
  lemma RadioPlaceAgrees(rs: Radios, apIdx: string, radioIdx: string, row: Row)
    ensures RadioPlaceAsWritten(rs, apIdx, radioIdx, row).Raised? <==> apIdx !in rs.vals
    ensures RadioPlaceAsWritten(rs, apIdx, radioIdx, row).Done? ==>
      RadioPlaceAsWritten(rs, apIdx, radioIdx, row).value == RadioPlace(rs, apIdx, radioIdx, row)
  {
  }

  // ----- the relationship maps -----

  const GroupModname := "ZenPacks.daviswr.WirelessController.APGroup"
  const ApModname := "ZenPacks.daviswr.WirelessController.CiscoAP"
  const RadioModname := "ZenPacks.daviswr.WirelessController.CiscoAPRadio"

  function GroupMap(gs: Groups): string -> ObjMap {
    g => ObjMap(GroupModname, "", GroupAt(gs, g).data)
  }

  function ApMap(aps: ODict<Row>): string -> ObjMap {
    a => ObjMap(ApModname, "", RowAt(aps, a))
  }

  /** The `accessPoints` relationship of group `g`. */
  function ApRel(host: Host, gs: Groups, g: string): RelMap {
    var aps := ApsOf(GroupAt(gs, g));
    RelMap("apGroups/" + host.prepId(g), "accessPoints", "ZenPacks.daviswr.WirelessController.AccessPoint", MapSeq(aps.keys, ApMap(aps)))
  }

  /** A radio record: id prepId(`<ap id>_<radio index>`), title `<ap> <word> <radio index>`. */
  function RadioMap(host: Host, word: string, apName: string, rs: ODict<Row>): string -> ObjMap {
    k => ObjMap(RadioModname, "",
      RowAt(rs, k)["id" := Str(host.prepId(host.prepId(apName) + "_" + k))]["title" := Str(apName + " " + word + " " + k)])
  }

  /** The radios filed under an AP's SNMP index. */
  function RadiosOfAp(radios: Radios, ap: Row): ODict<Row> {
    RadiosAt(radios, PyStr(Get(ap, "snmpindex", NoneV)))
  }

  /** The `apRadios` relationship of AP `a` of group `g`. */
  function RadioRel(host: Host, word: string, radios: Radios, g: string, aps: ODict<Row>, a: string): RelMap {
    var rs := RadiosOfAp(radios, RowAt(aps, a));
    RelMap("apGroups/" + host.prepId(g) + "/accessPoints/" + host.prepId(a), "apRadios",
      "ZenPacks.daviswr.WirelessController.APRadio", MapSeq(rs.keys, RadioMap(host, word, a, rs)))
  }

  function RadioRelOf(host: Host, word: string, radios: Radios, g: string, aps: ODict<Row>): string -> RelMap {
    a => RadioRel(host, word, radios, g, aps, a)
  }

  /** One `apRadios` relationship per AP of group `g`, in order. */
  function GroupRadioRels(host: Host, word: string, st: ApState, g: string): seq<RelMap> {
    var aps := ApsOf(GroupAt(st.groups, g));
    MapSeq(aps.keys, RadioRelOf(host, word, st.radios, g, aps))
  }

  function ApRelOf(host: Host, gs: Groups): string -> RelMap {
    g => ApRel(host, gs, g)
  }

  function GroupRadioRelsOf(host: Host, word: string, st: ApState): string -> seq<RelMap> {
    g => GroupRadioRels(host, word, st, g)
  }

  /** What `process` returns: the groups, then one AP relationship per group, then one radio relationship per AP. */
  function Relations(st: ApState, host: Host, word: string): seq<RelMap> {
    [RelMap("", "apGroups", GroupModname, MapSeq(st.groups.keys, GroupMap(st.groups)))]
      + MapSeq(st.groups.keys, ApRelOf(host, st.groups))
      + Flatten(MapSeq(st.groups.keys, GroupRadioRelsOf(host, word, st)))
  }

  method BuildRadioRel(host: Host, word: string, radios: Radios, g: string, aps: ODict<Row>, a: string) returns (rel: RelMap)
    ensures rel == RadioRel(host, word, radios, g, aps, a)
  {
    var rs := RadiosOfAp(radios, RowAt(aps, a));
    var maps: seq<ObjMap> := [];
    for i := 0 to |rs.keys|
      invariant maps == MapSeq(rs.keys[..i], RadioMap(host, word, a, rs))
    {
      MapSeqStep(rs.keys, i, RadioMap(host, word, a, rs));
      var k := rs.keys[i];
      var radio := RowAt(rs, k);
      radio := radio["id" := Str(host.prepId(host.prepId(a) + "_" + k))];
      radio := radio["title" := Str(a + " " + word + " " + k)];
      maps := maps + [ObjMap(RadioModname, "", radio)];
    }
    assert rs.keys[..|rs.keys|] == rs.keys;
    rel := RelMap("apGroups/" + host.prepId(g) + "/accessPoints/" + host.prepId(a), "apRadios",
      "ZenPacks.daviswr.WirelessController.APRadio", maps);
  }

  method BuildGroupRels(host: Host, word: string, st: ApState, g: string) returns (apRel: RelMap, radioRels: seq<RelMap>)
    ensures apRel == ApRel(host, st.groups, g)
    ensures radioRels == GroupRadioRels(host, word, st, g)
  {
    var aps := ApsOf(GroupAt(st.groups, g));
    var apMaps: seq<ObjMap> := [];
    radioRels := [];
    for i := 0 to |aps.keys|
      invariant apMaps == MapSeq(aps.keys[..i], ApMap(aps))
      invariant radioRels == MapSeq(aps.keys[..i], RadioRelOf(host, word, st.radios, g, aps))
    {
      MapSeqStep(aps.keys, i, ApMap(aps));
      MapSeqStep(aps.keys, i, RadioRelOf(host, word, st.radios, g, aps));
      var a := aps.keys[i];
      apMaps := apMaps + [ObjMap(ApModname, "", RowAt(aps, a))];
      var rel := BuildRadioRel(host, word, st.radios, g, aps, a);
      radioRels := radioRels + [rel];
    }
    assert aps.keys[..|aps.keys|] == aps.keys;
    apRel := RelMap("apGroups/" + host.prepId(g), "accessPoints", "ZenPacks.daviswr.WirelessController.AccessPoint", apMaps);
  }

  method BuildRelations(st: ApState, host: Host, word: string) returns (maps: seq<RelMap>)
    ensures maps == Relations(st, host, word)
  {
    var keys := st.groups.keys;
    var groupMaps: seq<ObjMap> := [];
    var apRels: seq<RelMap> := [];
    var radioRels: seq<RelMap> := [];
    for i := 0 to |keys|
      invariant groupMaps == MapSeq(keys[..i], GroupMap(st.groups))
      invariant apRels == MapSeq(keys[..i], ApRelOf(host, st.groups))
      invariant radioRels == Flatten(MapSeq(keys[..i], GroupRadioRelsOf(host, word, st)))
    {
      MapSeqStep(keys, i, GroupMap(st.groups));
      MapSeqStep(keys, i, ApRelOf(host, st.groups));
      MapSeqStep(keys, i, GroupRadioRelsOf(host, word, st));
      FlattenSnoc(MapSeq(keys[..i], GroupRadioRelsOf(host, word, st)), GroupRadioRels(host, word, st, keys[i]));
      var g := keys[i];
      groupMaps := groupMaps + [ObjMap(GroupModname, "", GroupAt(st.groups, g).data)];
      var apRel, rels := BuildGroupRels(host, word, st, g);
      apRels := apRels + [apRel];
      radioRels := radioRels + rels;
    }
    assert keys[..|keys|] == keys;
    maps := [RelMap("", "apGroups", GroupModname, groupMaps)] + apRels + radioRels;
  }

  /** The group relationship comes first, then the AP relationship of each group in order, then the radio relationships. */
  lemma RelationsOrder(st: ApState, host: Host, word: string)
    ensures var rels := Relations(st, host, word);
      var n := |st.groups.keys|;
      && |rels| >= 1 + n
      && rels[0].relname == "apGroups" && |rels[0].maps| == n
      && (forall i :: 0 <= i < n ==> rels[0].maps[i].data == GroupAt(st.groups, st.groups.keys[i]).data)
      && (forall i :: 0 <= i < n ==>
            (rels[1 + i] == ApRel(host, st.groups, st.groups.keys[i])
             && rels[1 + i].compname == "apGroups/" + host.prepId(st.groups.keys[i])))
      && rels[1 + n..] == Flatten(MapSeq(st.groups.keys, GroupRadioRelsOf(host, word, st)))
  {
  }

  /** Radio relationships come only from an AP of a group, one for each. */
  lemma RadioRelsFromAps(st: ApState, host: Host, word: string, rel: RelMap)
    requires rel in Flatten(MapSeq(st.groups.keys, GroupRadioRelsOf(host, word, st)))
    ensures exists i, j ::
      (0 <= i < |st.groups.keys| && 0 <= j < |ApsOf(GroupAt(st.groups, st.groups.keys[i])).keys|
       && rel == RadioRel(host, word, st.radios, st.groups.keys[i], ApsOf(GroupAt(st.groups, st.groups.keys[i])),
                          ApsOf(GroupAt(st.groups, st.groups.keys[i])).keys[j]))
  {
    var ss := MapSeq(st.groups.keys, GroupRadioRelsOf(host, word, st));
    FlattenMember(ss, rel);
    var i :| 0 <= i < |ss| && rel in ss[i];
    var g := st.groups.keys[i];
    var aps := ApsOf(GroupAt(st.groups, g));
    var j :| 0 <= j < |aps.keys| && GroupRadioRels(host, word, st, g)[j] == rel;
  }

  /** Each radio of an AP gets the id prepId(`<ap id>_<index>`) and the title `<ap> <word> <index>`. */
  lemma RadioRecords(host: Host, word: string, radios: Radios, g: string, aps: ODict<Row>, a: string)
    ensures var rel := RadioRel(host, word, radios, g, aps, a);
      var rs := RadiosOfAp(radios, RowAt(aps, a));
      && rel.compname == "apGroups/" + host.prepId(g) + "/accessPoints/" + host.prepId(a)
      && |rel.maps| == |rs.keys|
      && forall j :: 0 <= j < |rs.keys| ==>
           (&& rel.maps[j].data["title"] == Str(a + " " + word + " " + rs.keys[j])
            && rel.maps[j].data["id"] == Str(host.prepId(host.prepId(a) + "_" + rs.keys[j]))
            && forall c :: c in RowAt(rs, rs.keys[j]) && c != "id" && c != "title" ==> rel.maps[j].data[c] == RowAt(rs, rs.keys[j])[c])
  {
  }
}
