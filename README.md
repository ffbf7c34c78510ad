# AireOS modeler plugins, modelled in Dafny

The ZenPacks `daviswr.WirelessController` and `daviswr.Cisco.WLC` decide what Zenoss stores about
Cisco AireOS wireless LAN controllers. Their modeler plugins turn SNMP tables into records. This
project models the `process` step of each Cisco plugin: rows keyed by SNMP index go in, and
ObjectMaps and RelationshipMaps come out. Along the way each plugin:

- drops rows its ignore settings name: a name pattern, a model, VLAN or type list, or an ignored subnet;
- merges rows that several tables share by index;
- translates integer codes into labels;
- derives titles, ids, security labels, expiration texts and `network/bits` strings;
- collects ordered server lists.

Python 2 values are a `Value` datatype (`Values.Value`). A row is a `map<string, Value>`. A table
is an `ODict`: its SNMP indexes in iteration order, plus a map to the rows. Each table plugin's
`process` is a `method` that loops over those indexes. It is proved equal to a specification function
(`Result`, or a fold of a per-row step). The three device plugins (`CiscoController`,
`ControllerDevice`, `ControllerDeviceLegacy`) read scalar values and have no loop: their `process`
builds the maps step by step and is proved equal to `Result`. The rules each plugin promises are proved as lemmas about
that function.

An exception Python would raise is modelled as `Raised(error)` of `Outcome`, for example a
`KeyError` from a missing column or an `AttributeError` from calling `lower` on a number. `None`
returns are `Option`s.

Modules:

- **Shared modules**
  - `Options`: the `Option` datatype.
  - `PyStrings`: Python string methods (`lower`, `title`, `find`, `strip`, `replace`, `split`, `join`, `int` and `str` of integers).
  - `Folds`: the loop shapes the plugins share.
  - `Values`: values, rows, tables, records, code translation, regular-expression filters and the host helpers.
  - `Ipv4`: `ipaddr` networks and `ip_in_nets`.
- **Per-plugin modules**
  - `CiscoWlan`: CiscoWLAN.
  - `WlcAaa` / `WirelessAaa`: CiscoControllerAAA, Cisco WLC copy / WirelessController copy.
  - `ApCommon`: what the two AP plugins share.
  - `ControllerAp`: CiscoControllerAP.
  - `CiscoAp`: CiscoAP.
  - `DhcpPool`: CiscoControllerDHCPPool.
  - `CiscoDhcp`: CiscoDHCP.
  - `ControllerVlan`: CiscoControllerVLAN.
  - `ControllerLicense`: CiscoControllerLicense.
  - `DeviceCommon`, `CiscoController`, `ControllerDevice`, `ControllerDeviceLegacy`: the three controller device plugins.
  - `ControllerTemperature` / `ControllerTemperatureLegacy`: the two CiscoControllerTemperature copies.

The older (WirelessController) and newer (Cisco WLC) copies of a plugin differ in small ways. Each
difference is its own lemma. For example:

- `MatchImpliesSearch`: `re.match` against `re.search`.
- `CiscoDhcp.AgreesWithPoolPlugin`: the guarded inline subnet loop.
- `WirelessAaa.PortPresenceTitle`: port presence against `is not None`.
- `ControllerDeviceLegacy.AgreesWithWlcPlugin` and `ControllerTemperatureLegacy.AgreesWithWlcPlugin`.

## Model

Lemmas without a row, such as `ControllerAp.StripStages`, `ControllerAp.Without11n`, `ControllerAp.BandTranslated`,
`ControllerAp.Dot11OfBand`, `ApCommon.FoldNames`, `ControllerDevice.ColumnsApart`, `ApCommon.ReplaceSkipsHead`, `ApCommon.ReplaceDropsHead` and the generic lemmas of `Folds`,
`Values`, `PyStrings` and `Ipv4`, are proof steps of the lemmas listed here.

| member | source | states |
|---|---|---|
| CiscoWlan.DecodeCodes | ZenPacks/daviswr/WirelessController/modeler/plugins/daviswr/snmp/CiscoWLAN.py:258-291 | visiting the coded columns in any order decodes each present one through its map, via ord() for the octet columns, an unknown code becoming None |
| CiscoWlan.BuildWpaMode | ZenPacks/daviswr/WirelessController/modeler/plugins/daviswr/snmp/CiscoWLAN.py:302-314 | the WPA part built step by step is `WPA-<wpa1 type>`, `/WPA2-<wpa2 type>` or both, a shared cipher named once, with no leading '/' |
| CiscoWlan.BuildSecurity | ZenPacks/daviswr/WirelessController/modeler/plugins/daviswr/snmp/CiscoWLAN.py:296-330 | the label built step by step equals the security label of the row |
| CiscoWlan.BuildBase | ZenPacks/daviswr/WirelessController/modeler/plugins/daviswr/snmp/CiscoWLAN.py:296-323 | the key management, WEP and CKIP part of the label built step by step equals the label before its suffixes |
| CiscoWlan.ReplaceWpaCipher | ZenPacks/daviswr/WirelessController/modeler/plugins/daviswr/snmp/CiscoWLAN.py:310-311 | removing `-<cipher>` from `WPA-<cipher>` leaves `WPA` |
| CiscoWlan.WpaPartNamed | ZenPacks/daviswr/WirelessController/modeler/plugins/daviswr/snmp/CiscoWLAN.py:307-308 | WPA on with a cipher gives `WPA-<cipher>` |
| CiscoWlan.WpaModeRawSameCipher | ZenPacks/daviswr/WirelessController/modeler/plugins/daviswr/snmp/CiscoWLAN.py:309-312 | WPA and WPA2 sharing a cipher give `WPA/WPA2-<cipher>` |
| CiscoWlan.SecuritySameCipher | ZenPacks/daviswr/WirelessController/modeler/plugins/daviswr/snmp/CiscoWLAN.py:301-315 | WPA and WPA2 with one cipher are labelled `WPA/WPA2-<cipher> <key management>` |
| CiscoWlan.SecurityTwoCiphers | ZenPacks/daviswr/WirelessController/modeler/plugins/daviswr/snmp/CiscoWLAN.py:301-315 | different ciphers are both named: `WPA-<c1>/WPA2-<c2> <key management>` |
| CiscoWlan.SecurityWpa2Only | ZenPacks/daviswr/WirelessController/modeler/plugins/daviswr/snmp/CiscoWLAN.py:301-315 | WPA2 alone is labelled `WPA2-<cipher> <key management>`, the leading '/' stripped |
| CiscoWlan.SecurityWpaOnly | ZenPacks/daviswr/WirelessController/modeler/plugins/daviswr/snmp/CiscoWLAN.py:301-315 | WPA alone is labelled `WPA-<cipher> <key management>` |
| CiscoWlan.SecurityNoKeyManagement | ZenPacks/daviswr/WirelessController/modeler/plugins/daviswr/snmp/CiscoWLAN.py:317-324 | without key management the label is Open, CKIP, WEP or WEP 802.1x, the later flag winning |
| CiscoWlan.SecuritySuffixes | ZenPacks/daviswr/WirelessController/modeler/plugins/daviswr/snmp/CiscoWLAN.py:326-330 | ` + WebAuth` and then ` + MAC Filter` are appended exactly when those flags are set |
| CiscoWlan.RadiusUpTo | ZenPacks/daviswr/WirelessController/modeler/plugins/daviswr/snmp/CiscoWLAN.py:333-343 | the servers of slots 1..n number at most n |
| CiscoWlan.CollectRadius | ZenPacks/daviswr/WirelessController/modeler/plugins/daviswr/snmp/CiscoWLAN.py:333-343 | the nested slot loop yields the accounting and authentication server lists of slots 1 to 3 |
| CiscoWlan.RadiusMember | ZenPacks/daviswr/WirelessController/modeler/plugins/daviswr/snmp/CiscoWLAN.py:333-343 | a server is listed exactly when some slot up to n names it (not missing, not 'none'), spaces made ':' |
| CiscoWlan.RadiusAllSlots | ZenPacks/daviswr/WirelessController/modeler/plugins/daviswr/snmp/CiscoWLAN.py:333-343 | with all three slots set the list is exactly those three servers, in slot order |
| CiscoWlan.LdapUpTo | ZenPacks/daviswr/WirelessController/modeler/plugins/daviswr/snmp/CiscoWLAN.py:345-359 | the LDAP entries of slots 1..n number at most n |
| CiscoWlan.CollectLdap | ZenPacks/daviswr/WirelessController/modeler/plugins/daviswr/snmp/CiscoWLAN.py:345-359 | the LDAP loop yields the entries of slots 1 to 3 in order |
| CiscoWlan.LdapEntryRules | ZenPacks/daviswr/WirelessController/modeler/plugins/daviswr/snmp/CiscoWLAN.py:350-359 | a slot adds an entry exactly when the server table has the row it names and that row has an address; the entry is the address, through asip for type 1 and as text otherwise, followed by `:<port>` exactly when the row has a port |
| CiscoWlan.LdapMember | ZenPacks/daviswr/WirelessController/modeler/plugins/daviswr/snmp/CiscoWLAN.py:345-359 | an entry is in the LDAP list exactly when some slot up to n gives it |
| CiscoWlan.MergeRow | ZenPacks/daviswr/WirelessController/modeler/plugins/daviswr/snmp/CiscoWLAN.py:235-239 | the row is overwritten by the rows of the same index in the four other tables, in order |
| CiscoWlan.CleanRow | ZenPacks/daviswr/WirelessController/modeler/plugins/daviswr/snmp/CiscoWLAN.py:241-294 | the merged row with booleans cleaned, codes decoded and an unset DHCP server removed |
| CiscoWlan.DeriveAttributes | ZenPacks/daviswr/WirelessController/modeler/plugins/daviswr/snmp/CiscoWLAN.py:361-369 | the added attributes: stripped index, id from the profile or the name, the server lists and the label |
| CiscoWlan.BuildWlan | ZenPacks/daviswr/WirelessController/modeler/plugins/daviswr/snmp/CiscoWLAN.py:235-375 | the ObjectMap of a WLAN that passed the name filter |
| CiscoWlan.ProcessWlan | ZenPacks/daviswr/WirelessController/modeler/plugins/daviswr/snmp/CiscoWLAN.py:220-375 | one pass of the loop: None for a skipped WLAN, else its ObjectMap |
| CiscoWlan.CheckTables | ZenPacks/daviswr/WirelessController/modeler/plugins/daviswr/snmp/CiscoWLAN.py:143-187 | true exactly when the four required tables are all present |
| CiscoWlan.Process | ZenPacks/daviswr/WirelessController/modeler/plugins/daviswr/snmp/CiscoWLAN.py:135-380 | the imperative plugin equals the specification of the result |
| CiscoWlan.ResultNoneIff | ZenPacks/daviswr/WirelessController/modeler/plugins/daviswr/snmp/CiscoWLAN.py:143-207 | the result is None exactly when one of the four required tables is missing; the LDAP tables are optional |
| CiscoWlan.EmittedIff | ZenPacks/daviswr/WirelessController/modeler/plugins/daviswr/snmp/CiscoWLAN.py:220-231 | a WLAN is emitted exactly when it has a title the pattern does not find, whatever the other rows hold |
| CiscoWlan.RecordsAreUnskippedRows | ZenPacks/daviswr/WirelessController/modeler/plugins/daviswr/snmp/CiscoWLAN.py:220-377 | every record comes from one unskipped WLAN row, and every such row gives one |
| CiscoWlan.DerivedKeysAre | ZenPacks/daviswr/WirelessController/modeler/plugins/daviswr/snmp/CiscoWLAN.py:361-369 | the derived attributes are exactly snmpindex, id, ldap, radAcct, radAuth and security |
| CiscoWlan.DataAt | ZenPacks/daviswr/WirelessController/modeler/plugins/daviswr/snmp/CiscoWLAN.py:235-294 | outside the derived attributes and the DHCP column, the record holds the decoded, cleaned merged row |
| CiscoWlan.CleanedBoolean | ZenPacks/daviswr/WirelessController/modeler/plugins/daviswr/snmp/CiscoWLAN.py:254-256 | a present boolean column becomes True exactly when its raw value is 1 |
| CiscoWlan.BooleanColumns | ZenPacks/daviswr/WirelessController/modeler/plugins/daviswr/snmp/CiscoWLAN.py:242-256 | each listed boolean the merged row has reaches the record as True exactly when its raw value is 1 |
| CiscoWlan.CleanedKeyMgmt | ZenPacks/daviswr/WirelessController/modeler/plugins/daviswr/snmp/CiscoWLAN.py:258-291 | a key-management octet decodes through its map by its ordinal |
| CiscoWlan.KeyManagementDecoded | ZenPacks/daviswr/WirelessController/modeler/plugins/daviswr/snmp/CiscoWLAN.py:258-291 | the record holds the decoded key management, an unknown code giving None with no raw fallback |
| CiscoWlan.CleanedDhcp | ZenPacks/daviswr/WirelessController/modeler/plugins/daviswr/snmp/CiscoWLAN.py:293-294 | cleaning the booleans and the codes leaves a DHCP server of 0.0.0.0 as it is, for the removal to see |
| CiscoWlan.UnsetDhcpDropped | ZenPacks/daviswr/WirelessController/modeler/plugins/daviswr/snmp/CiscoWLAN.py:293-294 | a DHCP server of 0.0.0.0 does not reach the record |
| WlcAaa.FormatTitleSplits | ZenPacks/daviswr/Cisco/WLC/modeler/plugins/daviswr/snmp/CiscoControllerAAA.py:326-328 | with a port the title is `<ip>:<port>`: it splits back at the ':' into the address and the port |
| WlcAaa.FormatTitleNoPort | ZenPacks/daviswr/Cisco/WLC/modeler/plugins/daviswr/snmp/CiscoControllerAAA.py:326-328 | with no port (None) the title is the address itself |
| WlcAaa.Finish | ZenPacks/daviswr/Cisco/WLC/modeler/plugins/daviswr/snmp/CiscoControllerAAA.py:179-184 | the in-place clean-up equals the shared finishing of a record |
| WlcAaa.FinishedRules | ZenPacks/daviswr/Cisco/WLC/modeler/plugins/daviswr/snmp/CiscoControllerAAA.py:179-184 | enabled becomes True exactly when it is 1, the id is prepId of the prefix and the title, the index is stripped of dots, and nothing else changes |
| WlcAaa.TitledServer | ZenPacks/daviswr/Cisco/WLC/modeler/plugins/daviswr/snmp/CiscoControllerAAA.py:158-177 | a server that is kept has a title |
| WlcAaa.TitleServer | ZenPacks/daviswr/Cisco/WLC/modeler/plugins/daviswr/snmp/CiscoControllerAAA.py:158-177 | the address handling, step by step, equals its specification |
| WlcAaa.TitledServerRules | ZenPacks/daviswr/Cisco/WLC/modeler/plugins/daviswr/snmp/CiscoControllerAAA.py:158-177 | no address: skipped; a typed-1 address: dotted, skipped in an ignored subnet, else titled by format_title; another address: the fallback title |
| WlcAaa.ProcessLdap | ZenPacks/daviswr/Cisco/WLC/modeler/plugins/daviswr/snmp/CiscoControllerAAA.py:155-190 | one pass of the LDAP loop equals the LDAP record specification |
| WlcAaa.Nets | ZenPacks/daviswr/Cisco/WLC/modeler/plugins/daviswr/snmp/CiscoControllerAAA.py:127-139 | every network kept from the ignore list is a valid CIDR network |
| WlcAaa.ProcessRadius | ZenPacks/daviswr/Cisco/WLC/modeler/plugins/daviswr/snmp/CiscoControllerAAA.py:199-224 | one pass of a RADIUS loop equals the RADIUS record specification |
| WlcAaa.TacKindOfIndex | ZenPacks/daviswr/Cisco/WLC/modeler/plugins/daviswr/snmp/CiscoControllerAAA.py:268-274 | an index whose first component is 1, 2 or 3 names TacAuthn, TacAuthz or TacAcct; any other gives Tacacs |
| WlcAaa.ProcessTacacs | ZenPacks/daviswr/Cisco/WLC/modeler/plugins/daviswr/snmp/CiscoControllerAAA.py:265-321 | one pass of the TACACS+ loop equals the TACACS+ record specification |
| WlcAaa.TacacsFromStep | ZenPacks/daviswr/Cisco/WLC/modeler/plugins/daviswr/snmp/CiscoControllerAAA.py:265-321 | one more index adds its record, if any, at the end of the TACACS+ records |
| WlcAaa.LdapPass | ZenPacks/daviswr/Cisco/WLC/modeler/plugins/daviswr/snmp/CiscoControllerAAA.py:150-190 | the LDAP loop yields the kept LDAP records in table order |
| WlcAaa.RadiusPass | ZenPacks/daviswr/Cisco/WLC/modeler/plugins/daviswr/snmp/CiscoControllerAAA.py:192-256 | each RADIUS loop yields the kept records of its table in order |
| WlcAaa.TacacsPass | ZenPacks/daviswr/Cisco/WLC/modeler/plugins/daviswr/snmp/CiscoControllerAAA.py:258-321 | the TACACS+ loop yields the kept TACACS+ records in order |
| WlcAaa.Process | ZenPacks/daviswr/Cisco/WLC/modeler/plugins/daviswr/snmp/CiscoControllerAAA.py:126-324 | the relationship holds the LDAP, RADIUS authentication, RADIUS accounting and TACACS+ records, in that order |
| WlcAaa.LdapTypeIgnored | ZenPacks/daviswr/Cisco/WLC/modeler/plugins/daviswr/snmp/CiscoControllerAAA.py:152-154 | ignoring the type `ldap` leaves no LDAP record |
| WlcAaa.RadiusTypesIgnored | ZenPacks/daviswr/Cisco/WLC/modeler/plugins/daviswr/snmp/CiscoControllerAAA.py:194-198 | `radius` suppresses both RADIUS tables; `radiusauth` and `radiusacct` each suppress their own |
| WlcAaa.RadiusKindsIndependent | ZenPacks/daviswr/Cisco/WLC/modeler/plugins/daviswr/snmp/CiscoControllerAAA.py:226-231 | the records of one RADIUS table depend on the ignored types only through whether that table is ignored |
| WlcAaa.RadiusSkipIff | ZenPacks/daviswr/Cisco/WLC/modeler/plugins/daviswr/snmp/CiscoControllerAAA.py:201-210 | a RADIUS server is skipped exactly when its address is empty or missing, or lies in an ignored subnet |
| WlcAaa.RadiusRecord | ZenPacks/daviswr/Cisco/WLC/modeler/plugins/daviswr/snmp/CiscoControllerAAA.py:212-218 | an emitted RADIUS record has its kind's class, is titled by format_title, and its id is prepId of the kind's prefix and the title |
| WlcAaa.TacacsKindIgnored | ZenPacks/daviswr/Cisco/WLC/modeler/plugins/daviswr/snmp/CiscoControllerAAA.py:276-281 | a TACACS+ server whose lower-cased kind is an ignored type gives no record |
| WlcAaa.TacacsRecord | ZenPacks/daviswr/Cisco/WLC/modeler/plugins/daviswr/snmp/CiscoControllerAAA.py:305-321 | an emitted TACACS+ record has the class of its kind and an id starting with the lower-cased kind |
| WirelessAaa.ProcessLdap | ZenPacks/daviswr/WirelessController/modeler/plugins/daviswr/snmp/CiscoControllerAAA.py:105-145 | one LDAP row becomes the record the row rules give: dropped in an ignored subnet, raising on an address the subnet test cannot read, titled by address or index otherwise |
| WirelessAaa.Process | ZenPacks/daviswr/WirelessController/modeler/plugins/daviswr/snmp/CiscoControllerAAA.py:77-149 | the relationship holds the records of the LDAP rows in table order, or the first exception a row raises; the loop is proved against the filtered fold of the rows |
| WirelessAaa.TypeIgnored | ZenPacks/daviswr/WirelessController/modeler/plugins/daviswr/snmp/CiscoControllerAAA.py:102-104 | ignoring the type `LDAP` or `ldap` empties the relationship |
| WirelessAaa.AddressRowSkipped | ZenPacks/daviswr/WirelessController/modeler/plugins/daviswr/snmp/CiscoControllerAAA.py:109-123 | a row with an IPv4 address type is dropped exactly when an ignored network contains its converted address |
| WirelessAaa.AddressRowRaises | ZenPacks/daviswr/WirelessController/modeler/plugins/daviswr/snmp/CiscoControllerAAA.py:114-117 | the containment test raises exactly when a subnet is configured and the converted address is not dotted IPv4 |
| WirelessAaa.OtherRowTitled | ZenPacks/daviswr/WirelessController/modeler/plugins/daviswr/snmp/CiscoControllerAAA.py:131-134 | a row without an IPv4 address is kept, titled `LDAP Server` and its index with every dot removed |
| WirelessAaa.RecordRules | ZenPacks/daviswr/WirelessController/modeler/plugins/daviswr/snmp/CiscoControllerAAA.py:136-145 | a record adds exactly the title and the id columns, the id is prepId of `ldap_<title>`, and `enabled` is True exactly when it was 1 |
| WirelessAaa.PortPresenceTitle | ZenPacks/daviswr/WirelessController/modeler/plugins/daviswr/snmp/CiscoControllerAAA.py:126-129 | a port column titles the record `<ip>:<port>` whatever its value, so a port of None gives `<ip>:None`, where the newer plugin gives the bare address |
| ApCommon.GroupPass | ZenPacks/daviswr/WirelessController/modeler/plugins/daviswr/snmp/CiscoControllerAP.py:248-271 | the group loop builds the groups the fold over the group rows defines |
| ApCommon.GroupEntryIff | ZenPacks/daviswr/WirelessController/modeler/plugins/daviswr/snmp/CiscoControllerAP.py:252-261 | a group row is kept exactly when it has a title that the ignore pattern does not match |
| ApCommon.GroupsOfFresh | ZenPacks/daviswr/WirelessController/modeler/plugins/daviswr/snmp/CiscoControllerAP.py:265-271 | every group of the group pass is filed under its title, has the id prepId(title) and starts with no access points |
| ApCommon.GroupStepNames | ZenPacks/daviswr/WirelessController/modeler/plugins/daviswr/snmp/CiscoControllerAP.py:250-271 | one group row adds its title to the groups exactly when it is kept |
| ApCommon.GroupsOfNames | ZenPacks/daviswr/WirelessController/modeler/plugins/daviswr/snmp/CiscoControllerAP.py:248-271 | after the group pass the group names are exactly the titles of the kept rows |
| ApCommon.SearchKeepsFewer | ZenPacks/daviswr/WirelessController/modeler/plugins/daviswr/snmp/CiscoAP.py:193 | a group the searching filter keeps is also kept by the anchored `re.match` filter of the older plugin |
| ApCommon.UnknownGroupRaises | ZenPacks/daviswr/WirelessController/modeler/plugins/daviswr/snmp/CiscoControllerAP.py:366-373 | an AP naming a group no group row carries makes the write into the made-up group's `access_points` raise KeyError |
| ApCommon.PlaceRules | ZenPacks/daviswr/WirelessController/modeler/plugins/daviswr/snmp/CiscoControllerAP.py:366-373 | with the made-up group holding an empty AP table, the AP is filed under its group by name, an unknown group is added last with the id prepId(name) and its title, and no other group changes |
| ApCommon.PlaceAgrees | ZenPacks/daviswr/WirelessController/modeler/plugins/daviswr/snmp/CiscoControllerAP.py:366-373 | whenever the filing as written does not raise, it equals the corrected filing |
| ApCommon.ApFilingRules | ZenPacks/daviswr/WirelessController/modeler/plugins/daviswr/snmp/CiscoControllerAP.py:275-374 | a skipped AP changes nothing, a kept one is cleaned and filed under its group by name with an empty radio table under its stripped index, and an exception of the filter or cleaner ends the pass |
| ApCommon.ApFilingKeeps | ZenPacks/daviswr/WirelessController/modeler/plugins/daviswr/snmp/CiscoControllerAP.py:366-374 | one AP step keeps every group it starts with, their attributes and order, validity and empty radio tables |
| ApCommon.ApPassKeepsGroups | ZenPacks/daviswr/WirelessController/modeler/plugins/daviswr/snmp/CiscoControllerAP.py:273-374 | the whole AP pass only adds: the groups from the group pass stay in order with their attributes, and every radio table is still empty |
| ApCommon.ConvertMacs | ZenPacks/daviswr/WirelessController/modeler/plugins/daviswr/snmp/CiscoControllerAP.py:334-340 | the MAC loop gives the row with each present MAC column converted by asmac and every other column unchanged |
| ApCommon.JoinCdp | ZenPacks/daviswr/WirelessController/modeler/plugins/daviswr/snmp/CiscoControllerAP.py:352-359 | the CDP step gives the row joined with its neighbour entry as the joining function defines it, raising KeyError for a type 1 entry without an address |
| ApCommon.CdpJoinedRules | ZenPacks/daviswr/WirelessController/modeler/plugins/daviswr/snmp/CiscoControllerAP.py:352-359 | without a neighbour at `<index>.1` the row is unchanged; with one, the row gains the neighbour's columns, its address converted by asip exactly when its type is 1 |
| ApCommon.RadioIndexSplit | ZenPacks/daviswr/WirelessController/modeler/plugins/daviswr/snmp/CiscoControllerAP.py:377-380 | for an index `.<ap index>.<radio>`, the AP index and the radio index are recovered |
| ApCommon.RadioPlace | ZenPacks/daviswr/WirelessController/modeler/plugins/daviswr/snmp/CiscoControllerAP.py:474 | the radio is filed under its AP's index when that AP was kept, the rest of the radio tables unchanged, and nothing changes otherwise |
| ApCommon.RadioPlaceAgrees | ZenPacks/daviswr/WirelessController/modeler/plugins/daviswr/snmp/CiscoControllerAP.py:474 | the filing as written raises KeyError exactly for a radio whose AP was not kept, and agrees with the corrected filing otherwise |
| ApCommon.BuildRadioRel | ZenPacks/daviswr/WirelessController/modeler/plugins/daviswr/snmp/CiscoControllerAP.py:504-527 | the radio loop of one AP builds the `apRadios` relationship the function defines |
| ApCommon.BuildGroupRels | ZenPacks/daviswr/WirelessController/modeler/plugins/daviswr/snmp/CiscoControllerAP.py:492-530 | the AP loop of one group builds its `accessPoints` relationship and one radio relationship per AP |
| ApCommon.BuildRelations | ZenPacks/daviswr/WirelessController/modeler/plugins/daviswr/snmp/CiscoControllerAP.py:476-537 | the relationship loop returns the group relationship, then the AP relationships, then the radio relationships, in group order |
| ApCommon.RelationsOrder | ZenPacks/daviswr/WirelessController/modeler/plugins/daviswr/snmp/CiscoControllerAP.py:532-534 | the first relationship lists every group's attributes, followed by one AP relationship per group under `apGroups/<group id>`, then the radio relationships |
| ApCommon.RadioRelsFromAps | ZenPacks/daviswr/WirelessController/modeler/plugins/daviswr/snmp/CiscoControllerAP.py:497-527 | each radio relationship belongs to one AP of one group |
| ApCommon.RadioRecords | ZenPacks/daviswr/WirelessController/modeler/plugins/daviswr/snmp/CiscoControllerAP.py:512-525 | each radio gets the id prepId(`<ap id>_<radio index>`) and the title `<ap> <word> <radio index>`, its other columns unchanged, under `apGroups/<group id>/accessPoints/<ap id>` |
| ApCommon.ApIndexOf | ZenPacks/daviswr/WirelessController/modeler/plugins/daviswr/snmp/CiscoControllerAP.py:379 | for a radio index of the form .ap.slot, joining all parts but the last and stripping dots gives the AP index |
| ApCommon.RemoveApIndex | ZenPacks/daviswr/WirelessController/modeler/plugins/daviswr/snmp/CiscoControllerAP.py:380 | removing the AP index from .ap.slot, when the slot does not contain it, leaves two dots and the slot |
| ApCommon.StripDots | ZenPacks/daviswr/WirelessController/modeler/plugins/daviswr/snmp/CiscoControllerAP.py:380 | stripping the dots off the remainder leaves the radio slot |
| ControllerAp.Coded | ZenPacks/daviswr/WirelessController/modeler/plugins/daviswr/snmp/CiscoControllerAP.py:330-340 | translating the codes and converting the MACs keeps the row's set of columns |
| ControllerAp.StripText | ZenPacks/daviswr/WirelessController/modeler/plugins/daviswr/snmp/CiscoControllerAP.py:342-346 | a model given in the AP table has its spaces stripped and the IOS version its `$` signs, as the stripping functions define |
| ControllerAp.CleanColumns | ZenPacks/daviswr/WirelessController/modeler/plugins/daviswr/snmp/CiscoControllerAP.py:305-350 | the clean-up of an AP row builds the cleaned row the functions define: codes translated, MACs converted, text stripped, hardware version added |
| ControllerAp.CleanAp | ZenPacks/daviswr/WirelessController/modeler/plugins/daviswr/snmp/CiscoControllerAP.py:305-364 | the whole AP row is merged, cleaned, joined with its CDP neighbour and given its stripped index and its id, or raises as the CDP join does |
| ControllerAp.ApPass | ZenPacks/daviswr/WirelessController/modeler/plugins/daviswr/snmp/CiscoControllerAP.py:273-374 | the AP loop is the fold of the AP filing over the AP table, with an AP skipped for no title, an ignored name or model, or an address in an ignored subnet |
| ControllerAp.CodedTranslates | ZenPacks/daviswr/WirelessController/modeler/plugins/daviswr/snmp/CiscoControllerAP.py:310-332 | each present coded column (enabled, latency, mode) takes the name of its code, an unknown code kept |
| ControllerAp.CodedMacs | ZenPacks/daviswr/WirelessController/modeler/plugins/daviswr/snmp/CiscoControllerAP.py:334-340 | each present MAC column is converted with asmac |
| ControllerAp.CodedKeeps | ZenPacks/daviswr/WirelessController/modeler/plugins/daviswr/snmp/CiscoControllerAP.py:330-340 | every column that is neither coded nor a MAC is kept |
| ControllerAp.CleanedRules | ZenPacks/daviswr/WirelessController/modeler/plugins/daviswr/snmp/CiscoControllerAP.py:342-350 | a model given in the AP table is stripped of spaces, the IOS version of `$`, and the hardware version is that of the entity the row's ent_idx names, None without one |
| ControllerAp.CleanedKeeps | ZenPacks/daviswr/WirelessController/modeler/plugins/daviswr/snmp/CiscoControllerAP.py:342-350 | cleaning adds the hardware version column only and keeps every column it does not strip |
| ControllerAp.CodedKeepsText | ZenPacks/daviswr/WirelessController/modeler/plugins/daviswr/snmp/CiscoControllerAP.py:330-346 | the model, IOS version and ent_idx columns the clean-up reads are untouched by the code translation |
| ControllerAp.MergedRules | ZenPacks/daviswr/WirelessController/modeler/plugins/daviswr/snmp/CiscoControllerAP.py:305-307 | the cLApTable row wins over the latency row, which wins over the AP row, and the merge has the columns of all three |
| ControllerAp.NoLatencyTable | ZenPacks/daviswr/WirelessController/modeler/plugins/daviswr/snmp/CiscoControllerAP.py:191 | a missing latency table reads as an empty one |
| ControllerAp.RadioCodesAt | ZenPacks/daviswr/WirelessController/modeler/plugins/daviswr/snmp/CiscoControllerAP.py:385-433 | the 11n column is translated with the enabled codes and the band with the band codes |
| ControllerAp.ChannelJoinedRules | ZenPacks/daviswr/WirelessController/modeler/plugins/daviswr/snmp/CiscoControllerAP.py:455-460 | a non-empty extension channel is appended to the channel after a comma, a value without a length raises TypeError and a missing channel KeyError, and nothing else changes |
| ControllerAp.WidthSetRules | ZenPacks/daviswr/WirelessController/modeler/plugins/daviswr/snmp/CiscoControllerAP.py:461-466 | the newer width column replaces the width, an 80 MHz width makes the radio type 802.11ac, a radio with no width raises KeyError, and nothing else changes |
| ControllerAp.CleanRadio | ZenPacks/daviswr/WirelessController/modeler/plugins/daviswr/snmp/CiscoControllerAP.py:377-473 | the radio clean-up builds the radio record the functions define, or the exception they give |
| ControllerAp.RadioPass | ZenPacks/daviswr/WirelessController/modeler/plugins/daviswr/snmp/CiscoControllerAP.py:376-474 | the radio loop is the fold of the radio filing over the radio table, each radio filed under its AP's index when that AP was kept |
| ControllerAp.Dot11N | ZenPacks/daviswr/WirelessController/modeler/plugins/daviswr/snmp/CiscoControllerAP.py:443-446 | a radio with 11n code 1 is of type 802.11n |
| ControllerAp.Dot11ByBand | ZenPacks/daviswr/WirelessController/modeler/plugins/daviswr/snmp/CiscoControllerAP.py:447-453 | without 11n a 2.4 GHz radio is 802.11g and a 5 GHz radio 802.11a |
| ControllerAp.Dot11NoBand | ZenPacks/daviswr/WirelessController/modeler/plugins/daviswr/snmp/CiscoControllerAP.py:447-453 | a radio with neither 11n nor a band is plain 802.11 |
| ControllerAp.RadioRaises | ZenPacks/daviswr/WirelessController/modeler/plugins/daviswr/snmp/CiscoControllerAP.py:455-466 | a radio raises exactly for an extension channel without a length, an extension channel without a channel, or a radio without any width, with the matching exception |
| ControllerAp.RadioRecord | ZenPacks/daviswr/WirelessController/modeler/plugins/daviswr/snmp/CiscoControllerAP.py:443-473 | a finished radio carries the newer width, the type (802.11ac at 80 MHz), the joined channel and the stripped index |
| ControllerAp.RadioColumns | ZenPacks/daviswr/WirelessController/modeler/plugins/daviswr/snmp/CiscoControllerAP.py:443-473 | a finished radio has the merged columns plus the type, the index and the width, and no other |
| ControllerAp.RadioKeepsColumns | ZenPacks/daviswr/WirelessController/modeler/plugins/daviswr/snmp/CiscoControllerAP.py:435-473 | a finished radio keeps every merged column it does not set |
| ControllerAp.RadioPassKeepsAps | ZenPacks/daviswr/WirelessController/modeler/plugins/daviswr/snmp/CiscoControllerAP.py:474 | the radio pass opens no radio table beyond those of the kept APs |
| ControllerAp.Process | ZenPacks/daviswr/WirelessController/modeler/plugins/daviswr/snmp/CiscoControllerAP.py:174-537 | `process` raises without one of the tables it reads without a default, else runs the group, AP and radio passes and returns the relationships built from them, radios titled `Slot` |
| CiscoAp.SkipAp | ZenPacks/daviswr/WirelessController/modeler/plugins/daviswr/snmp/CiscoAP.py:222-249 | the AP filters give the skip decision the function defines, with the ignored networks parsed beforehand |
| CiscoAp.CleanAp | ZenPacks/daviswr/WirelessController/modeler/plugins/daviswr/snmp/CiscoAP.py:253-277 | the AP clean-up converts the MACs, strips a non-empty model, joins the CDP neighbour and sets the stripped index and the id, as the functions define |
| CiscoAp.ApPass | ZenPacks/daviswr/WirelessController/modeler/plugins/daviswr/snmp/CiscoAP.py:212-287 | the AP loop is the fold of the AP filing over the AP table, with the inline subnet loop that may raise |
| CiscoAp.SkipRules | ZenPacks/daviswr/WirelessController/modeler/plugins/daviswr/snmp/CiscoAP.py:222-249 | the filter raises ValueError exactly when a row passes the name and model filters, has an address, a valid ignored network exists and the address is not IPv4; otherwise it skips exactly the ignored names and models and the addresses in an ignored network |
| CiscoAp.NoAddressKept | ZenPacks/daviswr/WirelessController/modeler/plugins/daviswr/snmp/CiscoAP.py:239-242 | an AP without an address is never skipped for its subnet and its filter never raises |
| CiscoAp.NoSubnetsNoRaise | ZenPacks/daviswr/WirelessController/modeler/plugins/daviswr/snmp/CiscoAP.py:239-249 | without valid ignored subnets the filter never raises and only the names and models count |
| CiscoAp.CleanedRules | ZenPacks/daviswr/WirelessController/modeler/plugins/daviswr/snmp/CiscoAP.py:253-263 | the cleaned row keeps its columns, converts the MACs with asmac, strips a non-empty model of spaces and keeps every other column |
| CiscoAp.ApRowRules | ZenPacks/daviswr/WirelessController/modeler/plugins/daviswr/snmp/CiscoAP.py:265-277 | an AP record raises KeyError only for a CDP neighbour typed 1 without an address, and otherwise carries the stripped index and the id prepId(title) |
| CiscoAp.CleanRadio | ZenPacks/daviswr/WirelessController/modeler/plugins/daviswr/snmp/CiscoAP.py:291-342 | the radio clean-up translates the radio codes and sets the stripped index, as the function defines |
| CiscoAp.RadioPass | ZenPacks/daviswr/WirelessController/modeler/plugins/daviswr/snmp/CiscoAP.py:290-343 | the radio loop is the fold of the radio filing over the radio table |
| CiscoAp.RadioTranslates | ZenPacks/daviswr/WirelessController/modeler/plugins/daviswr/snmp/CiscoAP.py:299-330 | each present band, diversity, antenna mode, antenna and assignment code takes its name, an unknown code kept |
| CiscoAp.RadioColumns | ZenPacks/daviswr/WirelessController/modeler/plugins/daviswr/snmp/CiscoAP.py:328-342 | a radio record has the columns of its row plus the stripped index, and keeps every uncoded column |
| CiscoAp.RadioBand | ZenPacks/daviswr/WirelessController/modeler/plugins/daviswr/snmp/CiscoAP.py:300-303 | a band code of 1 reads 2.4 GHz and of 2 reads 5 GHz |
| CiscoAp.RadioPassKeepsAps | ZenPacks/daviswr/WirelessController/modeler/plugins/daviswr/snmp/CiscoAP.py:343 | the radio pass opens no radio table beyond those of the kept APs |
| CiscoAp.Process | ZenPacks/daviswr/WirelessController/modeler/plugins/daviswr/snmp/CiscoAP.py:126-405 | `process` raises without one of the tables whose length it logs, else runs the anchored group pass, the AP and radio passes and returns the relationships, radios titled `Radio` |
| DhcpPool.Condition | ZenPacks/daviswr/WirelessController/modeler/plugins/daviswr/snmp/CiscoControllerDHCPPool.py:63-69 | the plugin runs exactly on controllers whose model name does not contain `VM` |
| DhcpPool.CollectServers | ZenPacks/daviswr/WirelessController/modeler/plugins/daviswr/snmp/CiscoControllerDHCPPool.py:140-150 | the nested slot loops collect the DNS and router lists the list functions define |
| DhcpPool.ServersUpToMember | ZenPacks/daviswr/WirelessController/modeler/plugins/daviswr/snmp/CiscoControllerDHCPPool.py:143-150 | a value is listed exactly when one of the first slots holds it and it is not 0.0.0.0 |
| DhcpPool.ServersMember | ZenPacks/daviswr/WirelessController/modeler/plugins/daviswr/snmp/CiscoControllerDHCPPool.py:143-150 | a server list holds exactly the set values of slots 1 to 3, and never 0.0.0.0 |
| DhcpPool.ServersInOrder | ZenPacks/daviswr/WirelessController/modeler/plugins/daviswr/snmp/CiscoControllerDHCPPool.py:143-150 | with all three slots set the list is slot 1, slot 2, slot 3 in that order |
| DhcpPool.ServersNone | ZenPacks/daviswr/WirelessController/modeler/plugins/daviswr/snmp/CiscoControllerDHCPPool.py:146 | a pool whose slots are all missing or 0.0.0.0 has an empty list |
| DhcpPool.CleanPool | ZenPacks/daviswr/WirelessController/modeler/plugins/daviswr/snmp/CiscoControllerDHCPPool.py:132-158 | the clean-up of a pool row builds the record data the functions define |
| DhcpPool.ProcessPool | ZenPacks/daviswr/WirelessController/modeler/plugins/daviswr/snmp/CiscoControllerDHCPPool.py:110-160 | one pool row gives no record when it has no title, an ignored name or a network in an ignored subnet, and the pool record otherwise |
| DhcpPool.Process | ZenPacks/daviswr/WirelessController/modeler/plugins/daviswr/snmp/CiscoControllerDHCPPool.py:71-163 | `process` returns None without the scope table, else the dhcpPools relationship of the kept pools in table order |
| DhcpPool.RecordsAreKeptPools | ZenPacks/daviswr/WirelessController/modeler/plugins/daviswr/snmp/CiscoControllerDHCPPool.py:110-160 | a record is in the relationship exactly when it is the record of a pool row that is not skipped |
| DhcpPool.DerivedKeysAre | ZenPacks/daviswr/WirelessController/modeler/plugins/daviswr/snmp/CiscoControllerDHCPPool.py:153-158 | the columns added at the end are snmpindex, id, dns and routers, none of which the clean-up touches |
| DhcpPool.CleanedRules | ZenPacks/daviswr/WirelessController/modeler/plugins/daviswr/snmp/CiscoControllerDHCPPool.py:132-138 | `enabled` becomes True exactly when it is 1, the network gains `/<prefix length>` when a netmask is present, and every other column is kept |
| DhcpPool.PoolColumns | ZenPacks/daviswr/WirelessController/modeler/plugins/daviswr/snmp/CiscoControllerDHCPPool.py:132-158 | the record's state and network are the cleaned ones |
| DhcpPool.PoolDerived | ZenPacks/daviswr/WirelessController/modeler/plugins/daviswr/snmp/CiscoControllerDHCPPool.py:153-158 | the record carries the stripped index, the id prepId(title) and the two server lists |
| DhcpPool.PoolKeeps | ZenPacks/daviswr/WirelessController/modeler/plugins/daviswr/snmp/CiscoControllerDHCPPool.py:132-158 | the record has the row's columns plus the derived ones, and every other column reaches it unchanged |
| DhcpPool.NoNetworkNotIgnored | ZenPacks/daviswr/WirelessController/modeler/plugins/daviswr/snmp/CiscoControllerDHCPPool.py:113-128 | a pool without a network is never skipped for its subnet: only the title and the name filter count |
| CiscoDhcp.SkipPool | ZenPacks/daviswr/WirelessController/modeler/plugins/daviswr/snmp/CiscoDHCP.py:109-127 | the pool filters give the skip decision the function defines, with the ignored networks parsed beforehand |
| CiscoDhcp.ProcessPool | ZenPacks/daviswr/WirelessController/modeler/plugins/daviswr/snmp/CiscoDHCP.py:104-157 | one pool row gives no record when skipped, raises as its filter or its missing state does, and gives the pool record otherwise |
| CiscoDhcp.Process | ZenPacks/daviswr/WirelessController/modeler/plugins/daviswr/snmp/CiscoDHCP.py:60-162 | `process` returns None without the scope table, else a list of one dhcpPools relationship of the kept pools in table order, or the first exception a row raises |
| CiscoDhcp.SkipRules | ZenPacks/daviswr/WirelessController/modeler/plugins/daviswr/snmp/CiscoDHCP.py:109-127 | the filter raises exactly when a pool passes the name filter, has a non-empty network, a valid ignored network exists and the network is not IPv4; otherwise it skips exactly the ignored names and the networks in an ignored subnet |
| CiscoDhcp.MissingStateRaises | ZenPacks/daviswr/WirelessController/modeler/plugins/daviswr/snmp/CiscoDHCP.py:132 | a pool kept by the filters but without an `enabled` column raises KeyError |
| CiscoDhcp.AgreesWithPoolPlugin | ZenPacks/daviswr/WirelessController/modeler/plugins/daviswr/snmp/CiscoDHCP.py:103-152 | on a pool whose network is text the filter, where it returns, skips the same pools as CiscoControllerDHCPPool, and a pool with a state and no netmask gets the same record |
| CiscoDhcp.PoolRecord | ZenPacks/daviswr/WirelessController/modeler/plugins/daviswr/snmp/CiscoDHCP.py:132-152 | the record holds the boolean state, the stripped index, the id prepId(title), the two server lists, and every other column unchanged |
| CiscoDhcp.RecordsAreKeptPools | ZenPacks/daviswr/WirelessController/modeler/plugins/daviswr/snmp/CiscoDHCP.py:103-157 | when no pool row raises, a record is in the relationship exactly when it is the record of a pool row the filters keep |
| CiscoDhcp.ResultShape | ZenPacks/daviswr/WirelessController/modeler/plugins/daviswr/snmp/CiscoDHCP.py:159-162 | the result is a one-element list holding the dhcpPools relationship |
| ControllerVlan.CleanInterface | ZenPacks/daviswr/WirelessController/modeler/plugins/daviswr/snmp/CiscoControllerVLAN.py:126-135 | the clean-up of an interface row builds the record the functions define |
| ControllerVlan.ProcessInterface | ZenPacks/daviswr/WirelessController/modeler/plugins/daviswr/snmp/CiscoControllerVLAN.py:99-141 | one interface row gives no record without a title or for an ignored name, subnet or VLAN, and the interface record otherwise |
| ControllerVlan.Process | ZenPacks/daviswr/WirelessController/modeler/plugins/daviswr/snmp/CiscoControllerVLAN.py:57-144 | `process` returns None without the interface table, else the vlanInterfaces relationship of the kept interfaces in table order |
| ControllerVlan.RecordsAreKeptInterfaces | ZenPacks/daviswr/WirelessController/modeler/plugins/daviswr/snmp/CiscoControllerVLAN.py:99-141 | a record is in the relationship exactly when it is the record of an interface row that is not skipped |
| ControllerVlan.PrefixKeeps | ZenPacks/daviswr/WirelessController/modeler/plugins/daviswr/snmp/CiscoControllerVLAN.py:127-129 | the prefix stage rewrites at most the address |
| ControllerVlan.PrefixRules | ZenPacks/daviswr/WirelessController/modeler/plugins/daviswr/snmp/CiscoControllerVLAN.py:127-129 | the address gains `/<prefix length>` exactly when it is non-empty and a netmask is present, and the row is unchanged otherwise |
| ControllerVlan.CleanedAddress | ZenPacks/daviswr/WirelessController/modeler/plugins/daviswr/snmp/CiscoControllerVLAN.py:127-135 | the record holds the address the prefix rule gives |
| ControllerVlan.CleanedMac | ZenPacks/daviswr/WirelessController/modeler/plugins/daviswr/snmp/CiscoControllerVLAN.py:131-132 | the record holds the MAC address converted by asmac |
| ControllerVlan.CleanedId | ZenPacks/daviswr/WirelessController/modeler/plugins/daviswr/snmp/CiscoControllerVLAN.py:134-135 | the record's id is prepId of the id text of the title, and its index is stripped of dots |
| ControllerVlan.CleanedKeeps | ZenPacks/daviswr/WirelessController/modeler/plugins/daviswr/snmp/CiscoControllerVLAN.py:126-135 | the record gains only `id` and `snmpindex`, and keeps every column other than the address and the MAC |
| ControllerVlan.IdTextForm | ZenPacks/daviswr/WirelessController/modeler/plugins/daviswr/snmp/CiscoControllerVLAN.py:134 | the id text is `vlan_` followed by the name with each `-` made `_`, so it holds no `-` |
| ControllerVlan.NoAddressNotIgnored | ZenPacks/daviswr/WirelessController/modeler/plugins/daviswr/snmp/CiscoControllerVLAN.py:102-124 | with the corrected subnet test, an interface without an address is never skipped for its subnet |
| ControllerVlan.NoAddressRaisesAsWritten | ZenPacks/daviswr/WirelessController/modeler/plugins/daviswr/snmp/CiscoControllerVLAN.py:147-158 | as written, the subnet test of an interface without an address raises NameError for `log` once a subnet is configured, where the intended test finds it in no network |
| ControllerLicense.TitleLicense | ZenPacks/daviswr/Cisco/WLC/modeler/plugins/daviswr/snmp/CiscoControllerLicense.py:106-109 | the type block gives the titled row the function defines, raising AttributeError for a type left as a number |
| ControllerLicense.ExpireLicense | ZenPacks/daviswr/Cisco/WLC/modeler/plugins/daviswr/snmp/CiscoControllerLicense.py:111-120 | the expiration block writes the week and day text for a license with a remaining validity and no `Never` |
| ControllerLicense.CleanLicense | ZenPacks/daviswr/Cisco/WLC/modeler/plugins/daviswr/snmp/CiscoControllerLicense.py:74-126 | the clean-up of a license row builds the record the functions define, or raises as its type or validity does |
| ControllerLicense.Process | ZenPacks/daviswr/Cisco/WLC/modeler/plugins/daviswr/snmp/CiscoControllerLicense.py:44-135 | `process` returns None without the license table, else the licenses relationship of the named rows in table order, or the first exception a row raises |
| ControllerLicense.RecordsAreNamedLicenses | ZenPacks/daviswr/Cisco/WLC/modeler/plugins/daviswr/snmp/CiscoControllerLicense.py:65-131 | when no row raises, a record is in the relationship exactly when it is the record of a row whose title is neither None nor empty |
| ControllerLicense.CodesAre | ZenPacks/daviswr/Cisco/WLC/modeler/plugins/daviswr/snmp/CiscoControllerLicense.py:79-100 | the status codes 1 to 6 and the type codes 1 to 10 have names, and no other code does |
| ControllerLicense.SeverityKept | ZenPacks/daviswr/Cisco/WLC/modeler/plugins/daviswr/snmp/CiscoControllerLicense.py:74-104 | the severity column holds the status as it was read, and the status column the name of a known code |
| ControllerLicense.TitleRule | ZenPacks/daviswr/Cisco/WLC/modeler/plugins/daviswr/snmp/CiscoControllerLicense.py:106-109 | a named type prefixes the title-cased type to the title, and a permanent type sets the expiration to `Never` |
| ControllerLicense.UnknownTypeRaises | ZenPacks/daviswr/Cisco/WLC/modeler/plugins/daviswr/snmp/CiscoControllerLicense.py:102-107 | a type code without a name stays a number, and taking its title case raises AttributeError |
| ControllerLicense.PermanentNeverExpires | ZenPacks/daviswr/Cisco/WLC/modeler/plugins/daviswr/snmp/CiscoControllerLicense.py:106-120 | a license of type 4 expires `Never` whatever validity it reports |
| ControllerLicense.FinishedKeeps | ZenPacks/daviswr/Cisco/WLC/modeler/plugins/daviswr/snmp/CiscoControllerLicense.py:122-126 | the last step adds the stripped index and the id prepId(`license_<index>`) and keeps every other column |
| ControllerLicense.ExpirationMeaning | ZenPacks/daviswr/Cisco/WLC/modeler/plugins/daviswr/snmp/CiscoControllerLicense.py:111-120 | with the corrected comparison, the text names the whole weeks when there is at least one and the whole days of the part week left, bracketing the validity |
| ControllerLicense.OneWeekAsWritten | ZenPacks/daviswr/Cisco/WLC/modeler/plugins/daviswr/snmp/CiscoControllerLicense.py:114 | as written, a validity of exactly one week shows as `0 days` instead of `1 weeks, 0 days` |
| ControllerLicense.AsWrittenAgrees | ZenPacks/daviswr/Cisco/WLC/modeler/plugins/daviswr/snmp/CiscoControllerLicense.py:114-120 | for every validity other than exactly one week the text as written and the corrected text agree |
| ControllerLicense.RemainingNotNumberRaises | ZenPacks/daviswr/Cisco/WLC/modeler/plugins/daviswr/snmp/CiscoControllerLicense.py:112-120 | a remaining validity that is no number makes the record raise TypeError unless the expiration is `Never` |
| ControllerLicense.LicenseIds | ZenPacks/daviswr/Cisco/WLC/modeler/plugins/daviswr/snmp/CiscoControllerLicense.py:122-126 | a finished record's index is stripped of dots and its id formed from the index as read |
| ControllerLicense.PermanentTitled | ZenPacks/daviswr/Cisco/WLC/modeler/plugins/daviswr/snmp/CiscoControllerLicense.py:102-109 | a license of type code 4 is named permanent and so gets the expiration Never |
| Ipv4.ParseIgnoreNets | ZenPacks/daviswr/WirelessController/modeler/plugins/daviswr/snmp/CiscoControllerAP.py:234-246 | the property loop keeps, in order, exactly the entries that parse as networks, dropping the ones IPNetwork rejects |
| Ipv4.ValidNetsMember | ZenPacks/daviswr/WirelessController/modeler/plugins/daviswr/snmp/CiscoControllerAP.py:241-246 | a network is among the ignored ones exactly when some entry of the property parses to it |
| Ipv4.ParseBareAddress | ZenPacks/daviswr/WirelessController/modeler/plugins/daviswr/snmp/CiscoControllerAP.py:243 | an entry written as a bare address is the network of that one address |
| Ipv4.IpInNetsAsWrittenRaises | ZenPacks/daviswr/WirelessController/modeler/plugins/daviswr/snmp/CiscoControllerAP.py:539-550 | as written, with one subnet configured, an empty address makes `ip_in_nets` raise NameError for `log`, where the intended answer is that it is in no network |
| Ipv4.IpInNetsAsWrittenAgrees | ZenPacks/daviswr/Cisco/WLC/modeler/plugins/daviswr/snmp/CiscoControllerAAA.py:330-341 | `ip_in_nets` as written raises exactly when a subnet is configured and the address does not parse, and otherwise returns the intended answer |
| Ipv4.IpInNets | ZenPacks/daviswr/WirelessController/modeler/plugins/daviswr/snmp/CiscoControllerAP.py:539-550 | the corrected `ip_in_nets` returns True exactly when the address parses and some ignored network contains it |
| Ipv4.SkipNet | ZenPacks/daviswr/WirelessController/modeler/plugins/daviswr/snmp/CiscoAP.py:239-242 | the inline subnet loop of the older plugins gives the decision the function defines, raising ValueError only once the loop runs on an address that does not parse |
| Ipv4.InlineSkipAgrees | ZenPacks/daviswr/WirelessController/modeler/plugins/daviswr/snmp/CiscoDHCP.py:118-121 | the inline loop raises exactly when its guard holds, a network is configured and the address does not parse, and otherwise skips exactly what the corrected `ip_in_nets` finds under the guard |
| Values.Lookup | ZenPacks/daviswr/WirelessController/modeler/plugins/daviswr/snmp/CiscoControllerAP.py:330-332 | a code has a name exactly when its numeric value is a key of the code map |
| Values.TranslateCodes | ZenPacks/daviswr/WirelessController/modeler/plugins/daviswr/snmp/CiscoControllerAP.py:330-332 | the code loop, in any column order, gives the row with each present coded column named and every other column kept |
| Values.TranslatedRule | ZenPacks/daviswr/WirelessController/modeler/plugins/daviswr/snmp/CiscoControllerAP.py:332 | a known integer code takes its name, an unknown code and a non-number stay as read |
| Values.MapColumns | ZenPacks/daviswr/WirelessController/modeler/plugins/daviswr/snmp/CiscoControllerAP.py:338-340 | the column loop passes each present listed column through the conversion and keeps every other column |
| Values.CleanBooleans | ZenPacks/daviswr/WirelessController/modeler/plugins/daviswr/snmp/CiscoWLAN.py:242-256 | the boolean loop makes each present listed column True exactly when it equals 1 and keeps the rest |
| Values.BooleansIdempotent | ZenPacks/daviswr/WirelessController/modeler/plugins/daviswr/snmp/CiscoWLAN.py:254-256 | cleaning the boolean columns a second time changes nothing |
| Values.PyIntOfString | ZenPacks/daviswr/WirelessController/modeler/plugins/daviswr/snmp/CiscoController.py:81-90 | `int` of the decimal text of a number gives that number |
| Values.MatchImpliesSearch | ZenPacks/daviswr/WirelessController/modeler/plugins/daviswr/snmp/CiscoAP.py:193 | a name the anchored `re.match` ignores is also ignored by `re.search` |
| PyStrings.FindIffContains | ZenPacks/daviswr/WirelessController/modeler/plugins/daviswr/snmp/CiscoControllerDHCPPool.py:66 | `find(sub) > -1` holds exactly when the text contains `sub` |
| Ipv4.ParseNetwork | ZenPacks/daviswr/WirelessController/modeler/plugins/daviswr/snmp/CiscoControllerAP.py:241-246 | a string IPNetwork accepts is a valid network: a 32-bit address with a prefix length of at most 32 |
| Ipv4.ParseFormat | ZenPacks/daviswr/WirelessController/modeler/plugins/daviswr/snmp/CiscoControllerAP.py:543 | parsing the dotted-quad text of any 32-bit address gives back that address |
| Ipv4.ContainsIffPrefix | ZenPacks/daviswr/WirelessController/modeler/plugins/daviswr/snmp/CiscoControllerAP.py:543 | a network contains an address exactly when the two agree on the network's leading prefix bits |
| Values.TranslatedRow | ZenPacks/daviswr/WirelessController/modeler/plugins/daviswr/snmp/CiscoControllerAP.py:330-332 | translating the coded columns keeps exactly the row's columns |
| CiscoController.BuildDeviceMap | ZenPacks/daviswr/WirelessController/modeler/plugins/daviswr/snmp/CiscoController.py:41-68 | the controller's own map is built with the hardware product key only for a non-empty model and the operating system key always, or raises as the manufacturer does |
| CiscoController.Process | ZenPacks/daviswr/WirelessController/modeler/plugins/daviswr/snmp/CiscoController.py:26-110 | process returns None without scalar values, else the product-key map followed by the serial, memory, mobility and maximum-AP maps, or the first exception |
| CiscoController.MapsOrder | ZenPacks/daviswr/WirelessController/modeler/plugins/daviswr/snmp/CiscoController.py:70-108 | a run that does not raise yields the maps in the order they are appended: product keys, serial, memory, mobility domain, maximum APs |
| CiscoController.MapsCount | ZenPacks/daviswr/WirelessController/modeler/plugins/daviswr/snmp/CiscoController.py:70-108 | the product-key map comes first and one map follows for each optional value that is present and non-empty |
| CiscoController.MemoryIsHardware | ZenPacks/daviswr/WirelessController/modeler/plugins/daviswr/snmp/CiscoController.py:81-90 | some map belongs to the hw component exactly when a non-empty memory size is reported |
| CiscoController.DeviceMapRule | ZenPacks/daviswr/WirelessController/modeler/plugins/daviswr/snmp/CiscoController.py:44-68 | the product-key map holds the hardware key exactly for a non-empty model, pairing it with the manufacturer, and names the operating system from the version |
| CiscoController.MemoryRule | ZenPacks/daviswr/WirelessController/modeler/plugins/daviswr/snmp/CiscoController.py:81-90 | a memory size reported as the text of k kilobytes is recorded as the text of k times 1024 bytes |
| CiscoController.ManufacturerRaises | ZenPacks/daviswr/WirelessController/modeler/plugins/daviswr/snmp/CiscoController.py:44-45 | a manufacturer value that is no text raises AttributeError on lower before any map is made |
| DeviceCommon.Manufacturer | ZenPacks/daviswr/WirelessController/modeler/plugins/daviswr/snmp/CiscoController.py:44-46 | the manufacturer is Cisco for a name containing cisco in any case or for no name, the reported name otherwise, and a value that is no text raises AttributeError |
| DeviceCommon.OsName | ZenPacks/daviswr/WirelessController/modeler/plugins/daviswr/snmp/CiscoController.py:58-61 | the operating system is AireOS, followed by a space and the version exactly when there is a version |
| DeviceCommon.ManufacturerNames | ZenPacks/daviswr/Cisco/WLC/modeler/plugins/daviswr/snmp/CiscoControllerDevice.py:60-62 | the reported manufacturer is Cisco or another vendor's non-empty name that does not mention Cisco |
| DeviceCommon.ManufacturerIdempotent | ZenPacks/daviswr/Cisco/WLC/modeler/plugins/daviswr/snmp/CiscoControllerDevice.py:60-62 | reporting an already reported manufacturer again changes nothing |
| DeviceCommon.NoManufacturerIsCisco | ZenPacks/daviswr/WirelessController/modeler/plugins/daviswr/snmp/CiscoController.py:44-46 | a controller that names no manufacturer is reported as a Cisco one |
| DeviceCommon.BytesOfKilobytes | ZenPacks/daviswr/Cisco/WLC/modeler/plugins/daviswr/snmp/CiscoControllerDevice.py:101-104 | a memory size of k kilobytes, as a number or as its text, is k times 1024 bytes |
| ControllerDevice.FillProduct | ZenPacks/daviswr/Cisco/WLC/modeler/plugins/daviswr/snmp/CiscoControllerDevice.py:59-78 | the scalar values gain the hardware key for a model, the operating system key, and the mobility domain list, as the product function defines |
| ControllerDevice.BuildMaps | ZenPacks/daviswr/Cisco/WLC/modeler/plugins/daviswr/snmp/CiscoControllerDevice.py:95-107 | the maps are the controller's map under its module name, followed by the hw memory map when a memory size is present, or the exception int raises |
| ControllerDevice.Process | ZenPacks/daviswr/Cisco/WLC/modeler/plugins/daviswr/snmp/CiscoControllerDevice.py:43-107 | process returns None for missing or empty scalar values, else the controller map with the product keys, mobility domain and thresholds, and the memory map |
| ControllerDevice.ThresholdsForNamedEnvironments | ZenPacks/daviswr/Cisco/WLC/modeler/plugins/daviswr/snmp/CiscoControllerDevice.py:81-93 | an operating environment has temperature thresholds exactly when it is one of the two environments the temperature plugin names |
| ControllerDevice.ThresholdRanges | ZenPacks/daviswr/Cisco/WLC/modeler/plugins/daviswr/snmp/CiscoControllerDevice.py:83-92 | a threshold range holds exactly a low and a high bound, low below high, and the industrial range contains the commercial one |
| ControllerDevice.ProductRule | ZenPacks/daviswr/Cisco/WLC/modeler/plugins/daviswr/snmp/CiscoControllerDevice.py:59-78 | the product stage adds the operating system key, the hardware key for a model and the mobility list for a domain, with their values, and leaves every other column as it was |
| ControllerDevice.ThresholdRule | ZenPacks/daviswr/Cisco/WLC/modeler/plugins/daviswr/snmp/CiscoControllerDevice.py:81-93 | a commercial or industrial environment adds its two thresholds with their values and keeps every other column; any other environment, or none, leaves the row unchanged |
| ControllerDevice.MemoryRule | ZenPacks/daviswr/Cisco/WLC/modeler/plugins/daviswr/snmp/CiscoControllerDevice.py:100-104 | a memory size of k kilobytes gives a second map, of the hw component, with k times 1024 bytes of total memory |
| ControllerDeviceLegacy.Process | ZenPacks/daviswr/WirelessController/modeler/plugins/daviswr/snmp/CiscoControllerDevice.py:38-84 | process returns None only without scalar values, else the controller map with the product keys and mobility domain, and the memory map |
| ControllerDeviceLegacy.AgreesWithWlcPlugin | ZenPacks/daviswr/WirelessController/modeler/plugins/daviswr/snmp/CiscoControllerDevice.py:45-81 | for non-empty scalar values without an operating environment, both device plugins build the same maps except for the controller map's module name |
| ControllerDeviceLegacy.EmptyValues | ZenPacks/daviswr/WirelessController/modeler/plugins/daviswr/snmp/CiscoControllerDevice.py:45-75 | from empty scalar values the older plugin still makes a map of a Cisco controller running AireOS, where the Cisco WLC plugin returns None |
| ControllerTemperature.ConvertReading | ZenPacks/daviswr/Cisco/WLC/modeler/plugins/daviswr/snmp/CiscoControllerTemperature.py:83-93 | a row with a reading gains its Fahrenheit column; the sentinel reading yields None and a non-numeric reading raises TypeError |
| ControllerTemperature.CleanSensor | ZenPacks/daviswr/Cisco/WLC/modeler/plugins/daviswr/snmp/CiscoControllerTemperature.py:72-100 | one sensor row has its state named, its reading converted and its labels set, giving the ObjectMap the functions define or None on the sentinel |
| ControllerTemperature.SensorRow | ZenPacks/daviswr/Cisco/WLC/modeler/plugins/daviswr/snmp/CiscoControllerTemperature.py:64-100 | the sensor at an index is named, then cleaned, or the naming exception is raised |
| ControllerTemperature.SensorLoop | ZenPacks/daviswr/Cisco/WLC/modeler/plugins/daviswr/snmp/CiscoControllerTemperature.py:64-100 | the loop over the table computes the fold the functions define, stopping with None at the first sentinel or with the first exception |
| ControllerTemperature.Process | ZenPacks/daviswr/Cisco/WLC/modeler/plugins/daviswr/snmp/CiscoControllerTemperature.py:44-103 | process returns None for a missing or empty table or on the sentinel, else the temperaturesensors relationship of the hw component |
| ControllerTemperature.SensorsAllKept | ZenPacks/daviswr/Cisco/WLC/modeler/plugins/daviswr/snmp/CiscoControllerTemperature.py:64-100 | where no row raises or reads the sentinel, the loop keeps exactly one sensor per row, in table order |
| ControllerTemperature.SensorsAbort | ZenPacks/daviswr/Cisco/WLC/modeler/plugins/daviswr/snmp/CiscoControllerTemperature.py:87-91 | where no row raises, a row reading the sentinel makes the loop return None |
| ControllerTemperature.SensorsSameNames | ZenPacks/daviswr/Cisco/WLC/modeler/plugins/daviswr/snmp/CiscoControllerTemperature.py:67-70 | the loop depends on the naming only through the names it gives |
| ControllerTemperature.SensorsDone | ZenPacks/daviswr/Cisco/WLC/modeler/plugins/daviswr/snmp/CiscoControllerTemperature.py:64-100 | where no row raises, neither does the loop |
| ControllerTemperature.SentinelDecides | ZenPacks/daviswr/Cisco/WLC/modeler/plugins/daviswr/snmp/CiscoControllerTemperature.py:64-103 | where no row raises, the result is None when some row reads the sentinel, and otherwise one sensor per row in table order |
| ControllerTemperature.SentinelRow | ZenPacks/daviswr/Cisco/WLC/modeler/plugins/daviswr/snmp/CiscoControllerTemperature.py:83-91 | a row reading 5000 degrees ends the plugin with None, whatever else it holds |
| ControllerTemperature.NameRules | ZenPacks/daviswr/Cisco/WLC/modeler/plugins/daviswr/snmp/CiscoControllerTemperature.py:66-70 | the sensor of a one-row table is Internal Temperature; otherwise it is Temperature Sensor followed by its dotless index plus one |
| ControllerTemperature.StateRule | ZenPacks/daviswr/Cisco/WLC/modeler/plugins/daviswr/snmp/CiscoControllerTemperature.py:73-81 | the state becomes Commercial for code 1 and Industrial for code 2, and any other value is kept |
| ControllerTemperature.SensorLabels | ZenPacks/daviswr/Cisco/WLC/modeler/plugins/daviswr/snmp/CiscoControllerTemperature.py:95-99 | a kept sensor is titled with its name, its id is prepId of the name without spaces, and its snmpindex is the index stripped of dots |
| ControllerTemperature.LabelsWin | ZenPacks/daviswr/Cisco/WLC/modeler/plugins/daviswr/snmp/CiscoControllerTemperature.py:95-99 | the label columns overwrite any columns of the row under the same names |
| ControllerTemperature.FahrenheitColumn | ZenPacks/daviswr/Cisco/WLC/modeler/plugins/daviswr/snmp/CiscoControllerTemperature.py:92-93 | a numeric reading other than the sentinel gains its Fahrenheit reading as a new column |
| ControllerTemperature.FahrenheitInverse | ZenPacks/daviswr/Cisco/WLC/modeler/plugins/daviswr/snmp/CiscoControllerTemperature.py:92 | the Fahrenheit reading converts back to the Celsius one, and both scales meet at -40 |
| ControllerTemperature.FahrenheitAsWrittenShifts | ZenPacks/daviswr/Cisco/WLC/modeler/plugins/daviswr/snmp/CiscoControllerTemperature.py:92 | as written, Python 2's integer 9/5 makes the conversion add only 32, so 100 degrees Celsius give 132 rather than 212 |
| ControllerTemperatureLegacy.Condition | ZenPacks/daviswr/WirelessController/modeler/plugins/daviswr/snmp/CiscoControllerTemperature.py:34-40 | the plugin runs exactly on models that mention neither VM nor WISM |
| ControllerTemperatureLegacy.Process | ZenPacks/daviswr/WirelessController/modeler/plugins/daviswr/snmp/CiscoControllerTemperature.py:42-98 | process returns None without the table or on the sentinel, else the temperaturesensors relationship with every sensor numbered |
| ControllerTemperatureLegacy.ConditionsAgree | ZenPacks/daviswr/Cisco/WLC/modeler/plugins/daviswr/snmp/CiscoControllerTemperature.py:35-42 | the find form of the older plugin and the in form of the Cisco WLC plugin run on the same controllers |
| ControllerTemperatureLegacy.NameRule | ZenPacks/daviswr/WirelessController/modeler/plugins/daviswr/snmp/CiscoControllerTemperature.py:64-65 | every sensor is Temperature Sensor followed by its dotless index plus one |
| ControllerTemperatureLegacy.AgreesWithWlcPlugin | ZenPacks/daviswr/WirelessController/modeler/plugins/daviswr/snmp/CiscoControllerTemperature.py:49-95 | on a table of several sensors both plugins agree; on an empty table the older one gives an empty relationship where the newer gives None |

## Left out

- **SNMP and logging**
  - SNMP walking and the `GetMap`/`GetTableMap` OID declarations are consumed by the host collector and are not modelled.
  - Logging, including the warnings the plugins print, is not modelled.
  - `condition` receives the device's model name as a string argument instead of calling `device.hw.getModelName()`.
- **Host helpers and configuration**
  - `prepId`, `asip`, `asmac` and `maskToBits` come from the Zenoss plugin base class and are parameters: the fields of `Values.Host`.
  - The regular-expression engine is a parameter too: `Values.Regex` says where a pattern matches. `re.search` and `re.match` are defined on it, but pattern syntax is not modelled.
  - The zProperties reach each plugin as a `Config` value.
- **IP addresses**
  - `ipaddr` is modelled for IPv4 only: a dotted-quad address with an optional `/prefix` length.
  - IPv6 addresses are not modelled, and neither are networks written with a netmask (`a.b.c.d/255.255.255.0`). Such an ignore entry is treated as unparsable and dropped.
- **Dictionaries**
  - Python 2 dictionaries have no defined order. A table's iteration order is the `keys` sequence of its `ODict`, which the caller fixes.
  - Code-translation loops are proved for any visiting order.
  - Rows are a `map`, so a row's own column order is not modelled.
  - The plugins update the shared SNMP rows in place, for example the CDP neighbour's address in CiscoControllerAP. The model computes new rows instead. Aliasing between plugin runs is therefore not captured.
- **Python's conversions**
  - `int()` of text is modelled for an optional sign followed by decimal digits. Surrounding white space, underscores and other bases are not.
  - `str()` of a non-integral float is not modelled, and neither is `str()` of a float in general.
  - The antenna gain's floating-point `* 0.5` (CiscoControllerAP.py:440-441, CiscoAP.py:333-334) is not modelled: the radio records keep the raw gain.
  - A list used as a dictionary key, which would be unhashable, is not distinguished from other keys.
  - Type errors on malformed SNMP values are mostly not modelled. For example, `strip` and `replace` applied to a non-text value keep the value unchanged instead of raising, and `ord` keeps any value that is not a one-character string, where Python raises TypeError; the WLAN decoder then gives None for it. The WLAN RADIUS slots (`CiscoWlan.RadiusEntry`, CiscoWLAN.py:339) take `str()` of a non-text server value before `replace(' ', ':')`, where Python raises AttributeError. The modelled exceptions are those the contracts state, for example:
    - KeyError for a missing column, such as an AP radio without a width, an AP without a neighbour address, or a DHCP pool without `enabled`;
    - AttributeError from `title` on a license type that is not text, and from `lower` on a manufacturer that is not text;
    - ValueError from `int` of text that is no number (a memory size, a most-APs value, a sensor index), and from the inline subnet loops on an address that is not IPv4;
    - TypeError from `int` of a value that is neither number nor text, from a license remaining validity that is no number, from `len` of an extension channel without a length, and from `len` of a missing AP table;
    - NameError from `log` in `ip_in_nets`, in the as-written member `Ipv4.IpInNetsAsWritten` only (see Findings).
- **Preconditions**
  - `WlcAaa.TacacsIndexed`: the model requires every SNMP index of the TACACS+ table to contain a dot. The table's index has two parts, server type and priority, so every index the controller reports meets this. The source itself raises `IndexError` only when it titles a server by its index: a server that is not ignored and whose address is not of type 1 (CiscoControllerAAA.py:297-301). A dotless index of a type-1, address-less or ignored server, or any index once `tacacs` is ignored, is handled without error in the source, and the model does not cover those inputs.
  - AP and group keys are the text of the values the source uses (`Values.PyStr`).
- **Files and settings not modelled**
  - The legacy CiscoControllerAAA's `zWlanServerIgnoreNames` property is read and logged but never used to filter a row, so it has no counterpart.
  - The Aruba plugins and the WirelessController CiscoControllerLicense.py have no logic (their `process` ends in `pass`) and are not part of this model.
  - The record classes (`ObjectMap`, `RelationshipMap`, `MultiArgs`) are plain datatypes; what the platform does with them is not modelled.
- **Weaker contracts and deliberate simplifications**
  - ControllerLicense.WithExpiration: a remaining validity that is a float is not modelled faithfully. A whole-number float is formatted like the integer (`2 weeks, 0 days` where Python 2 writes `2.0 weeks, 0.0 days`), and any other float is modelled as raising TypeError, where Python 2 would format the float week and day counts; `str()` of a float is not modelled.
  - ControllerLicense.ExpireLicense: proved equal to `WithExpiration`, so it carries the same gap for a float remaining validity.
  - ControllerLicense.ExpirationText: the model's `process` uses the corrected `>=` one-week comparison; the source's `>` is `ExpirationTextAsWritten` (see Findings).
  - ControllerTemperature.Fahrenheit: both temperature plugins' `process` use the intended conversion. The source's integer `9/5` is `FahrenheitAsWritten` (see Findings).
  - Ipv4.IpInNets: the AP, DHCP pool and VLAN passes, and the LDAP, RADIUS and TACACS+ passes of the Cisco WLC AAA plugin, use the corrected `ip_in_nets`, which gives False for an unparsable address instead of raising NameError (see Findings).
  - WlcAaa.TitledServer: the LDAP and TACACS+ address handling uses the corrected subnet test, so an address that does not parse is kept, where CiscoControllerAAA.py:330-341 raises NameError once a subnet is set.
  - WlcAaa.TitledServerRules: states the LDAP and TACACS+ address rules for the corrected subnet test; the NameError of an unparsable address with a subnet set is not modelled.
  - WlcAaa.RadiusSkipIff: the iff is about the corrected subnet test; where the source raises NameError for an unparsable RADIUS address with a subnet set, the model keeps the server.
  - WlcAaa.Process: returns the records of the corrected subnet test; the NameError the source raises for an unparsable server address with a subnet set is not modelled.
  - ApCommon.Place: an AP naming an unknown group is filed into a made-up group with an empty AP table, where the source's made-up group has no `access_points` entry and the filing raises KeyError (CiscoControllerAP.py:366-373, CiscoAP.py:279-286; see Findings).
  - ApCommon.ApFilingRules: states the filing of the corrected `Place`, so an AP of an unknown group is filed where the source raises KeyError.
  - ApCommon.GroupMap: a group's ObjectMap data is its row without the `access_points` entry. In the source that entry is a dictionary of the group's AP rows (CiscoControllerAP.py:265-270, 486-490, and the same in CiscoAP.py); the model's `Value` has no dictionary form, and the AP rows appear in the `accessPoints` relationships instead.
  - ApCommon.RelationsOrder: the `apGroups` records it describes are those of `GroupMap`, without the `access_points` entry.
  - ControllerAp.Process: files an AP of an unknown group instead of raising KeyError and leaves `access_points` out of the group records, as `Place` and `GroupMap` do.
  - CiscoAp.Process: the same two gaps as `ControllerAp.Process`, at CiscoAP.py:279-286.
  - CiscoWlan.LdapEntry: a slot column missing from the row is read as 0 for the table lookup and for the row read alike; the source's `row[attr]` would raise KeyError for a missing slot column if the server table had an index `0`.
  - ApCommon.RadioPlace: the radio pass skips a radio whose AP was not kept, where the source raises KeyError (see Findings).

## Findings

| source | as written | input that shows it | evidently intended | confidence | as-written member | corrected member |
|---|---|---|---|---|---|---|
| ZenPacks/daviswr/WirelessController/modeler/plugins/daviswr/snmp/CiscoControllerAP.py:539-550 | the bare `except:` branch of `ip_in_nets` calls `log.warn`, but `log` is only a parameter of `process`, so the branch raises NameError; CiscoControllerDHCPPool.py and CiscoControllerVLAN.py have the same branch, and the Cisco WLC CiscoControllerAAA.py has it under `except ValueError:` | an AP, pool or interface whose address is not an IPv4 address while at least one ignored subnet is configured | an unparsable address is in no network, so the result is False | not executed | Ipv4.IpInNetsAsWritten (Ipv4.IpInNetsAsWrittenRaises, ControllerVlan.NoAddressRaisesAsWritten) | Ipv4.IpInNets |
| ZenPacks/daviswr/WirelessController/modeler/plugins/daviswr/snmp/CiscoControllerAP.py:474 | the AP radio pass writes into `ap_radios[ap_index]`, which exists only for APs the AP pass kept, so a radio of an ignored AP raises KeyError; CiscoAP.py has the same write | one AP whose name the ignore pattern matches, with one radio in bsnAPIfTable | radios of ignored APs are skipped like their APs | not executed | ApCommon.RadioPlaceAsWritten | ApCommon.RadioPlace (ApCommon.RadioPlaceAgrees) |
| ZenPacks/daviswr/WirelessController/modeler/plugins/daviswr/snmp/CiscoControllerAP.py:366-373 | an AP naming an unknown group creates that group without an `access_points` entry, and the next write into `access_points` raises KeyError; CiscoAP.py does the same | an AP whose group name is not in bsnAPGroupsVlanTable | the synthetic group starts with an empty `access_points` map, as kept groups do | not executed | ApCommon.PlaceAsWritten (ApCommon.UnknownGroupRaises) | ApCommon.Place (ApCommon.PlaceRules, ApCommon.PlaceAgrees) |
| ZenPacks/daviswr/Cisco/WLC/modeler/plugins/daviswr/snmp/CiscoControllerLicense.py:114 | the weeks part is written only when the remaining validity is strictly more than 604800 seconds | a remaining validity of exactly 604800 seconds (one week) gives `0 days` | one week or more is written in weeks: `1 weeks, 0 days` | not executed | ControllerLicense.ExpirationTextAsWritten (ControllerLicense.OneWeekAsWritten) | ControllerLicense.ExpirationText (ControllerLicense.ExpirationMeaning) |
| ZenPacks/daviswr/Cisco/WLC/modeler/plugins/daviswr/snmp/CiscoControllerTemperature.py:92-93 | `celsius * (9/5) + 32` in Python 2 divides the integers 9 and 5 to 1, so the Fahrenheit reading is the Celsius reading plus 32; the WirelessController copy (lines 87-88) is the same | a reading of 100 degrees Celsius is recorded as 132 degrees Fahrenheit | 212 degrees Fahrenheit, the conversion by nine fifths | not executed | ControllerTemperature.FahrenheitAsWritten (ControllerTemperature.FahrenheitAsWrittenShifts) | ControllerTemperature.Fahrenheit (ControllerTemperature.FahrenheitInverse) |
