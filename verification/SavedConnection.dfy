/** Decoding saved profiles and patching them: what a patch changes in what is decoded. */
module SavedConnection {
  import opened Wrappers
  import opened Errors
  import opened Text
  import opened SettingsDict

  // ----- Typed access

  function AsStr(v: Value): Option<string> {
    if v.Str? then Some(v.text) else None
  }

  function TakeStr(s: Section, key: string): Option<string> {
    if key in s then AsStr(s[key]) else None
  }

  function TakeBool(s: Section, key: string): Option<bool> {
    if key in s && s[key].Bool? then Some(s[key].flag) else None
  }

  function TakeU32(s: Section, key: string): Option<u32> {
    if key in s && s[key].U32? then Some(s[key].word) else None
  }

  function TakeI32(s: Section, key: string): Option<i32> {
    if key in s && s[key].I32? then Some(s[key].signed) else None
  }

  function TakeU64(s: Section, key: string): Option<u64> {
    if key in s && s[key].U64? then Some(s[key].long) else None
  }

  /** The bytes of a byte array; any other element spoils it. */
  function TakeBytes(s: Section, key: string): (r: Option<seq<u8>>) {
    if key in s && s[key].Arr? then BytesOf(s[key].items) else None
  }

  function BytesOf(items: seq<Value>): (r: Option<seq<u8>>) {
    if items == [] then Some([])
    else
      var rest := BytesOf(items[1..]);
      if items[0].U8? && rest.Some? then Some([items[0].byte] + rest.value) else None
  }

  lemma {:induction false} BytesOfBytes(bytes: seq<u8>)
    ensures BytesOf(Bytes(bytes).items) == Some(bytes)
  {
    if bytes != [] {
      BytesOfBytes(bytes[1..]);
      assert Bytes(bytes).items[1..] == Bytes(bytes[1..]).items;
      assert bytes == [bytes[0]] + bytes[1..];
    }
  }

  function StrVec(s: Section, key: string): seq<string> {
    if key in s && s[key].Arr? then TextsOf(s[key].items) else []
  }

  method TakeStrVec(s: Section, key: string) returns (out: seq<string>)
    ensures out == StrVec(s, key)
  {
    out := [];
    if key !in s || !s[key].Arr? {
      return;
    }
    var items := s[key].items;
    var i := 0;
    while i < |items|
      invariant 0 <= i <= |items|
      invariant out == TextsOf(items[..i])
    {
      var item := UnboxVariant(items[i]);
      assert items[..i + 1] == items[..i] + [items[i]];
      TextsOfConcat(items[..i], [items[i]]);
      assert [items[i]][1..] == [];
      if item.Str? {
        out := out + [item.text];
      }
      i := i + 1;
    }
    assert items[..|items|] == items;
  }

  // ----- Decoded profiles

  datatype WifiKeyMgmt = NoKeyMgmt | Wep | WpaPskKey | WpaEapKey | Sae | Owe | OweTransitionMode

  datatype WifiSecuritySummary =
    WifiSecuritySummary(keyMgmt: WifiKeyMgmt, hasPskField: bool, pskAgentOwned: bool, eapMethods: seq<string>)

  /** Hash-map orders and sorting are abstracted: `dataKeys` is the sorted list as a
      multiset, `sections` the listed names as a set. */
  datatype SettingsSummary =
    | Wifi(ssid: string, mode: Option<string>, security: Option<WifiSecuritySummary>, band: Option<string>,
           channel: Option<u32>, bssid: Option<string>, hidden: bool, macRandomization: Option<string>)
    | Ethernet(macAddress: Option<string>, autoNegotiate: Option<bool>, speedMbps: Option<u32>, ethernetMtu: Option<u32>)
    | Vpn(serviceType: string, vpnUserName: Option<string>, vpnPasswordFlags: u32, dataKeys: multiset<string>, persistent: bool)
    | WireGuard(listenPort: Option<u16>, mtu: Option<u32>, fwmark: Option<u32>, peerCount: nat,
                firstPeerEndpoint: Option<string>)
    | Gsm(apn: Option<string>, gsmUserName: Option<string>, gsmPasswordFlags: u32, pinFlags: u32)
    | Cdma(number: Option<string>, cdmaUserName: Option<string>, cdmaPasswordFlags: u32)
    | Bluetooth(bdaddr: string, btType: string)
    | Other(sections: set<string>)

  datatype Saved = Saved(path: string, uuid: string, id: string, connectionType: string, interfaceName: Option<string>,
                         autoconnect: bool, autoconnectPriority: i32, timestampUnix: u64, permissions: seq<string>,
                         unsaved: bool, filename: Option<string>, summary: SettingsSummary)

  datatype SavedBrief = SavedBrief(path: string, uuid: string, id: string, connectionType: string)

  type Decoded<+T> = Result<T, ConnectionError>

  // ----- Decoding

  function Missing<T>(what: string): Decoded<T> {
    Err(MalformedSavedConnection(what))
  }

  function DecodeSaved(path: string, unsaved: bool, filename: Option<string>, settings: Settings): Decoded<Saved> {
    if "connection" !in settings then Missing("connection")
    else
      var conn := settings["connection"];
      if TakeStr(conn, "uuid").None? then Missing("uuid")
      else if TakeStr(conn, "id").None? then Missing("id")
      else if TakeStr(conn, "type").None? then Missing("type")
      else
        Ok(Saved(path, TakeStr(conn, "uuid").value, TakeStr(conn, "id").value, TakeStr(conn, "type").value,
                 NonEmpty(TakeStr(conn, "interface-name")),
                 TakeBool(conn, "autoconnect").GetOr(true),
                 TakeI32(conn, "autoconnect-priority").GetOr(0),
                 TakeU64(conn, "timestamp").GetOr(0),
                 StrVec(conn, "permissions"),
                 unsaved, filename,
                 DecodeSummary(TakeStr(conn, "type").value, settings)))
  }

  function NonEmpty(text: Option<string>): Option<string> {
    if text == Some("") then None else text
  }

  function DecodeSavedBrief(path: string, settings: Settings): Decoded<SavedBrief> {
    if "connection" !in settings then Missing("connection")
    else
      var conn := settings["connection"];
      if TakeStr(conn, "uuid").None? then Missing("uuid")
      else if TakeStr(conn, "id").None? then Missing("id")
      else if TakeStr(conn, "type").None? then Missing("type")
      else Ok(SavedBrief(path, TakeStr(conn, "uuid").value, TakeStr(conn, "id").value, TakeStr(conn, "type").value))
  }

  function DecodeSummary(connType: string, settings: Settings): SettingsSummary {
    if connType == "802-11-wireless" then DecodeWifi(settings)
    else if connType == "802-3-ethernet" then DecodeEthernet(settings)
    else if connType == "wireguard" then DecodeWireguard(settings)
    else if connType == "vpn" then
      if IsWireguardVpnService(settings) then DecodeWireguard(settings) else DecodeVpn(settings)
    else if connType == "gsm" then DecodeGsm(settings)
    else if connType == "cdma" then DecodeCdma(settings)
    else if connType == "bluetooth" then DecodeBluetooth(settings)
    else Other(settings.Keys)
  }

  predicate Contains(s: string, part: string) {
    part <= s || (s != "" && Contains(s[1..], part))
  }

  predicate IsWireguardVpnService(settings: Settings) {
    var service := TakeStr(SectionOf(settings, "vpn"), "service-type");
    service.Some? && Contains(service.value, "wireguard")
  }

  function DecodeWifi(settings: Settings): SettingsSummary {
    var w := SectionOf(settings, "802-11-wireless");
    Wifi(DecodeUtf8(TakeBytes(w, "ssid").GetOr([])).GetOr(""),
         TakeStr(w, "mode"),
         if TakeStr(w, "security").Some? || "802-11-wireless-security" in settings || "802-1x" in settings
         then Some(DecodeWifiSecurity(SectionOf(settings, "802-11-wireless-security"), SectionOf(settings, "802-1x")))
         else None,
         TakeStr(w, "band"),
         TakeU32(w, "channel"),
         TakeStr(w, "bssid"),
         TakeBool(w, "hidden").GetOr(false),
         TakeStr(w, "mac-address-randomization"))
  }

  function KeyMgmtFrom(name: string, hasEap: bool): WifiKeyMgmt {
    if name == "none" then NoKeyMgmt
    else if name == "" then if hasEap then WpaEapKey else NoKeyMgmt
    else if name == "ieee8021x" then WpaEapKey
    else if name == "wpa-none" then Wep
    else if name == "wpa-psk" || name == "wpa-psk-sha256" then WpaPskKey
    else if name == "wpa-eap" || name == "wpa-eap-suite-b-192" || name == "wpa-eap-sha256" then WpaEapKey
    else if name == "sae" || name == "sae-ext" then Sae
    else if name == "owe" then Owe
    else if name == "owe-transition-mode" then OweTransitionMode
    else if Contains(name, "wep") then Wep
    else if hasEap then WpaEapKey
    else NoKeyMgmt
  }

  /** Bit 0 of a secret-flags word. */
  predicate AgentOwned(flags: u32) {
    flags % 2 == 1
  }

  function DecodeWifiSecurity(ws: Section, eap: Section): WifiSecuritySummary {
    WifiSecuritySummary(KeyMgmtFrom(TakeStr(ws, "key-mgmt").GetOr(""), eap != map[]),
                        "psk" in ws,
                        AgentOwned(TakeU32(ws, "psk-flags").GetOr(0)),
                        StrVec(eap, "eap"))
  }

  function DecodeEthernet(settings: Settings): SettingsSummary {
    var e := SectionOf(settings, "802-3-ethernet");
    Ethernet(TakeStr(e, "mac-address"), TakeBool(e, "auto-negotiate"), TakeU32(e, "speed"), TakeU32(e, "mtu"))
  }

  /** The keys of a dictionary that are strings. */
  function StringKeys(entries: seq<(Value, Value)>): seq<string> {
    if entries == [] then []
    else (if entries[0].0.Str? then [entries[0].0.text] else []) + StringKeys(entries[1..])
  }

  function DecodeVpn(settings: Settings): SettingsSummary {
    var v := SectionOf(settings, "vpn");
    Vpn(TakeStr(v, "service-type").GetOr(""),
        TakeStr(v, "user-name"),
        TakeU32(v, "password-flags").GetOr(0),
        if "data" in v && v["data"].Dict? then multiset(StringKeys(v["data"].entries)) else multiset{},
        TakeBool(v, "persistent").GetOr(false))
  }

  /** The first string stored under an "endpoint" key. */
  function FirstEndpoint(entries: seq<(Value, Value)>): Option<string> {
    if entries == [] then None
    else if Unbox(entries[0].0) == Str("endpoint") && Unbox(entries[0].1).Str? then Some(Unbox(entries[0].1).text)
    else FirstEndpoint(entries[1..])
  }

  method FindEndpoint(entries: seq<(Value, Value)>) returns (endpoint: Option<string>)
    ensures endpoint == FirstEndpoint(entries)
  {
    endpoint := None;
    var i := 0;
    while i < |entries|
      invariant 0 <= i <= |entries| && endpoint.None?
      invariant FirstEndpoint(entries) == FirstEndpoint(entries[i..])
    {
      var key := UnboxVariant(entries[i].0);
      var value := UnboxVariant(entries[i].1);
      if key == Str("endpoint") && value.Str? {
        endpoint := Some(value.text);
        break;
      }
      assert entries[i..][1..] == entries[i + 1..];
      i := i + 1;
    }
  }

  function Narrow(n: Option<u32>): Option<u16> {
    if n.Some? && n.value < 0x1_0000 then Some(n.value) else None
  }

  function DecodeWireguard(settings: Settings): SettingsSummary {
    var wg := SectionOf(settings, "wireguard");
    var peers := if "peers" in wg && wg["peers"].Arr? then wg["peers"].items else [];
    WireGuard(Narrow(TakeU32(wg, "listen-port")), TakeU32(wg, "mtu"), TakeU32(wg, "fwmark"),
              |peers|,
              if peers != [] && Unbox(peers[0]).Dict? then FirstEndpoint(Unbox(peers[0]).entries) else None)
  }

  function DecodeGsm(settings: Settings): SettingsSummary {
    var g := SectionOf(settings, "gsm");
    Gsm(TakeStr(g, "apn"), TakeStr(g, "username"), TakeU32(g, "password-flags").GetOr(0), TakeU32(g, "pin-flags").GetOr(0))
  }

  function DecodeCdma(settings: Settings): SettingsSummary {
    var c := SectionOf(settings, "cdma");
    Cdma(TakeStr(c, "number"), TakeStr(c, "username"), TakeU32(c, "password-flags").GetOr(0))
  }

  function DecodeBluetooth(settings: Settings): SettingsSummary {
    var b := SectionOf(settings, "bluetooth");
    Bluetooth(TakeStr(b, "bdaddr").GetOr(""), TakeStr(b, "type").GetOr("panu"))
  }

  /** The brief decoder is the full one with everything but the identity forgotten: it
      accepts the same settings and rejects the others with the same error. */
  lemma BriefAgreesWithFull(path: string, unsaved: bool, filename: Option<string>, settings: Settings)
    ensures DecodeSavedBrief(path, settings) ==
            match DecodeSaved(path, unsaved, filename, settings)
            case Ok(c) => Ok(SavedBrief(c.path, c.uuid, c.id, c.connectionType))
            case Err(e) => Err(e)
  {
  }

  /** A profile decodes exactly when its three identity strings are there. */
  lemma DecodesExactly(path: string, unsaved: bool, filename: Option<string>, settings: Settings)
    ensures DecodeSaved(path, unsaved, filename, settings).Ok? <==>
            var conn := SectionOf(settings, "connection");
            TakeStr(conn, "uuid").Some? && TakeStr(conn, "id").Some? && TakeStr(conn, "type").Some?
  {
  }

  // ----- What a summary says about arbitrary settings

  /** A field is given exactly when the entry is there with a value of its type. */
  predicate StrField(field: Option<string>, v: Option<Value>) {
    field.Some? == (v.Some? && v.value.Str?) && (field.Some? ==> v.value.text == field.value)
  }

  predicate BoolField(field: Option<bool>, v: Option<Value>) {
    field.Some? == (v.Some? && v.value.Bool?) && (field.Some? ==> v.value.flag == field.value)
  }

  predicate U32Field(field: Option<u32>, v: Option<Value>) {
    field.Some? == (v.Some? && v.value.U32?) && (field.Some? ==> v.value.word == field.value)
  }

  predicate U16Field(field: Option<u16>, v: Option<Value>) {
    field.Some? == (v.Some? && v.value.U32? && v.value.word < 0x1_0000) && (field.Some? ==> v.value.word == field.value)
  }

  /** A word or a text with a default for a missing or mistyped entry. */
  predicate WordField(field: u32, v: Option<Value>) {
    field == if v.Some? && v.value.U32? then v.value.word else 0
  }

  predicate TextField(field: string, v: Option<Value>, default: string) {
    field == if v.Some? && v.value.Str? then v.value.text else default
  }

  predicate FlagField(field: bool, v: Option<Value>) {
    field <==> v == Some(Bool(true))
  }

  predicate OccursAt(s: string, part: string, i: nat) {
    i + |part| <= |s| && s[i..i + |part|] == part
  }

  lemma OccursLater(s: string, part: string, i: nat)
    requires s != ""
    ensures OccursAt(s[1..], part, i) <==> OccursAt(s, part, i + 1)
  {
    if i + |part| + 1 <= |s| {
      assert s[1..][i..i + |part|] == s[i + 1..i + 1 + |part|];
    }
  }

  lemma OccursFirst(s: string, part: string)
    ensures OccursAt(s, part, 0) <==> part <= s
  {
  }

  lemma {:induction false} ContainsExactly(s: string, part: string)
    ensures Contains(s, part) <==> exists i: nat :: OccursAt(s, part, i)
  {
    OccursFirst(s, part);
    if s != "" && !(part <= s) {
      ContainsExactly(s[1..], part);
      forall i: nat
        ensures OccursAt(s[1..], part, i) <==> OccursAt(s, part, i + 1)
      {
        OccursLater(s, part, i);
      }
      if i: nat :| OccursAt(s, part, i) {
        assert i > 0 && OccursAt(s[1..], part, i - 1);
      }
    }
  }

  /** The service type is a string that mentions WireGuard. */
  ghost predicate MentionsWireguard(service: Option<Value>) {
    service.Some? && service.value.Str? && exists i: nat :: OccursAt(service.value.text, "wireguard", i)
  }

  predicate EndpointAt(entries: seq<(Value, Value)>, i: nat) {
    i < |entries| && Unbox(entries[i].0) == Str("endpoint") && Unbox(entries[i].1).Str?
  }

  /** The endpoint stands in the first entry that has one. */
  ghost predicate IsFirstEndpoint(entries: seq<(Value, Value)>, endpoint: Option<string>) {
    match endpoint
    case None => forall i: nat :: !EndpointAt(entries, i)
    case Some(text) =>
      exists i: nat :: EndpointAt(entries, i) && Unbox(entries[i].1).text == text
                       && forall j: nat :: j < i ==> !EndpointAt(entries, j)
  }

  lemma {:induction false} FirstEndpointIsFirst(entries: seq<(Value, Value)>)
    ensures IsFirstEndpoint(entries, FirstEndpoint(entries))
  {
    if entries != [] && !EndpointAt(entries, 0) {
      var rest, endpoint := entries[1..], FirstEndpoint(entries[1..]);
      FirstEndpointIsFirst(rest);
      if endpoint.Some? {
        var i: nat :| EndpointAt(rest, i) && Unbox(rest[i].1).text == endpoint.value
                      && forall j: nat :: j < i ==> !EndpointAt(rest, j);
        assert EndpointAt(entries, i + 1);
        forall j: nat | j < i + 1
          ensures !EndpointAt(entries, j)
        {
          assert j > 0 ==> !EndpointAt(rest, j - 1);
        }
      } else {
        forall j: nat
          ensures !EndpointAt(entries, j)
        {
          assert j > 0 ==> !EndpointAt(rest, j - 1);
        }
      }
    } else if entries != [] {
      assert FirstEndpoint(entries) == Some(Unbox(entries[0].1).text);
    }
  }

  /** How many entries have this key. */
  function CountKey(entries: seq<(Value, Value)>, key: string): nat {
    if entries == [] then 0 else (if entries[0].0 == Str(key) then 1 else 0) + CountKey(entries[1..], key)
  }

  lemma {:induction false} StringKeysCount(entries: seq<(Value, Value)>, key: string)
    ensures multiset(StringKeys(entries))[key] == CountKey(entries, key)
  {
    if entries != [] {
      StringKeysCount(entries[1..], key);
    }
  }

  function DictEntries(v: Option<Value>): seq<(Value, Value)> {
    if v.Some? && v.value.Dict? then v.value.entries else []
  }

  function ArrayItems(v: Option<Value>): seq<Value> {
    if v.Some? && v.value.Arr? then v.value.items else []
  }

  /** An SSID that is not empty is given exactly when the entry holds its UTF-8 bytes. */
  ghost predicate SsidField(ssid: string, v: Option<Value>) {
    && (ssid != "" ==> v == Some(Bytes(Utf8(ssid))))
    && forall text :: v == Some(Bytes(Utf8(text))) ==> ssid == text
  }

  lemma {:induction false} BytesOfIsBytes(items: seq<Value>)
    requires BytesOf(items).Some?
    ensures Bytes(BytesOf(items).value) == Arr(items)
  {
    if items != [] {
      BytesOfIsBytes(items[1..]);
      assert Bytes(BytesOf(items).value).items == [items[0]] + Bytes(BytesOf(items[1..]).value).items;
    }
  }

  lemma SsidDecodes(s: Section)
    ensures SsidField(DecodeUtf8(TakeBytes(s, "ssid").GetOr([])).GetOr(""), Get(s, "ssid"))
  {
    var bytes := TakeBytes(s, "ssid").GetOr([]);
    if TakeBytes(s, "ssid").Some? {
      BytesOfIsBytes(s["ssid"].items);
    }
    if DecodeUtf8(bytes).Some? {
      DecodedUtf8IsEncoding(bytes);
    }
    forall text | Get(s, "ssid") == Some(Bytes(Utf8(text)))
      ensures DecodeUtf8(bytes) == Some(text)
    {
      BytesOfBytes(Utf8(text));
      Utf8RoundTrip(text);
    }
  }

  const KEY_MGMT_NAMES := {"none", "", "ieee8021x", "wpa-none", "wpa-psk", "wpa-psk-sha256", "wpa-eap",
                           "wpa-eap-suite-b-192", "wpa-eap-sha256", "sae", "sae-ext", "owe", "owe-transition-mode"}

  /** An unlisted name in which "wep" occurs, and one in which it does not. */
  ghost predicate UnlistedWep(name: string) {
    name !in KEY_MGMT_NAMES && exists i: nat :: OccursAt(name, "wep", i)
  }

  ghost predicate Unlisted(name: string) {
    name !in KEY_MGMT_NAMES && forall i: nat :: !OccursAt(name, "wep", i)
  }

  /** Which names stand for which key management; an empty or unlisted name is decided by
      whether there is anything in the 802.1X section. */
  ghost predicate KeyMgmtNamed(keyMgmt: WifiKeyMgmt, name: string, hasEap: bool) {
    && (keyMgmt == Sae <==> name in {"sae", "sae-ext"})
    && (keyMgmt == Owe <==> name == "owe") && (keyMgmt == OweTransitionMode <==> name == "owe-transition-mode")
    && (keyMgmt == WpaPskKey <==> name in {"wpa-psk", "wpa-psk-sha256"})
    && (keyMgmt == Wep <==> name == "wpa-none" || UnlistedWep(name))
    && (keyMgmt == WpaEapKey <==>
          name in {"wpa-eap", "wpa-eap-suite-b-192", "wpa-eap-sha256", "ieee8021x"}
          || (hasEap && (name == "" || Unlisted(name))))
    && (keyMgmt == NoKeyMgmt <==> name == "none" || (!hasEap && (name == "" || Unlisted(name))))
  }

  lemma ListedKeyMgmt(name: string, hasEap: bool)
    requires name in KEY_MGMT_NAMES
    ensures KeyMgmtNamed(KeyMgmtFrom(name, hasEap), name, hasEap)
  {
  }

  /** A name not in the list is decided by what occurs in it and by the 802.1X section. */
  function UnlistedClass(wep: bool, hasEap: bool): WifiKeyMgmt {
    if wep then Wep else if hasEap then WpaEapKey else NoKeyMgmt
  }

  lemma UnlistedKeyMgmt(name: string, hasEap: bool)
    requires name !in KEY_MGMT_NAMES
    ensures KeyMgmtFrom(name, hasEap) == UnlistedClass(Contains(name, "wep"), hasEap)
  {
  }

  lemma UnlistedNamed(name: string, wep: bool, hasEap: bool)
    requires name !in KEY_MGMT_NAMES && (wep <==> exists i: nat :: OccursAt(name, "wep", i))
    ensures KeyMgmtNamed(UnlistedClass(wep, hasEap), name, hasEap)
  {
  }

  lemma KeyMgmtSpelledOut(name: string, hasEap: bool)
    ensures KeyMgmtNamed(KeyMgmtFrom(name, hasEap), name, hasEap)
  {
    if name in KEY_MGMT_NAMES {
      ListedKeyMgmt(name, hasEap);
    } else {
      ContainsExactly(name, "wep");
      UnlistedKeyMgmt(name, hasEap);
      UnlistedNamed(name, Contains(name, "wep"), hasEap);
    }
  }

  ghost predicate DescribesSecurity(security: WifiSecuritySummary, settings: Settings) {
    var name, flags := Lookup(settings, "802-11-wireless-security", "key-mgmt"),
                       Lookup(settings, "802-11-wireless-security", "psk-flags");
    && KeyMgmtNamed(security.keyMgmt, if name.Some? && name.value.Str? then name.value.text else "",
                    SectionOf(settings, "802-1x") != map[])
    && (security.hasPskField <==> Lookup(settings, "802-11-wireless-security", "psk").Some?)
    && (security.pskAgentOwned <==> flags.Some? && flags.value.U32? && flags.value.word % 2 == 1)
    && security.eapMethods == TextsOf(ArrayItems(Lookup(settings, "802-1x", "eap")))
  }

  /** What the decoded summary says, entry by entry, whatever the settings hold. */
  ghost predicate Describes(summary: SettingsSummary, settings: Settings) {
    match summary
    case Wifi(ssid, mode, security, band, channel, bssid, hidden, macRandomization) =>
      var w := "802-11-wireless";
      && StrField(mode, Lookup(settings, w, "mode")) && StrField(band, Lookup(settings, w, "band"))
      && U32Field(channel, Lookup(settings, w, "channel")) && StrField(bssid, Lookup(settings, w, "bssid"))
      && FlagField(hidden, Lookup(settings, w, "hidden"))
      && StrField(macRandomization, Lookup(settings, w, "mac-address-randomization"))
      && SsidField(ssid, Lookup(settings, w, "ssid"))
      && (security.Some? <==> WifiSecured(settings))
      && (security.Some? ==> DescribesSecurity(security.value, settings))
    case Ethernet(mac, negotiate, speed, mtu) =>
      var e := "802-3-ethernet";
      && StrField(mac, Lookup(settings, e, "mac-address")) && BoolField(negotiate, Lookup(settings, e, "auto-negotiate"))
      && U32Field(speed, Lookup(settings, e, "speed")) && U32Field(mtu, Lookup(settings, e, "mtu"))
    case Vpn(service, user, flags, keys, persistent) =>
      && TextField(service, Lookup(settings, "vpn", "service-type"), "")
      && StrField(user, Lookup(settings, "vpn", "user-name")) && WordField(flags, Lookup(settings, "vpn", "password-flags"))
      && FlagField(persistent, Lookup(settings, "vpn", "persistent"))
      && forall key :: keys[key] == CountKey(DictEntries(Lookup(settings, "vpn", "data")), key)
    case WireGuard(port, mtu, fwmark, count, endpoint) =>
      var peers := ArrayItems(Lookup(settings, "wireguard", "peers"));
      && U16Field(port, Lookup(settings, "wireguard", "listen-port"))
      && U32Field(mtu, Lookup(settings, "wireguard", "mtu")) && U32Field(fwmark, Lookup(settings, "wireguard", "fwmark"))
      && count == |peers|
      && IsFirstEndpoint(if peers == [] then [] else DictEntries(Some(Unbox(peers[0]))), endpoint)
    case Gsm(apn, user, passwordFlags, pinFlags) =>
      && StrField(apn, Lookup(settings, "gsm", "apn")) && StrField(user, Lookup(settings, "gsm", "username"))
      && WordField(passwordFlags, Lookup(settings, "gsm", "password-flags"))
      && WordField(pinFlags, Lookup(settings, "gsm", "pin-flags"))
    case Cdma(number, user, flags) =>
      && StrField(number, Lookup(settings, "cdma", "number")) && StrField(user, Lookup(settings, "cdma", "username"))
      && WordField(flags, Lookup(settings, "cdma", "password-flags"))
    case Bluetooth(bdaddr, btType) =>
      && TextField(bdaddr, Lookup(settings, "bluetooth", "bdaddr"), "")
      && TextField(btType, Lookup(settings, "bluetooth", "type"), "panu")
    case Other(sections) => sections == settings.Keys
  }

  /** A security section is there, or the wireless section names one. */
  predicate WifiSecured(settings: Settings) {
    var link := Lookup(settings, "802-11-wireless", "security");
    (link.Some? && link.value.Str?) || "802-11-wireless-security" in settings || "802-1x" in settings
  }

  /** The kind of summary a connection type gets; a VPN service that mentions WireGuard is
      one, wherever in its name. */
  ghost predicate RightKind(summary: SettingsSummary, connType: string, settings: Settings) {
    var wireguard := connType == "wireguard"
                     || (connType == "vpn" && MentionsWireguard(Lookup(settings, "vpn", "service-type")));
    && (summary.Wifi? <==> connType == "802-11-wireless") && (summary.Ethernet? <==> connType == "802-3-ethernet")
    && (summary.WireGuard? <==> wireguard) && (summary.Vpn? <==> connType == "vpn" && !wireguard)
    && (summary.Gsm? <==> connType == "gsm") && (summary.Cdma? <==> connType == "cdma")
    && (summary.Bluetooth? <==> connType == "bluetooth")
  }

  lemma SummaryKind(connType: string, settings: Settings)
    ensures RightKind(DecodeSummary(connType, settings), connType, settings)
  {
    var service := Lookup(settings, "vpn", "service-type");
    if service.Some? && service.value.Str? {
      ContainsExactly(service.value.text, "wireguard");
    }
  }

  lemma WireguardDescribes(settings: Settings)
    ensures Describes(DecodeWireguard(settings), settings)
  {
    var peers := ArrayItems(Lookup(settings, "wireguard", "peers"));
    FirstEndpointIsFirst(if peers == [] then [] else DictEntries(Some(Unbox(peers[0]))));
  }

  lemma VpnDescribes(settings: Settings)
    ensures Describes(DecodeVpn(settings), settings)
  {
    forall key
      ensures multiset(StringKeys(DictEntries(Lookup(settings, "vpn", "data"))))[key]
           == CountKey(DictEntries(Lookup(settings, "vpn", "data")), key)
    {
      StringKeysCount(DictEntries(Lookup(settings, "vpn", "data")), key);
    }
  }

  lemma SecurityDescribes(settings: Settings)
    ensures DescribesSecurity(DecodeWifiSecurity(SectionOf(settings, "802-11-wireless-security"), SectionOf(settings, "802-1x")),
                              settings)
  {
    var name := TakeStr(SectionOf(settings, "802-11-wireless-security"), "key-mgmt").GetOr("");
    KeyMgmtSpelledOut(name, SectionOf(settings, "802-1x") != map[]);
  }

  lemma WirelessTakes(settings: Settings)
    ensures var (section, w) := ("802-11-wireless", SectionOf(settings, "802-11-wireless"));
            && StrField(TakeStr(w, "mode"), Lookup(settings, section, "mode"))
            && StrField(TakeStr(w, "band"), Lookup(settings, section, "band"))
            && U32Field(TakeU32(w, "channel"), Lookup(settings, section, "channel"))
            && StrField(TakeStr(w, "bssid"), Lookup(settings, section, "bssid"))
            && FlagField(TakeBool(w, "hidden").GetOr(false), Lookup(settings, section, "hidden"))
            && StrField(TakeStr(w, "mac-address-randomization"), Lookup(settings, section, "mac-address-randomization"))
  {
  }

  lemma WifiDescribes(settings: Settings)
    ensures Describes(DecodeWifi(settings), settings)
  {
    WirelessTakes(settings);
    SsidDecodes(SectionOf(settings, "802-11-wireless"));
    SecurityDescribes(settings);
  }

  lemma WiredDescribes(settings: Settings)
    ensures Describes(DecodeEthernet(settings), settings) && Describes(DecodeBluetooth(settings), settings)
  {
  }

  lemma MobileDescribes(settings: Settings)
    ensures Describes(DecodeGsm(settings), settings) && Describes(DecodeCdma(settings), settings)
  {
  }

  /** For arbitrary settings and every connection type: the summary is of the right kind, and
      each of its fields is given exactly when its entry is there with a value of the right
      type; missing and mistyped entries fall back to the field's default. */
  lemma SummaryFieldsExactly(connType: string, settings: Settings)
    ensures RightKind(DecodeSummary(connType, settings), connType, settings)
    ensures Describes(DecodeSummary(connType, settings), settings)
  {
    SummaryKind(connType, settings);
    WifiDescribes(settings);
    WireguardDescribes(settings);
    VpnDescribes(settings);
    WiredDescribes(settings);
    MobileDescribes(settings);
  }

  /** The interface name is given exactly when its entry is a string that is not empty. */
  predicate NonEmptyField(field: Option<string>, v: Option<Value>) {
    field.Some? == (v.Some? && v.value.Str? && v.value.text != "") && (field.Some? ==> v.value.text == field.value)
  }

  /** For arbitrary settings that decode: each general field comes from its own entry of the
      connection section, with autoconnect on, priority and timestamp 0, and no permissions
      when the entry is missing or of another type; the rest is passed through. */
  lemma SavedFieldsExactly(path: string, unsaved: bool, filename: Option<string>, settings: Settings)
    requires DecodeSaved(path, unsaved, filename, settings).Ok?
    ensures var c := DecodeSaved(path, unsaved, filename, settings).value;
            && Lookup(settings, "connection", "uuid") == Some(Str(c.uuid)) && Lookup(settings, "connection", "id") == Some(Str(c.id))
            && Lookup(settings, "connection", "type") == Some(Str(c.connectionType))
            && NonEmptyField(c.interfaceName, Lookup(settings, "connection", "interface-name"))
            && (c.autoconnect <==> Lookup(settings, "connection", "autoconnect") != Some(Bool(false)))
            && c.permissions == TextsOf(ArrayItems(Lookup(settings, "connection", "permissions")))
            && c.path == path && c.unsaved == unsaved && c.filename == filename
            && c.summary == DecodeSummary(c.connectionType, settings)
    ensures var c := DecodeSaved(path, unsaved, filename, settings).value;
            var priority, timestamp := Lookup(settings, "connection", "autoconnect-priority"),
                                       Lookup(settings, "connection", "timestamp");
            && c.autoconnectPriority == (if priority.Some? && priority.value.I32? then priority.value.signed else 0)
            && c.timestampUnix == (if timestamp.Some? && timestamp.value.U64? then timestamp.value.long else 0)
  {
  }

  // ----- Patches

  datatype SettingsPatch = SettingsPatch(autoconnect: Option<bool>, autoconnectPriority: Option<i32>, id: Option<string>,
                                         interfaceName: Option<Option<string>>, rawOverlay: Option<Settings>)

  /** What the typed fields of a patch say about one key of the `connection` section. */
  function TypedField(patch: SettingsPatch, key: string): Option<Value> {
    if key == "autoconnect" && patch.autoconnect.Some? then Some(Bool(patch.autoconnect.value))
    else if key == "autoconnect-priority" && patch.autoconnectPriority.Some? then Some(I32(patch.autoconnectPriority.value))
    else if key == "id" && patch.id.Some? then Some(Str(patch.id.value))
    else if key == "interface-name" && patch.interfaceName.Some? then Some(Str(patch.interfaceName.value.GetOr("")))
    else None
  }

  const TYPED_KEYS := {"autoconnect", "autoconnect-priority", "id", "interface-name"}

  predicate HasTypedField(patch: SettingsPatch) {
    patch.autoconnect.Some? || patch.autoconnectPriority.Some? || patch.id.Some? || patch.interfaceName.Some?
  }

  function TypedDelta(patch: SettingsPatch): Settings {
    if HasTypedField(patch)
    then map["connection" := map key | key in TYPED_KEYS && TypedField(patch, key).Some? :: TypedField(patch, key).value]
    else map[]
  }

  function PatchDelta(patch: SettingsPatch): Settings {
    Merged(TypedDelta(patch), patch.rawOverlay.GetOr(map[]))
  }

  method BuildSettingsPatchDelta(patch: SettingsPatch) returns (delta: Settings)
    ensures delta == PatchDelta(patch)
  {
    delta := BuildTypedDelta(patch);
    if patch.rawOverlay.Some? {
      var building := new Profile(delta);
      building.MergeSettingsPatchDelta(patch.rawOverlay.value);
      delta := building.settings;
    } else {
      MergeNothing(delta);
    }
  }

  function InsertSome(delta: Settings, key: string, value: Option<Value>): Settings {
    if value.Some? then Insert(delta, "connection", key, value.value) else delta
  }

  method BuildTypedDelta(patch: SettingsPatch) returns (delta: Settings)
    ensures delta == TypedDelta(patch)
  {
    delta := map[];
    if patch.autoconnect.Some? {
      delta := Insert(delta, "connection", "autoconnect", Bool(patch.autoconnect.value));
    }
    if patch.autoconnectPriority.Some? {
      delta := Insert(delta, "connection", "autoconnect-priority", I32(patch.autoconnectPriority.value));
    }
    assert delta == InsertSome(InsertSome(map[], "autoconnect", TypedField(patch, "autoconnect")),
                               "autoconnect-priority", TypedField(patch, "autoconnect-priority"));
    if patch.id.Some? {
      delta := Insert(delta, "connection", "id", Str(patch.id.value));
    }
    if patch.interfaceName.Some? {
      // Clearing the name is done with an empty string.
      delta := Insert(delta, "connection", "interface-name", Str(patch.interfaceName.value.GetOr("")));
    }
    InsertedIsTyped(patch);
  }

  function Inserted(patch: SettingsPatch): Settings {
    InsertSome(InsertSome(InsertSome(InsertSome(map[], "autoconnect", TypedField(patch, "autoconnect")),
                                     "autoconnect-priority", TypedField(patch, "autoconnect-priority")),
                          "id", TypedField(patch, "id")),
               "interface-name", TypedField(patch, "interface-name"))
  }

  lemma InsertSomeLookup(delta: Settings, key: string, value: Option<Value>, section: string, other: string)
    ensures InsertSome(delta, key, value).Keys == delta.Keys + if value.Some? then {"connection"} else {}
    ensures Lookup(InsertSome(delta, key, value), section, other) ==
            if section == "connection" && other == key && value.Some? then value else Lookup(delta, section, other)
  {
  }

  lemma InsertedLookup(patch: SettingsPatch, section: string, key: string)
    ensures Inserted(patch).Keys == TypedDelta(patch).Keys
    ensures Lookup(Inserted(patch), section, key) == Lookup(TypedDelta(patch), section, key)
  {
    var one := InsertSome(map[], "autoconnect", TypedField(patch, "autoconnect"));
    var two := InsertSome(one, "autoconnect-priority", TypedField(patch, "autoconnect-priority"));
    var three := InsertSome(two, "id", TypedField(patch, "id"));
    InsertSomeLookup(map[], "autoconnect", TypedField(patch, "autoconnect"), section, key);
    InsertSomeLookup(one, "autoconnect-priority", TypedField(patch, "autoconnect-priority"), section, key);
    InsertSomeLookup(two, "id", TypedField(patch, "id"), section, key);
    InsertSomeLookup(three, "interface-name", TypedField(patch, "interface-name"), section, key);
    TypedDeltaLookup(patch, section, key);
  }

  lemma InsertedIsTyped(patch: SettingsPatch)
    ensures Inserted(patch) == TypedDelta(patch)
  {
    forall section, key
      ensures Lookup(Inserted(patch), section, key) == Lookup(TypedDelta(patch), section, key)
    {
      InsertedLookup(patch, section, key);
    }
    InsertedLookup(patch, "connection", "id");
    SameLookups(Inserted(patch), TypedDelta(patch));
  }

  lemma TypedDeltaLookup(patch: SettingsPatch, section: string, key: string)
    ensures TypedDelta(patch).Keys == if HasTypedField(patch) then {"connection"} else {}
    ensures Lookup(TypedDelta(patch), section, key) == if section == "connection" then TypedField(patch, key) else None
  {
  }

  /** Every lookup in a patched profile is answered by the overlay if it speaks, else by
      the typed field, else by the original; no section is lost. */
  lemma PatchPrecedence(settings: Settings, patch: SettingsPatch, section: string, key: string)
    ensures var overlay := patch.rawOverlay.GetOr(map[]);
            var patched := Merged(settings, PatchDelta(patch));
            && patched.Keys == settings.Keys + (if HasTypedField(patch) then {"connection"} else {}) + overlay.Keys
            && Lookup(patched, section, key) ==
               if Lookup(overlay, section, key).Some? then Lookup(overlay, section, key)
               else if section == "connection" && TypedField(patch, key).Some? then TypedField(patch, key)
               else Lookup(settings, section, key)
  {
    TypedDeltaLookup(patch, section, key);
    MergeLookup(TypedDelta(patch), patch.rawOverlay.GetOr(map[]), section, key);
    MergeLookup(settings, PatchDelta(patch), section, key);
  }

  /** A delta is empty, and the update skipped, exactly when the patch says nothing. */
  lemma EmptyDeltaExactly(patch: SettingsPatch)
    ensures PatchDelta(patch) == map[] <==> !HasTypedField(patch) && patch.rawOverlay.GetOr(map[]) == map[]
  {
    TypedDeltaLookup(patch, "connection", "id");
    assert PatchDelta(patch).Keys == TypedDelta(patch).Keys + patch.rawOverlay.GetOr(map[]).Keys;
    assert forall m: Settings :: m == map[] <==> m.Keys == {};
  }

  datatype UpdateCall = UpdateUnsaved(settings: Settings) | Update(settings: Settings)

  /** What NetworkManager answers: whether the uuid is known, the stored settings and the
      unsaved flag where they could be read, and whether it accepts the update. */
  datatype UpdateAnswers = UpdateAnswers(found: bool, settings: Option<Settings>, unsaved: Option<bool>, accepted: bool)

  /** What is sent, if anything is, is the stored settings with the patch merged in, to the
      call that the unsaved flag selects.  Nothing is sent for an empty patch, which is a
      success, or after a failed read, which is not. */
  method UpdateSavedConnection(answers: UpdateAnswers, patch: SettingsPatch)
      returns (result: Decoded<()>, sent: Option<UpdateCall>)
    ensures sent.Some? <==>
            answers.found && PatchDelta(patch) != map[] && answers.settings.Some? && answers.unsaved.Some?
    ensures sent.Some? ==>
              var merged := Merged(answers.settings.value, PatchDelta(patch));
              sent.value == if answers.unsaved.value then UpdateUnsaved(merged) else Update(merged)
    ensures result.Ok? <==> answers.found && (PatchDelta(patch) == map[] || (sent.Some? && answers.accepted))
    ensures result.Err? ==> result.error == if answers.found then Dbus else SavedConnectionNotFound
  {
    if !answers.found {
      return Err(SavedConnectionNotFound), None;
    }
    var delta := BuildSettingsPatchDelta(patch);
    if delta == map[] {
      return Ok(()), None;
    }
    if answers.settings.None? {
      return Err(Dbus), None;
    }
    var profile := new Profile(answers.settings.value);
    profile.MergeSettingsPatchDelta(delta);
    if answers.unsaved.None? {
      return Err(Dbus), None;
    }
    sent := Some(if answers.unsaved.value then UpdateUnsaved(profile.settings) else Update(profile.settings));
    result := if answers.accepted then Ok(()) else Err(Dbus);
  }

  // ----- What a patch changes in what is decoded

  ghost predicate SameAt(a: Settings, b: Settings, section: string, keys: set<string>) {
    forall key :: key in keys ==> Lookup(a, section, key) == Lookup(b, section, key)
  }

  const WIRELESS_KEYS := {"ssid", "mode", "band", "channel", "bssid", "hidden", "mac-address-randomization", "security"}
  const VPN_KEYS := {"service-type", "user-name", "password-flags", "data", "persistent"}
  const WIREGUARD_KEYS := {"listen-port", "mtu", "fwmark", "peers"}

  /** The entries that the summary of a connection type is read from. */
  ghost predicate ReadsAlike(connType: string, a: Settings, b: Settings) {
    if connType == "802-11-wireless" then
      && SameAt(a, b, "802-11-wireless", WIRELESS_KEYS)
      && SameAt(a, b, "802-11-wireless-security", {"key-mgmt", "psk", "psk-flags"}) && SameAt(a, b, "802-1x", {"eap"})
      && ("802-11-wireless-security" in a <==> "802-11-wireless-security" in b) && ("802-1x" in a <==> "802-1x" in b)
      && (SectionOf(a, "802-1x") == map[] <==> SectionOf(b, "802-1x") == map[])
    else if connType == "802-3-ethernet" then SameAt(a, b, connType, {"mac-address", "auto-negotiate", "speed", "mtu"})
    else if connType == "wireguard" then SameAt(a, b, connType, WIREGUARD_KEYS)
    else if connType == "vpn" then
      && SameAt(a, b, "vpn", VPN_KEYS)
      && SameAt(a, b, "wireguard", WIREGUARD_KEYS)
    else if connType == "gsm" then SameAt(a, b, connType, {"apn", "username", "password-flags", "pin-flags"})
    else if connType == "cdma" then SameAt(a, b, connType, {"number", "username", "password-flags"})
    else if connType == "bluetooth" then SameAt(a, b, connType, {"bdaddr", "type"})
    else a.Keys == b.Keys
  }

  lemma SameTakes(a: Settings, b: Settings, section: string, keys: set<string>)
    requires SameAt(a, b, section, keys)
    ensures var (s, t) := (SectionOf(a, section), SectionOf(b, section));
            forall key :: key in keys ==>
              TakeStr(s, key) == TakeStr(t, key) && TakeBool(s, key) == TakeBool(t, key)
              && TakeU32(s, key) == TakeU32(t, key) && TakeBytes(s, key) == TakeBytes(t, key)
              && StrVec(s, key) == StrVec(t, key) && Get(s, key) == Get(t, key)
  {
    forall key | key in keys
      ensures Get(SectionOf(a, section), key) == Get(SectionOf(b, section), key)
    {
      assert Lookup(a, section, key) == Lookup(b, section, key);
    }
  }

  lemma WifiReadsOnly(a: Settings, b: Settings)
    requires ReadsAlike("802-11-wireless", a, b)
    ensures DecodeWifi(a) == DecodeWifi(b)
  {
    SameTakes(a, b, "802-11-wireless", WIRELESS_KEYS);
    SameTakes(a, b, "802-11-wireless-security", {"key-mgmt", "psk", "psk-flags"});
    SameTakes(a, b, "802-1x", {"eap"});
    assert Get(SectionOf(a, "802-11-wireless-security"), "psk") == Get(SectionOf(b, "802-11-wireless-security"), "psk");
  }

  lemma WireguardReadsOnly(a: Settings, b: Settings)
    requires SameAt(a, b, "wireguard", WIREGUARD_KEYS)
    ensures DecodeWireguard(a) == DecodeWireguard(b)
  {
    SameTakes(a, b, "wireguard", WIREGUARD_KEYS);
    assert Get(SectionOf(a, "wireguard"), "peers") == Get(SectionOf(b, "wireguard"), "peers");
  }

  lemma VpnReadsOnly(a: Settings, b: Settings)
    requires SameAt(a, b, "vpn", VPN_KEYS)
    ensures DecodeVpn(a) == DecodeVpn(b) && IsWireguardVpnService(a) == IsWireguardVpnService(b)
  {
    SameTakes(a, b, "vpn", VPN_KEYS);
    assert Get(SectionOf(a, "vpn"), "data") == Get(SectionOf(b, "vpn"), "data");
  }

  /** A summary depends on nothing but the named entries of its own sections. */
  lemma SummaryReadsOnly(connType: string, a: Settings, b: Settings)
    requires ReadsAlike(connType, a, b)
    ensures DecodeSummary(connType, a) == DecodeSummary(connType, b)
  {
    if connType == "802-11-wireless" {
      WifiReadsOnly(a, b);
    } else if connType == "wireguard" {
      WireguardReadsOnly(a, b);
    } else if connType == "vpn" {
      WireguardReadsOnly(a, b);
      VpnReadsOnly(a, b);
    } else if connType in {"802-3-ethernet", "gsm", "cdma", "bluetooth"} {
      DeviceReadsOnly(connType, a, b);
    }
  }

  lemma DeviceReadsOnly(connType: string, a: Settings, b: Settings)
    requires ReadsAlike(connType, a, b) && connType in {"802-3-ethernet", "gsm", "cdma", "bluetooth"}
    ensures DecodeSummary(connType, a) == DecodeSummary(connType, b)
  {
    if connType == "802-3-ethernet" {
      SameTakes(a, b, connType, {"mac-address", "auto-negotiate", "speed", "mtu"});
    } else if connType == "gsm" {
      SameTakes(a, b, connType, {"apn", "username", "password-flags", "pin-flags"});
    } else if connType == "cdma" {
      SameTakes(a, b, connType, {"number", "username", "password-flags"});
    } else {
      SameTakes(a, b, connType, {"bdaddr", "type"});
    }
  }

  /** The two agree on every section but `connection`, which both have. */
  ghost predicate SameButConnection(a: Settings, b: Settings) {
    a.Keys == b.Keys && forall section :: section != "connection" ==> SectionOf(a, section) == SectionOf(b, section)
  }

  /** No summary of any connection type looks into the `connection` section. */
  lemma SummaryIgnoresConnection(connType: string, a: Settings, b: Settings)
    requires SameButConnection(a, b)
    ensures DecodeSummary(connType, a) == DecodeSummary(connType, b)
  {
    assert forall section, key :: section != "connection" ==> Lookup(a, section, key) == Lookup(b, section, key);
    SummaryReadsOnly(connType, a, b);
  }

  /** A decoded profile with exactly the patched fields replaced. */
  function Patched(c: Saved, patch: SettingsPatch): Saved {
    c.(id := patch.id.GetOr(c.id),
       autoconnect := patch.autoconnect.GetOr(c.autoconnect),
       autoconnectPriority := patch.autoconnectPriority.GetOr(c.autoconnectPriority),
       interfaceName := if patch.interfaceName.Some? then NonEmpty(patch.interfaceName.value) else c.interfaceName)
  }

  lemma PatchedConnection(settings: Settings, patch: SettingsPatch, key: string)
    requires patch.rawOverlay.None? && "connection" in settings
    ensures var patched := Merged(settings, PatchDelta(patch));
            && "connection" in patched
            && Get(patched["connection"], key) ==
               if TypedField(patch, key).Some? then TypedField(patch, key) else Get(settings["connection"], key)
  {
  }

  lemma PatchedElsewhere(settings: Settings, patch: SettingsPatch)
    requires patch.rawOverlay.None? && "connection" in settings
    ensures SameButConnection(settings, Merged(settings, PatchDelta(patch)))
  {
  }

  lemma PatchedIdentity(settings: Settings, patch: SettingsPatch)
    requires patch.rawOverlay.None? && "connection" in settings
    ensures var (conn, patched) := (settings["connection"], SectionOf(Merged(settings, PatchDelta(patch)), "connection"));
            && TakeStr(patched, "uuid") == TakeStr(conn, "uuid") && TakeStr(patched, "type") == TakeStr(conn, "type")
            && TakeStr(patched, "id") == (if patch.id.Some? then patch.id else TakeStr(conn, "id"))
  {
    PatchedConnection(settings, patch, "uuid");
    PatchedConnection(settings, patch, "type");
    PatchedConnection(settings, patch, "id");
  }

  lemma PatchedFields(settings: Settings, patch: SettingsPatch)
    requires patch.rawOverlay.None? && "connection" in settings
    ensures var (conn, patched) := (settings["connection"], SectionOf(Merged(settings, PatchDelta(patch)), "connection"));
            && TakeBool(patched, "autoconnect")
               == (if patch.autoconnect.Some? then patch.autoconnect else TakeBool(conn, "autoconnect"))
            && TakeI32(patched, "autoconnect-priority")
               == (if patch.autoconnectPriority.Some? then patch.autoconnectPriority else TakeI32(conn, "autoconnect-priority"))
            && TakeU64(patched, "timestamp") == TakeU64(conn, "timestamp")
            && StrVec(patched, "permissions") == StrVec(conn, "permissions")
  {
    PatchedConnection(settings, patch, "autoconnect");
    PatchedConnection(settings, patch, "autoconnect-priority");
    PatchedConnection(settings, patch, "timestamp");
    PatchedConnection(settings, patch, "permissions");
  }

  lemma PatchedInterface(settings: Settings, patch: SettingsPatch)
    requires patch.rawOverlay.None? && "connection" in settings
    ensures var (conn, patched) := (settings["connection"], SectionOf(Merged(settings, PatchDelta(patch)), "connection"));
            NonEmpty(TakeStr(patched, "interface-name"))
            == if patch.interfaceName.Some? then NonEmpty(patch.interfaceName.value) else NonEmpty(TakeStr(conn, "interface-name"))
  {
  }

  /** Patching a profile that decodes, without an overlay, changes exactly the patched
      fields of what is decoded; a cleared or empty interface name decodes to none, and the
      uuid, type, permissions, timestamp and the type-specific summary stay. */
  lemma PatchThenDecode(path: string, unsaved: bool, filename: Option<string>, settings: Settings, patch: SettingsPatch)
    requires patch.rawOverlay.None?
    requires DecodeSaved(path, unsaved, filename, settings).Ok?
    ensures DecodeSaved(path, unsaved, filename, Merged(settings, PatchDelta(patch)))
         == Ok(Patched(DecodeSaved(path, unsaved, filename, settings).value, patch))
  {
    var patched := Merged(settings, PatchDelta(patch));
    PatchedIdentity(settings, patch);
    PatchedFields(settings, patch);
    PatchedInterface(settings, patch);
    PatchedElsewhere(settings, patch);
    SummaryIgnoresConnection(TakeStr(settings["connection"], "type").value, settings, patched);
  }

  /** The entry of the `connection` section that wins; a missing one is no string. */
  function Final(settings: Settings, patch: SettingsPatch, key: string): Value {
    var overlay := Lookup(patch.rawOverlay.GetOr(map[]), "connection", key);
    if overlay.Some? then overlay.value
    else TypedField(patch, key).GetOr(Lookup(settings, "connection", key).GetOr(Foreign(0)))
  }

  lemma FinalDecodes(settings: Settings, patch: SettingsPatch, key: string)
    ensures TakeStr(SectionOf(Merged(settings, PatchDelta(patch)), "connection"), key) == AsStr(Final(settings, patch, key))
  {
    PatchPrecedence(settings, patch, "connection", key);
  }

  /** Any patch at all: the merged settings decode exactly when, after overlay and typed
      fields have spoken, the three identity entries are strings. */
  lemma PatchedDecodesExactly(path: string, unsaved: bool, filename: Option<string>, settings: Settings, patch: SettingsPatch)
    ensures DecodeSaved(path, unsaved, filename, Merged(settings, PatchDelta(patch))).Ok? <==>
            && Final(settings, patch, "uuid").Str? && Final(settings, patch, "id").Str? && Final(settings, patch, "type").Str?
  {
    DecodesExactly(path, unsaved, filename, Merged(settings, PatchDelta(patch)));
    FinalDecodes(settings, patch, "uuid");
    FinalDecodes(settings, patch, "id");
    FinalDecodes(settings, patch, "type");
  }
}
