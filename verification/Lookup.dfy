/** Read-only lookups made before a connection is attempted.  Each works on what
    NetworkManager answered, in the order it answered, and any answer may be a failure. */
module Lookup {
  import opened Wrappers
  import opened Errors
  import opened Text
  import opened WifiSecurity

  /** A D-Bus object path. */
  type Path = string

  // ----- Saved profiles

  /** `None` stands for a failed `GetSettings`; the fields are `connection.id` and
      `connection.uuid` where they are strings. */
  datatype ProfileAnswer = ProfileAnswer(path: Path, settings: Option<(Option<string>, Option<string>)>)

  predicate Matches(p: ProfileAnswer, name: string) {
    p.settings.Some? && p.settings.value.0 == Some(name) && p.settings.value.1.Some?
  }

  /** The first profile whose id is `name`; a profile that cannot be read ends the search. */
  method FindSavedConnectionByName(profiles: Option<seq<ProfileAnswer>>, name: string)
      returns (r: Checked<Option<Path>>)
    ensures r == SavedConnectionPath(profiles, name)
  {
    if profiles.None? {
      return Err(Dbus);
    }
    var i := 0;
    while i < |profiles.value|
      invariant 0 <= i <= |profiles.value|
      invariant forall j :: 0 <= j < i ==> profiles.value[j].settings.Some? && !Matches(profiles.value[j], name)
      invariant SavedConnectionPath(profiles, name) == FirstMatch(profiles.value[i..], name)
    {
      if profiles.value[i].settings.None? {
        return Err(Dbus);
      }
      if Matches(profiles.value[i], name) {
        return Ok(Some(profiles.value[i].path));
      }
      assert profiles.value[i..][1..] == profiles.value[i + 1..];
      i := i + 1;
    }
    return Ok(None);
  }

  function SavedConnectionPath(profiles: Option<seq<ProfileAnswer>>, name: string): Checked<Option<Path>> {
    if profiles.None? then Err(Dbus) else FirstMatch(profiles.value, name)
  }

  function FirstMatch(profiles: seq<ProfileAnswer>, name: string): (r: Checked<Option<Path>>)
    ensures r.Err? ==> r.error == Dbus
  {
    if profiles == [] then Ok(None)
    else if profiles[0].settings.None? then Err(Dbus)
    else if Matches(profiles[0], name) then Ok(Some(profiles[0].path))
    else FirstMatch(profiles[1..], name)
  }

  /** The profile has a uuid, and its id is `name`. */
  ghost predicate IsNamed(p: ProfileAnswer, name: string) {
    exists uuid :: p.settings == Some((Some(name), Some(uuid)))
  }

  /** Everything before `i` was read and is not named so. */
  ghost predicate PassedOver(profiles: seq<ProfileAnswer>, name: string, i: nat) {
    i <= |profiles| && forall j :: 0 <= j < i ==> profiles[j].settings.Some? && !IsNamed(profiles[j], name)
  }

  lemma MatchesExactly(p: ProfileAnswer, name: string)
    ensures Matches(p, name) <==> IsNamed(p, name)
  {
    if Matches(p, name) {
      assert p.settings == Some((Some(name), Some(p.settings.value.1.value)));
    }
  }

  /** The chosen profile is the first match, and a search comes back empty only when it
      read every profile and none matched. */
  lemma {:induction false} FirstMatchIsFirst(profiles: seq<ProfileAnswer>, name: string)
    ensures FirstMatch(profiles, name) == Ok(None) <==> PassedOver(profiles, name, |profiles|)
    ensures FirstMatch(profiles, name).Ok? && FirstMatch(profiles, name).value.Some? ==>
      exists i :: 0 <= i < |profiles| && PassedOver(profiles, name, i) && IsNamed(profiles[i], name)
        && profiles[i].path == FirstMatch(profiles, name).value.value
  {
    if profiles != [] && profiles[0].settings.Some? {
      MatchesExactly(profiles[0], name);
      if Matches(profiles[0], name) {
        assert PassedOver(profiles, name, 0);
      } else {
        var rest := profiles[1..];
        FirstMatchIsFirst(rest, name);
        assert forall i: nat :: PassedOver(rest, name, i) ==> PassedOver(profiles, name, i + 1);
        assert PassedOver(profiles, name, |profiles|) ==> PassedOver(rest, name, |rest|);
        if FirstMatch(rest, name).Ok? && FirstMatch(rest, name).value.Some? {
          var i :| 0 <= i < |rest| && PassedOver(rest, name, i) && IsNamed(rest[i], name)
                   && rest[i].path == FirstMatch(rest, name).value.value;
          assert profiles[i + 1] == rest[i];
        }
      }
    }
  }

  /** A whole search fails exactly when the profiles cannot be listed, or one of them cannot
      be read with none named so before it. */
  lemma {:induction false} SearchFailsExactly(profiles: seq<ProfileAnswer>, name: string)
    ensures SavedConnectionPath(None, name) == Err(Dbus)
    ensures SavedConnectionPath(Some(profiles), name) == FirstMatch(profiles, name)
    ensures FirstMatch(profiles, name) == Err(Dbus) <==>
              exists i :: 0 <= i < |profiles| && PassedOver(profiles, name, i) && profiles[i].settings.None?
  {
    if profiles != [] {
      var rest := profiles[1..];
      MatchesExactly(profiles[0], name);
      SearchFailsExactly(rest, name);
      assert PassedOver(profiles, name, 0);
      if i :| 0 <= i < |profiles| && PassedOver(profiles, name, i) && profiles[i].settings.None? {
        assert i > 0 ==> PassedOver(rest, name, i - 1) && rest[i - 1] == profiles[i];
      }
      if profiles[0].settings.Some? && !IsNamed(profiles[0], name) {
        if i :| 0 <= i < |rest| && PassedOver(rest, name, i) && rest[i].settings.None? {
          assert PassedOver(profiles, name, i + 1) && profiles[i + 1] == rest[i];
        }
      }
    }
  }

  // ----- Devices

  const WIFI_DEVICE_TYPE: u32 := 2

  datatype DeviceAnswer = DeviceAnswer(path: Path, deviceType: Option<u32>, managed: Option<bool>, name: Option<string>)

  /** The first managed Wi-Fi device. */
  function FindWifiDevice(devices: seq<DeviceAnswer>): Checked<Path> {
    if devices == [] then Err(NoWifiDevice)
    else if devices[0].deviceType.None? || devices[0].managed.None? then Err(Dbus)
    else if devices[0].managed.value && devices[0].deviceType.value == WIFI_DEVICE_TYPE then Ok(devices[0].path)
    else FindWifiDevice(devices[1..])
  }

  /** The first device with that interface name; unreadable names are passed over. */
  function DeviceByInterface(devices: seq<DeviceAnswer>, name: string): Option<DeviceAnswer> {
    if devices == [] then None
    else if devices[0].name == Some(name) then Some(devices[0])
    else DeviceByInterface(devices[1..], name)
  }

  function ResolveWifiDevice(devices: Option<seq<DeviceAnswer>>, interface_: Option<string>): (r: Checked<Path>)
    ensures r.Err? ==> r.error in {Dbus, NoWifiDevice, WifiInterfaceNotFound, NotAWifiDevice}
  {
    if devices.None? then Err(Dbus)
    else
      match interface_
      case None =>
        WifiDeviceErrors(devices.value);
        FindWifiDevice(devices.value)
      case Some(name) =>
        (match DeviceByInterface(devices.value, name)
         case None => Err(WifiInterfaceNotFound)
         case Some(d) =>
           if d.deviceType.None? then Err(Dbus)
           else if d.deviceType.value != WIFI_DEVICE_TYPE then Err(NotAWifiDevice)
           else Ok(d.path))
  }

  lemma WifiDeviceErrors(devices: seq<DeviceAnswer>)
    ensures FindWifiDevice(devices).Err? ==> FindWifiDevice(devices).error in {Dbus, NoWifiDevice}
  {
  }

  predicate IsUsable(d: DeviceAnswer) {
    d.deviceType == Some(2) && d.managed == Some(true)
  }

  /** Everything before `i` could be read and was no managed Wi-Fi device. */
  ghost predicate SkippedDevices(devices: seq<DeviceAnswer>, i: nat) {
    i <= |devices|
    && forall j :: 0 <= j < i ==> devices[j].deviceType.Some? && devices[j].managed.Some? && !IsUsable(devices[j])
  }

  /** The device found is the first managed Wi-Fi device, and "none" is reported only when
      every device was read and none is. */
  lemma {:induction false} FindWifiDeviceIsFirst(devices: seq<DeviceAnswer>)
    ensures FindWifiDevice(devices) == Err(NoWifiDevice) <==> SkippedDevices(devices, |devices|)
    ensures FindWifiDevice(devices).Ok? ==>
              exists i :: 0 <= i < |devices| && SkippedDevices(devices, i) && IsUsable(devices[i])
                          && devices[i].path == FindWifiDevice(devices).value
  {
    if devices != [] && devices[0].deviceType.Some? && devices[0].managed.Some? {
      if IsUsable(devices[0]) {
        assert SkippedDevices(devices, 0);
      } else {
        var rest := devices[1..];
        FindWifiDeviceIsFirst(rest);
        assert forall i: nat :: SkippedDevices(rest, i) ==> SkippedDevices(devices, i + 1);
        assert SkippedDevices(devices, |devices|) ==> SkippedDevices(rest, |rest|);
        if FindWifiDevice(rest).Ok? {
          var i :| 0 <= i < |rest| && SkippedDevices(rest, i) && IsUsable(rest[i]) && rest[i].path == FindWifiDevice(rest).value;
          assert devices[i + 1] == rest[i];
        }
      }
    }
  }

  // ----- Access points

  /** SSID bytes and hardware address; `None` for a failed property read. */
  datatype AccessPointAnswer = AccessPointAnswer(path: Path, ssid: Option<seq<u8>>, hwAddress: Option<string>)

  /** Bytes that are not UTF-8 decode to the empty string. */
  function DecodeSsidOrEmpty(bytes: seq<u8>): string {
    DecodeUtf8(bytes).GetOr("")
  }

  function LowerAscii(c: char): char {
    if 'A' <= c <= 'Z' then (c as int + 32) as char else c
  }

  predicate EqIgnoreAsciiCase(a: string, b: string) {
    |a| == |b| && forall i :: 0 <= i < |a| ==> LowerAscii(a[i]) == LowerAscii(b[i])
  }

  /** A name is read exactly from its own bytes; the empty name also from bytes that are no
      text at all. */
  lemma SsidReadExactly(bytes: seq<u8>, ssid: string)
    ensures DecodeSsidOrEmpty(bytes) == ssid <==>
            bytes == Utf8(ssid) || (ssid == "" && forall text :: bytes != Utf8(text))
  {
    Utf8RoundTrip(ssid);
    if DecodeUtf8(bytes).Some? {
      DecodedUtf8IsEncoding(bytes);
    }
    if text :| bytes == Utf8(text) {
      Utf8RoundTrip(text);
    }
  }

  /** The same letter in either case. */
  predicate CaseApart(c: char, d: char) {
    || ('A' <= c <= 'Z' && 'a' <= d <= 'z' && c as int - 'A' as int == d as int - 'a' as int)
    || ('a' <= c <= 'z' && 'A' <= d <= 'Z' && c as int - 'a' as int == d as int - 'A' as int)
  }

  /** Addresses are compared letter by letter, case aside and nothing else. */
  lemma CaseAsideExactly(a: string, b: string)
    ensures EqIgnoreAsciiCase(a, b) <==>
            |a| == |b| && forall i :: 0 <= i < |a| ==> a[i] == b[i] || CaseApart(a[i], b[i])
  {
    assert forall c, d :: LowerAscii(c) == LowerAscii(d) <==> c == d || CaseApart(c, d);
  }

  function FindAp(aps: seq<AccessPointAnswer>, ssid: string, bssid: Option<string>): (r: Checked<Path>)
    ensures r.Err? ==> r.error in {Dbus, NotFound, ApBssidNotFound}
  {
    if aps == [] then Err(if bssid.None? then NotFound else ApBssidNotFound)
    else if aps[0].ssid.None? then Err(Dbus)
    else if DecodeSsidOrEmpty(aps[0].ssid.value) != ssid then FindAp(aps[1..], ssid, bssid)
    else if bssid.None? then Ok(aps[0].path)
    else if aps[0].hwAddress.None? then Err(Dbus)
    else if EqIgnoreAsciiCase(aps[0].hwAddress.value, bssid.value) then Ok(aps[0].path)
    else FindAp(aps[1..], ssid, bssid)
  }

  predicate IsWanted(ap: AccessPointAnswer, ssid: string, bssid: Option<string>) {
    && ap.ssid.Some? && DecodeSsidOrEmpty(ap.ssid.value) == ssid
    && (bssid.Some? ==> ap.hwAddress.Some? && EqIgnoreAsciiCase(ap.hwAddress.value, bssid.value))
  }

  /** Nothing before `i` is wanted, and what had to be read of it could be read. */
  ghost predicate SkippedAps(aps: seq<AccessPointAnswer>, ssid: string, bssid: Option<string>, i: nat) {
    i <= |aps|
    && forall j :: 0 <= j < i ==>
         !IsWanted(aps[j], ssid, bssid) && aps[j].ssid.Some?
         && (bssid.Some? && DecodeSsidOrEmpty(aps[j].ssid.value) == ssid ==> aps[j].hwAddress.Some?)
  }

  /** The access point found is the first wanted one, and a search comes back empty only
      when everything needed was read and none is. */
  lemma {:induction false} FindApIsFirst(aps: seq<AccessPointAnswer>, ssid: string, bssid: Option<string>)
    ensures FindAp(aps, ssid, bssid) == Err(if bssid.None? then NotFound else ApBssidNotFound) <==>
            SkippedAps(aps, ssid, bssid, |aps|)
    ensures FindAp(aps, ssid, bssid).Ok? ==>
              exists i :: 0 <= i < |aps| && SkippedAps(aps, ssid, bssid, i) && IsWanted(aps[i], ssid, bssid)
                          && aps[i].path == FindAp(aps, ssid, bssid).value
  {
    if aps != [] {
      if IsWanted(aps[0], ssid, bssid) {
        assert SkippedAps(aps, ssid, bssid, 0);
      } else if SkippedAps(aps, ssid, bssid, 1) {
        var rest := aps[1..];
        FindApIsFirst(rest, ssid, bssid);
        assert forall i: nat :: SkippedAps(rest, ssid, bssid, i) ==> SkippedAps(aps, ssid, bssid, i + 1);
        assert SkippedAps(aps, ssid, bssid, |aps|) ==> SkippedAps(rest, ssid, bssid, |rest|);
        if FindAp(rest, ssid, bssid).Ok? {
          var i :| 0 <= i < |rest| && SkippedAps(rest, ssid, bssid, i) && IsWanted(rest[i], ssid, bssid)
                   && rest[i].path == FindAp(rest, ssid, bssid).value;
          assert aps[i + 1] == rest[i];
        }
      }
    }
  }

  predicate IsHexDigit(c: char) {
    '0' <= c <= '9' || 'a' <= c <= 'f' || 'A' <= c <= 'F'
  }

  function ValidateBssid(bssid: string): Checked<()> {
    var parts := Split(bssid, ':');
    if |parts| == 6 && forall i :: 0 <= i < 6 ==> |parts[i]| == 2 && IsHexDigit(parts[i][0]) && IsHexDigit(parts[i][1])
    then Ok(()) else Err(InvalidBssid)
  }

  /** The position of a character in six two-character groups. */
  predicate FitsBssid(c: char, i: nat) {
    if i % 3 == 2 then c == ':' else IsHexDigit(c)
  }

  lemma JoinSix(parts: seq<string>)
    requires |parts| == 6 && forall i :: 0 <= i < 6 ==> |parts[i]| == 2
    ensures |Join(parts, ':')| == 17
    ensures forall i :: 0 <= i < 17 ==> Join(parts, ':')[i] == if i % 3 == 2 then ':' else parts[i / 3][i % 3]
  {
    var p1, p2, p3, p4, p5 := parts[1..], parts[2..], parts[3..], parts[4..], parts[5..];
    assert p1[1..] == p2 && p2[1..] == p3 && p3[1..] == p4 && p4[1..] == p5;
    assert Join(p5, ':') == parts[5];
    assert Join(p4, ':') == parts[4] + ":" + parts[5];
    assert Join(p3, ':') == parts[3] + ":" + Join(p4, ':');
    assert Join(p2, ':') == parts[2] + ":" + Join(p3, ':');
    assert Join(p1, ':') == parts[1] + ":" + Join(p2, ':');
    assert Join(parts, ':') == parts[0] + ":" + Join(p1, ':');
  }

  function Groups(bssid: string): (groups: seq<string>)
    requires |bssid| == 17
    ensures |groups| == 6 && forall k :: 0 <= k < 6 ==> groups[k] == bssid[3 * k..3 * k + 2]
  {
    seq(6, k requires 0 <= k < 6 => bssid[3 * k..3 * k + 2])
  }

  predicate Pairs(bssid: string) {
    |bssid| == 17 && forall i :: 0 <= i < 17 ==> FitsBssid(bssid[i], i)
  }

  lemma GroupsJoined(bssid: string)
    requires Pairs(bssid)
    ensures Join(Groups(bssid), ':') == bssid
    ensures forall k :: 0 <= k < 6 ==> IsHexDigit(Groups(bssid)[k][0]) && IsHexDigit(Groups(bssid)[k][1])
  {
    var groups := Groups(bssid);
    JoinSix(groups);
    forall k | 0 <= k < 6
      ensures groups[k][0] == bssid[3 * k] && groups[k][1] == bssid[3 * k + 1]
      ensures IsHexDigit(groups[k][0]) && IsHexDigit(groups[k][1])
    {
      assert FitsBssid(bssid[3 * k], 3 * k) && FitsBssid(bssid[3 * k + 1], 3 * k + 1);
    }
    forall i | 0 <= i < 17
      ensures Join(groups, ':')[i] == bssid[i]
    {
      assert FitsBssid(bssid[i], i);
    }
  }

  lemma PairsAccepted(bssid: string)
    requires Pairs(bssid)
    ensures ValidateBssid(bssid).Ok?
  {
    var groups := Groups(bssid);
    GroupsJoined(bssid);
    forall p | p in groups
      ensures ':' !in p
    {
      var k :| 0 <= k < 6 && groups[k] == p;
      assert p == [groups[k][0], groups[k][1]];
    }
    SplitJoin(groups, ':');
  }

  lemma PairsOfParts(parts: seq<string>)
    requires |parts| == 6
    requires forall k :: 0 <= k < 6 ==> |parts[k]| == 2 && IsHexDigit(parts[k][0]) && IsHexDigit(parts[k][1])
    ensures Pairs(Join(parts, ':'))
  {
    JoinSix(parts);
    forall i | 0 <= i < 17
      ensures FitsBssid(Join(parts, ':')[i], i)
    {
      assert 0 <= i / 3 < 6;
    }
  }

  lemma AcceptedHasPairs(bssid: string)
    requires ValidateBssid(bssid).Ok?
    ensures Pairs(bssid)
  {
    JoinSplit(bssid, ':');
    PairsOfParts(Split(bssid, ':'));
  }

  /** A BSSID is accepted exactly when it is six pairs of hexadecimal digits between colons. */
  lemma BssidAcceptedExactly(bssid: string)
    ensures ValidateBssid(bssid) == if Pairs(bssid) then Ok(()) else Err(InvalidBssid)
  {
    if ValidateBssid(bssid).Ok? {
      AcceptedHasPairs(bssid);
    }
    if Pairs(bssid) {
      PairsAccepted(bssid);
    }
  }
}
