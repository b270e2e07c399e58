/** Building Wi-Fi profiles: the builders as they mutate their settings, what every
    sequence of builder calls keeps, and what decoding a built profile gives back.

    A panic of the program is modelled as the absence of a result. */
module WifiBuilder {
  import opened Wrappers
  import opened Errors
  import opened Text
  import opened WifiSecurity
  import opened SettingsDict
  import opened SavedConnection

  // ----- Sections

  datatype ConnectionOptions =
    ConnectionOptions(autoconnect: bool, autoconnectPriority: Option<i32>, autoconnectRetries: Option<i32>)

  datatype WifiMode = Infrastructure | Ap | Adhoc

  function ModeName(mode: WifiMode): string {
    match mode
    case Infrastructure => "infrastructure"
    case Ap => "ap"
    case Adhoc => "adhoc"
  }

  datatype WifiBand = Bg | A

  function BandName(band: WifiBand): string {
    match band
    case Bg => "bg"
    case A => "a"
  }

  function EapName(method_: EapMethod): string {
    match method_
    case Peap => "peap"
    case Ttls => "ttls"
    case Tls => "tls"
  }

  function Phase2Name(phase2: Phase2): string {
    match phase2
    case Mschapv2 => "mschapv2"
    case Pap => "pap"
  }

  /** Both a path and a blob for the same certificate or key: the builder panics. */
  predicate Clash(path: Option<string>, blob: Option<seq<u8>>) {
    path.Some? && blob.Some?
  }

  predicate PanicsOn(opts: EapOptions) {
    || Clash(opts.caCertPath, opts.caCertBlob)
    || (opts.method_.Tls?
        && (Clash(opts.privateKeyPath, opts.privateKeyBlob) || Clash(opts.clientCertPath, opts.clientCertBlob)))
  }

  /** A path is stored as its bytes with a final NUL. */
  function PathOrBlobValue(path: Option<string>, blob: Option<seq<u8>>): Option<Value>
    requires !Clash(path, blob)
  {
    if path.Some? then Some(Bytes(Utf8(path.value) + [0]))
    else if blob.Some? then Some(Bytes(blob.value))
    else None
  }

  function PskSection(psk: string): Section {
    map["key-mgmt" := Str("wpa-psk"), "psk" := Str(psk), "psk-flags" := U32(0), "auth-alg" := Str("open")]
  }

  function EapKeyMgmt(suiteB: bool): string {
    if suiteB then "wpa-eap-suite-b-192" else "wpa-eap"
  }

  function EapSecuritySection(suiteB: bool): Section {
    map["key-mgmt" := Str(EapKeyMgmt(suiteB)), "auth-alg" := Str("open")]
  }

  /** The entries that depend on the inner method. */
  function WithMethodEntries(section: Section, opts: EapOptions): Section
    requires !PanicsOn(opts)
  {
    if opts.method_.Tls? then
      section
      + Entry("private-key", PathOrBlobValue(opts.privateKeyPath, opts.privateKeyBlob))
      + Entry("private-key-password", OptionalStr(opts.privateKeyPassword))
      + Entry("client-cert", PathOrBlobValue(opts.clientCertPath, opts.clientCertBlob))
    else
      section
      + Entry("password", Some(Str(opts.password)))
      + Entry("anonymous-identity", OptionalStr(opts.anonymousIdentity))
      + Entry("phase2-auth", Some(Str(Phase2Name(opts.phase2))))
  }

  function Dot1xSection(opts: EapOptions): Section
    requires !PanicsOn(opts)
  {
    WithMethodEntries(map["eap" := Strings([EapName(opts.method_)]), "identity" := Str(opts.identity)], opts)
    + Entry("system-ca-certs", if opts.systemCaCerts then Some(Bool(true)) else None)
    + Entry("ca-cert", PathOrBlobValue(opts.caCertPath, opts.caCertBlob))
    + Entry("domain-suffix-match", OptionalStr(opts.domainSuffixMatch))
  }

  // ----- Builder state and steps

  datatype State = State(settings: Settings, ssid: string, mode: WifiMode, secured: bool,
                         hidden: Option<bool>, band: Option<WifiBand>, bssid: Option<string>)

  datatype Step =
    | OpenNetwork
    | Psk(psk: string)
    | Eap(suiteB: bool, opts: EapOptions)
    | Hidden(hidden: bool)
    | Band(band: WifiBand)
    | Bssid(bssid: string)
    | Mode(mode: WifiMode)
    | Options(options: ConnectionOptions)
    | Autoconnect(enabled: bool)
    | Priority(priority: i32)
    | Retries(retries: i32)
    | Ipv4(ipv4Method: string)
    | Ipv6(ipv6Method: string)
  {
    predicate IsSecurity() {
      OpenNetwork? || Psk? || Eap?
    }
  }

  /** `if let Some(conn) = settings.get_mut("connection") { conn.insert(key, value) }`. */
  function SetConnection(settings: Settings, key: string, value: Value): Settings {
    if "connection" in settings then Insert(settings, "connection", key, value) else settings
  }

  function WithOptions(settings: Settings, opts: ConnectionOptions): Settings {
    var one := SetConnection(settings, "autoconnect", Bool(opts.autoconnect));
    var two := if opts.autoconnectPriority.Some?
               then SetConnection(one, "autoconnect-priority", I32(opts.autoconnectPriority.value)) else one;
    if opts.autoconnectRetries.Some?
    then SetConnection(two, "autoconnect-retries", I32(opts.autoconnectRetries.value)) else two
  }

  function NewSettings(connectionType: string, id: string, uuid: string): Settings {
    map["connection" := map["type" := Str(connectionType), "id" := Str(id), "uuid" := Str(uuid)]]
  }

  function NewState(ssid: string, uuid: string): State {
    State(NewSettings("802-11-wireless", ssid, uuid), ssid, Infrastructure, false, None, None, None)
  }

  /** One builder call; `None` is the panic. */
  function Applied(b: State, step: Step): Option<State> {
    match step
    case OpenNetwork => Some(b.(settings := b.settings - {"802-11-wireless-security"} - {"802-1x"}, secured := false))
    case Psk(psk) =>
      Some(b.(settings := (b.settings - {"802-1x"})["802-11-wireless-security" := PskSection(psk)], secured := true))
    case Eap(suiteB, opts) =>
      if PanicsOn(opts) then None
      else Some(b.(settings := b.settings["802-11-wireless-security" := EapSecuritySection(suiteB)]["802-1x" := Dot1xSection(opts)],
                   secured := true))
    case Hidden(hidden) => Some(b.(hidden := Some(hidden)))
    case Band(band) => Some(b.(band := Some(band)))
    case Bssid(bssid) => Some(b.(bssid := Some(bssid)))
    case Mode(mode) => Some(b.(mode := mode))
    case Options(options) => Some(b.(settings := WithOptions(b.settings, options)))
    case Autoconnect(enabled) => Some(b.(settings := SetConnection(b.settings, "autoconnect", Bool(enabled))))
    case Priority(priority) => Some(b.(settings := SetConnection(b.settings, "autoconnect-priority", I32(priority))))
    case Retries(retries) => Some(b.(settings := SetConnection(b.settings, "autoconnect-retries", I32(retries))))
    case Ipv4(name) => Some(b.(settings := b.settings["ipv4" := map["method" := Str(name)]]))
    case Ipv6(name) => Some(b.(settings := b.settings["ipv6" := map["method" := Str(name)]]))
  }

  function WirelessSection(b: State): Section {
    map["ssid" := Bytes(Utf8(b.ssid)), "mode" := Str(ModeName(b.mode))]
    + Entry("hidden", if b.hidden.Some? then Some(Bool(b.hidden.value)) else None)
    + Entry("band", if b.band.Some? then Some(Str(BandName(b.band.value))) else None)
    + Entry("bssid", OptionalStr(b.bssid))
    + Entry("security", if b.secured then Some(Str("802-11-wireless-security")) else None)
  }

  function Built(b: State): Settings {
    b.settings["802-11-wireless" := WirelessSection(b)]
  }

  /** A whole sequence of builder calls. */
  function Run(ssid: string, uuid: string, steps: seq<Step>): Option<State> {
    if steps == [] then Some(NewState(ssid, uuid))
    else
      var before := Run(ssid, uuid, steps[..|steps| - 1]);
      if before.None? then None else Applied(before.value, steps[|steps| - 1])
  }

  function SecurityStep(security: Security): Step {
    match security
    case Open => OpenNetwork
    case WpaPsk(psk) => Psk(psk)
    case WpaEap(opts) => Eap(false, opts)
    case Wpa3Eap192bit(opts) => Eap(true, opts)
  }

  function WifiSteps(security: Security, opts: ConnectionOptions): seq<Step> {
    [Options(opts), Ipv4("auto"), Ipv6("auto"), SecurityStep(security)]
  }

  // ----- The builders

  class ConnectionBuilder {
    var settings: Settings

    /** The uuid is random in the program. */
    constructor (connectionType: string, id: string, uuid: string)
      ensures settings == NewSettings(connectionType, id, uuid)
    {
      var connection: Section := map[];
      connection := connection["type" := Str(connectionType)];
      connection := connection["id" := Str(id)];
      connection := connection["uuid" := Str(uuid)];
      settings := map["connection" := connection];
    }

    method InsertConnection(key: string, value: Value)
      modifies this`settings
      ensures settings == SetConnection(old(settings), key, value)
    {
      if "connection" in settings {
        settings := settings["connection" := settings["connection"][key := value]];
      }
    }

    method ApplyOptions(opts: ConnectionOptions)
      modifies this`settings
      ensures settings == WithOptions(old(settings), opts)
    {
      InsertConnection("autoconnect", Bool(opts.autoconnect));
      if opts.autoconnectPriority.Some? {
        InsertConnection("autoconnect-priority", I32(opts.autoconnectPriority.value));
      }
      if opts.autoconnectRetries.Some? {
        InsertConnection("autoconnect-retries", I32(opts.autoconnectRetries.value));
      }
    }

    method WithSection(name: string, section: Section)
      modifies this`settings
      ensures settings == old(settings)[name := section]
    {
      settings := settings[name := section];
    }

    method WithoutSection(name: string)
      modifies this`settings
      ensures settings == old(settings) - {name}
    {
      settings := settings - {name};
    }
  }

  class WifiConnectionBuilder {
    const inner: ConnectionBuilder
    var ssid: string
    var mode: WifiMode
    var securityConfigured: bool
    var hidden: Option<bool>
    var band: Option<WifiBand>
    var bssid: Option<string>

    ghost function Abstract(): State
      reads this, inner
    {
      State(inner.settings, ssid, mode, securityConfigured, hidden, band, bssid)
    }

    constructor (ssid: string, uuid: string)
      ensures Abstract() == NewState(ssid, uuid) && fresh(inner)
    {
      inner := new ConnectionBuilder("802-11-wireless", ssid, uuid);
      this.ssid, mode, securityConfigured := ssid, Infrastructure, false;
      hidden, band, bssid := None, None, None;
    }

    method OpenSecurity()
      modifies this`securityConfigured, inner`settings
      ensures Some(Abstract()) == Applied(old(Abstract()), OpenNetwork)
    {
      inner.WithoutSection("802-11-wireless-security");
      inner.WithoutSection("802-1x");
      securityConfigured := false;
    }

    method WpaPskSecurity(psk: string)
      modifies this`securityConfigured, inner`settings
      ensures Some(Abstract()) == Applied(old(Abstract()), Psk(psk))
    {
      var security: Section := map[];
      security := security["key-mgmt" := Str("wpa-psk")];
      security := security["psk" := Str(psk)];
      security := security["psk-flags" := U32(0)];
      security := security["auth-alg" := Str("open")];
      inner.WithoutSection("802-1x");
      inner.WithSection("802-11-wireless-security", security);
      securityConfigured := true;
    }

    /** The panic of the program ends the call with `ok` false; the builder is lost then. */
    method WpaEapShared(suiteB: bool, opts: EapOptions) returns (ok: bool)
      modifies this`securityConfigured, inner`settings
      ensures ok <==> Applied(old(Abstract()), Eap(suiteB, opts)).Some?
      ensures ok ==> Some(Abstract()) == Applied(old(Abstract()), Eap(suiteB, opts))
    {
      var security: Section := map[];
      security := security["key-mgmt" := Str(EapKeyMgmt(suiteB))];
      security := security["auth-alg" := Str("open")];
      inner.WithSection("802-11-wireless-security", security);

      var e1x;
      ok, e1x := BuildDot1x(opts);
      if !ok {
        return;
      }
      inner.WithSection("802-1x", e1x);
      securityConfigured := true;
    }

    /** Any one builder call. */
    method Perform(step: Step) returns (ok: bool)
      modifies this, inner`settings
      ensures ok <==> Applied(old(Abstract()), step).Some?
      ensures ok ==> Some(Abstract()) == Applied(old(Abstract()), step)
    {
      ok := true;
      match step {
        case OpenNetwork => OpenSecurity();
        case Psk(psk) => WpaPskSecurity(psk);
        case Eap(suiteB, opts) => ok := WpaEapShared(suiteB, opts);
        case Hidden(hidden) => this.hidden := Some(hidden);
        case Band(band) => this.band := Some(band);
        case Bssid(bssid) => this.bssid := Some(bssid);
        case Mode(mode) => this.mode := mode;
        case Options(options) => inner.ApplyOptions(options);
        case Autoconnect(enabled) => inner.InsertConnection("autoconnect", Bool(enabled));
        case Priority(priority) => inner.InsertConnection("autoconnect-priority", I32(priority));
        case Retries(retries) => inner.InsertConnection("autoconnect-retries", I32(retries));
        case Ipv4(name) => inner.WithSection("ipv4", map["method" := Str(name)]);
        case Ipv6(name) => inner.WithSection("ipv6", map["method" := Str(name)]);
      }
    }

    method Build() returns (settings: Settings)
      modifies inner`settings
      ensures settings == Built(old(Abstract())) == inner.settings
    {
      var wireless: Section := map[];
      wireless := wireless["ssid" := Bytes(Utf8(ssid))];
      wireless := wireless["mode" := Str(ModeName(mode))];
      wireless := InsertIf(wireless, "hidden", if hidden.Some? then Some(Bool(hidden.value)) else None);
      wireless := InsertIf(wireless, "band", if band.Some? then Some(Str(BandName(band.value))) else None);
      wireless := InsertIf(wireless, "bssid", OptionalStr(bssid));
      wireless := InsertIf(wireless, "security", if securityConfigured then Some(Str("802-11-wireless-security")) else None);
      inner.WithSection("802-11-wireless", wireless);
      settings := inner.settings;
    }
  }

  function Configured(ssid: string, uuid: string, opts: ConnectionOptions): State {
    var settings := WithOptions(NewSettings("802-11-wireless", ssid, uuid), opts);
    NewState(ssid, uuid).(settings := settings["ipv4" := map["method" := Str("auto")]]["ipv6" := map["method" := Str("auto")]])
  }

  lemma RunThree(ssid: string, uuid: string, one: Step, two: Step, three: Step)
    ensures Run(ssid, uuid, [one, two, three]) == AppliedTo(AppliedTo(AppliedTo(Some(NewState(ssid, uuid)), one), two), three)
  {
    var steps := [one, two, three];
    RunOneMore(ssid, uuid, steps, 0);
    RunOneMore(ssid, uuid, steps, 1);
    RunOneMore(ssid, uuid, steps, 2);
    assert steps[..3] == steps && steps[..0] == [];
  }

  lemma RunConfigured(ssid: string, uuid: string, opts: ConnectionOptions)
    ensures Run(ssid, uuid, [Options(opts), Ipv4("auto"), Ipv6("auto")]) == Some(Configured(ssid, uuid, opts))
  {
    RunThree(ssid, uuid, Options(opts), Ipv4("auto"), Ipv6("auto"));
  }

  /** The part that does not depend on the credentials. */
  method NewWifiBuilder(ssid: string, uuid: string, opts: ConnectionOptions) returns (builder: WifiConnectionBuilder)
    ensures fresh(builder) && fresh(builder.inner)
    ensures builder.Abstract() == Configured(ssid, uuid, opts)
  {
    builder := new WifiConnectionBuilder(ssid, uuid);
    builder.inner.ApplyOptions(opts);
    builder.inner.WithSection("ipv4", map["method" := Str("auto")]);
    builder.inner.WithSection("ipv6", map["method" := Str("auto")]);
  }

  /** The composition used by the connect operations; `None` is the panic. */
  method BuildWifiConnection(ssid: string, uuid: string, security: Security, opts: ConnectionOptions)
      returns (result: Option<Settings>)
    ensures result == WifiSettings(ssid, uuid, security, opts)
  {
    var builder := NewWifiBuilder(ssid, uuid, opts);
    ghost var steps := WifiSteps(security, opts);
    RunConfigured(ssid, uuid, opts);
    RunOneMore(ssid, uuid, steps, 3);
    assert steps[..3] == [Options(opts), Ipv4("auto"), Ipv6("auto")] && steps[..4] == steps;
    var ok := builder.Perform(SecurityStep(security));
    if !ok {
      return None;
    }
    var settings := builder.Build();
    result := Some(settings);
  }

  function WifiSettings(ssid: string, uuid: string, security: Security, opts: ConnectionOptions): Option<Settings> {
    var b := Run(ssid, uuid, WifiSteps(security, opts));
    if b.None? then None else Some(Built(b.value))
  }

  function AppliedTo(b: Option<State>, step: Step): Option<State> {
    if b.None? then None else Applied(b.value, step)
  }

  lemma RunOneMore(ssid: string, uuid: string, steps: seq<Step>, n: nat)
    requires n < |steps|
    ensures Run(ssid, uuid, steps[..n + 1]) == AppliedTo(Run(ssid, uuid, steps[..n]), steps[n])
  {
    assert steps[..n + 1][..n] == steps[..n];
  }

  method InsertIf(section: Section, key: string, value: Option<Value>) returns (r: Section)
    ensures r == section + Entry(key, value)
  {
    r := section;
    if value.Some? {
      r := r[key := value.value];
    }
  }

  method PathOrBlob(path: Option<string>, blob: Option<seq<u8>>) returns (ok: bool, value: Option<Value>)
    ensures ok <==> !Clash(path, blob)
    ensures ok ==> value == PathOrBlobValue(path, blob)
  {
    match (path, blob) {
      case (None, None) => return true, None;
      case (Some(p), None) => return true, Some(Bytes(Utf8(p) + [0]));
      case (None, Some(b)) => return true, Some(Bytes(b));
      case (Some(_), Some(_)) => return false, None;
    }
  }

  method InsertMethodEntries(section: Section, opts: EapOptions) returns (ok: bool, e1x: Section)
    ensures ok <==> !opts.method_.Tls? || (!Clash(opts.privateKeyPath, opts.privateKeyBlob)
                                           && !Clash(opts.clientCertPath, opts.clientCertBlob))
    ensures ok && !PanicsOn(opts) ==> e1x == WithMethodEntries(section, opts)
  {
    e1x := section;
    if opts.method_.Tls? {
      var key, cert;
      ok, key := PathOrBlob(opts.privateKeyPath, opts.privateKeyBlob);
      if !ok {
        return;
      }
      e1x := InsertIf(e1x, "private-key", key);
      e1x := InsertIf(e1x, "private-key-password", OptionalStr(opts.privateKeyPassword));
      ok, cert := PathOrBlob(opts.clientCertPath, opts.clientCertBlob);
      if !ok {
        return;
      }
      e1x := InsertIf(e1x, "client-cert", cert);
    } else {
      ok := true;
      e1x := InsertIf(e1x, "password", Some(Str(opts.password)));
      e1x := InsertIf(e1x, "anonymous-identity", OptionalStr(opts.anonymousIdentity));
      e1x := InsertIf(e1x, "phase2-auth", Some(Str(Phase2Name(opts.phase2))));
    }
  }

  method BuildDot1x(opts: EapOptions) returns (ok: bool, e1x: Section)
    ensures ok <==> !PanicsOn(opts)
    ensures ok ==> e1x == Dot1xSection(opts)
  {
    e1x := map[];
    e1x := e1x["eap" := Strings([EapName(opts.method_)])];
    e1x := e1x["identity" := Str(opts.identity)];
    ok, e1x := InsertMethodEntries(e1x, opts);
    if !ok {
      return;
    }
    e1x := InsertIf(e1x, "system-ca-certs", if opts.systemCaCerts then Some(Bool(true)) else None);
    var ca;
    ok, ca := PathOrBlob(opts.caCertPath, opts.caCertBlob);
    if !ok {
      return;
    }
    e1x := InsertIf(e1x, "ca-cert", ca);
    e1x := InsertIf(e1x, "domain-suffix-match", OptionalStr(opts.domainSuffixMatch));
  }
}
