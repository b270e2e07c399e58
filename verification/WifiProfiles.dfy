/** What every sequence of Wi-Fi builder calls keeps, and what a built profile decodes to. */
module WifiProfiles {
  import opened Wrappers
  import opened Errors
  import opened Text
  import opened WifiSecurity
  import opened SettingsDict
  import opened SavedConnection
  import opened WifiBuilder

  // ----- Panics

  /** A path and a blob for the CA certificate, or with TLS for the private key or the
      client certificate. */
  predicate GivenTwice(opts: EapOptions) {
    || (opts.caCertPath.Some? && opts.caCertBlob.Some?)
    || (opts.method_ == Tls && opts.privateKeyPath.Some? && opts.privateKeyBlob.Some?)
    || (opts.method_ == Tls && opts.clientCertPath.Some? && opts.clientCertBlob.Some?)
  }

  /** A whole sequence of builder calls fails exactly when one of them is given both a path
      and a blob for a certificate or key it looks at. */
  lemma {:induction false} PanicsExactly(ssid: string, uuid: string, steps: seq<Step>)
    ensures Run(ssid, uuid, steps).None? <==> exists i :: 0 <= i < |steps| && steps[i].Eap? && GivenTwice(steps[i].opts)
  {
    if steps != [] {
      var n := |steps| - 1;
      PanicsExactly(ssid, uuid, steps[..n]);
      if i :| 0 <= i < n && steps[..n][i].Eap? && GivenTwice(steps[..n][i].opts) {
        assert steps[i] == steps[..n][i];
      }
      if i :| 0 <= i < |steps| && steps[i].Eap? && GivenTwice(steps[i].opts) {
        assert i < n ==> steps[..n][i] == steps[i];
      }
    }
  }

  lemma ValidatedEap(opts: EapOptions)
    requires ValidateWifiEap(opts).Ok?
    ensures !PanicsOn(opts)
    ensures opts.method_.Tls? ==>
              (opts.privateKeyPath.Some? || opts.privateKeyBlob.Some?) && (opts.clientCertPath.Some? || opts.clientCertBlob.Some?)
  {
  }

  /** Credentials that pass validation never reach the panic, whatever was called before. */
  lemma ValidatedNeverPanics(security: Security, b: State)
    requires ValidateWifiSecurity(security).Ok?
    ensures Applied(b, SecurityStep(security)).Some?
  {
    if security.IsEap() {
      ValidatedEap(security.opts);
    }
  }

  /** The 802.1X section after the entries of a TLS profile; the others do not overwrite them. */
  lemma TlsEntriesGet(section: Section, opts: EapOptions, key: string)
    requires !PanicsOn(opts) && opts.method_.Tls?
    ensures Get(WithMethodEntries(section, opts), key) ==
            if key == "private-key" then OrElse(PathOrBlobValue(opts.privateKeyPath, opts.privateKeyBlob), Get(section, key))
            else if key == "private-key-password" then OrElse(OptionalStr(opts.privateKeyPassword), Get(section, key))
            else if key == "client-cert" then OrElse(PathOrBlobValue(opts.clientCertPath, opts.clientCertBlob), Get(section, key))
            else Get(section, key)
  {
  }

  function Dot1xBase(opts: EapOptions): Section {
    map["eap" := Strings([EapName(opts.method_)]), "identity" := Str(opts.identity)]
  }

  // ----- What every sequence of calls keeps

  /** The last security call, if any. */
  function LastSecurity(steps: seq<Step>): Option<Step> {
    if steps == [] then None
    else if steps[|steps| - 1].IsSecurity() then Some(steps[|steps| - 1])
    else LastSecurity(steps[..|steps| - 1])
  }

  lemma {:induction false} LastSecurityIsLast(steps: seq<Step>)
    ensures LastSecurity(steps).None? <==> forall i :: 0 <= i < |steps| ==> !steps[i].IsSecurity()
    ensures LastSecurity(steps).Some? ==>
              LastSecurity(steps).value.IsSecurity()
              && exists i :: 0 <= i < |steps| && steps[i] == LastSecurity(steps).value
                             && forall j :: i < j < |steps| ==> !steps[j].IsSecurity()
  {
    if steps != [] {
      var n := |steps| - 1;
      LastSecurityIsLast(steps[..n]);
      if !steps[n].IsSecurity() && LastSecurity(steps[..n]).Some? {
        var i :| 0 <= i < n && steps[..n][i] == LastSecurity(steps[..n]).value
                 && forall j :: i < j < n ==> !steps[..n][j].IsSecurity();
        assert forall j :: i < j < |steps| ==> j == n || steps[j] == steps[..n][j];
        assert steps[i] == LastSecurity(steps).value;
      } else {
        assert forall i :: 0 <= i < n ==> steps[..n][i] == steps[i];
      }
    }
  }

  /** What a security call leaves in the two security sections. */
  function SecuritySection(last: Option<Step>): Option<Section> {
    match last
    case Some(Psk(psk)) => Some(PskSection(psk))
    case Some(Eap(suiteB, _)) => Some(EapSecuritySection(suiteB))
    case _ => None
  }

  function AuthSection(last: Option<Step>): Option<Section> {
    match last
    case Some(Eap(_, opts)) => if PanicsOn(opts) then None else Some(Dot1xSection(opts))
    case _ => None
  }

  function Present(settings: Settings, section: string): Option<Section> {
    if section in settings then Some(settings[section]) else None
  }

  lemma SecurityStepSets(b: State, step: Step)
    requires step.IsSecurity() && Applied(b, step).Some?
    ensures var c := Applied(b, step).value;
            && Present(c.settings, "802-11-wireless-security") == SecuritySection(Some(step))
            && Present(c.settings, "802-1x") == AuthSection(Some(step))
            && c.secured == SecuritySection(Some(step)).Some?
  {
  }

  lemma OtherStepKeeps(b: State, step: Step, section: string)
    requires !step.IsSecurity() && Applied(b, step).Some? && section !in {"connection", "ipv4", "ipv6"}
    ensures Present(Applied(b, step).value.settings, section) == Present(b.settings, section)
    ensures Applied(b, step).value.secured == b.secured
  {
  }

  /** The last security call alone decides both security sections and the flag. */
  lemma {:induction false} LastSecurityDecides(ssid: string, uuid: string, steps: seq<Step>)
    requires Run(ssid, uuid, steps).Some?
    ensures var b := Run(ssid, uuid, steps).value;
            && Present(b.settings, "802-11-wireless-security") == SecuritySection(LastSecurity(steps))
            && Present(b.settings, "802-1x") == AuthSection(LastSecurity(steps))
            && b.secured == SecuritySection(LastSecurity(steps)).Some?
  {
    if steps != [] {
      var n := |steps| - 1;
      LastSecurityDecides(ssid, uuid, steps[..n]);
      if steps[n].IsSecurity() {
        SecurityStepSets(Run(ssid, uuid, steps[..n]).value, steps[n]);
      } else {
        OtherStepKeeps(Run(ssid, uuid, steps[..n]).value, steps[n], "802-11-wireless-security");
        OtherStepKeeps(Run(ssid, uuid, steps[..n]).value, steps[n], "802-1x");
      }
    }
  }

  /** In every built profile the wireless section links to the security section exactly
      when that is there, and an 802.1X section comes only with enterprise key management. */
  lemma SectionsFitTogether(ssid: string, uuid: string, steps: seq<Step>)
    requires Run(ssid, uuid, steps).Some?
    ensures var b := Run(ssid, uuid, steps).value;
            var settings := Built(b);
            && (b.secured <==> "802-11-wireless-security" in settings)
            && Lookup(settings, "802-11-wireless", "security")
               == (if "802-11-wireless-security" in settings then Some(Str("802-11-wireless-security")) else None)
            && ("802-1x" in settings ==>
                  Lookup(settings, "802-11-wireless-security", "key-mgmt")
                  in {Some(Str("wpa-eap")), Some(Str("wpa-eap-suite-b-192"))})
  {
    LastSecurityDecides(ssid, uuid, steps);
  }

  // ----- The two security sections, entry by entry

  /** A text entry that is there exactly when the option is. */
  predicate HoldsText(entry: Option<Value>, text: Option<string>) {
    && (text.Some? ==> entry == Some(Str(text.value)))
    && (text.None? ==> entry == None)
  }

  /** A certificate or key: the bytes of its path with a final 0, or the blob as it is. */
  predicate HoldsFile(entry: Option<Value>, path: Option<string>, blob: Option<seq<u8>>) {
    && (path.Some? ==> entry == Some(Bytes(Utf8(path.value) + [0])))
    && (path.None? && blob.Some? ==> entry == Some(Bytes(blob.value)))
    && (path.None? && blob.None? ==> entry == None)
  }

  /** Personal security: the passphrase as given, three fixed entries, nothing else. */
  predicate WritesPsk(settings: Settings, psk: string) {
    && "802-11-wireless-security" in settings && "802-1x" !in settings
    && settings["802-11-wireless-security"]
       == map["key-mgmt" := Str("wpa-psk"), "psk" := Str(psk), "psk-flags" := U32(0), "auth-alg" := Str("open")]
  }

  /** What the `802-1x` section has for every method. */
  predicate WritesIdentity(dot1x: Section, opts: EapOptions) {
    && Get(dot1x, "eap") == Some(Strings([match opts.method_ case Peap => "peap" case Ttls => "ttls" case Tls => "tls"]))
    && Get(dot1x, "identity") == Some(Str(opts.identity))
    && Get(dot1x, "system-ca-certs") == (if opts.systemCaCerts then Some(Bool(true)) else None)
    && HoldsFile(Get(dot1x, "ca-cert"), opts.caCertPath, opts.caCertBlob)
    && HoldsText(Get(dot1x, "domain-suffix-match"), opts.domainSuffixMatch)
  }

  /** With a certificate: key, key password and certificate, and no inner authentication. */
  predicate WritesCertificate(dot1x: Section, opts: EapOptions) {
    && HoldsFile(Get(dot1x, "private-key"), opts.privateKeyPath, opts.privateKeyBlob)
    && HoldsText(Get(dot1x, "private-key-password"), opts.privateKeyPassword)
    && HoldsFile(Get(dot1x, "client-cert"), opts.clientCertPath, opts.clientCertBlob)
    && "password" !in dot1x && "anonymous-identity" !in dot1x && "phase2-auth" !in dot1x
  }

  /** With a password: the inner authentication, and neither key nor certificate. */
  predicate WritesPassword(dot1x: Section, opts: EapOptions) {
    && Get(dot1x, "password") == Some(Str(opts.password))
    && HoldsText(Get(dot1x, "anonymous-identity"), opts.anonymousIdentity)
    && Get(dot1x, "phase2-auth") == Some(Str(match opts.phase2 case Mschapv2 => "mschapv2" case Pap => "pap"))
    && "private-key" !in dot1x && "private-key-password" !in dot1x && "client-cert" !in dot1x
  }

  predicate WritesDot1x(dot1x: Section, opts: EapOptions) {
    && WritesIdentity(dot1x, opts)
    && (opts.method_.Tls? ==> WritesCertificate(dot1x, opts))
    && (!opts.method_.Tls? ==> WritesPassword(dot1x, opts))
    && dot1x.Keys <= {"eap", "identity", "system-ca-certs", "ca-cert", "domain-suffix-match", "password", "anonymous-identity",
                      "phase2-auth", "private-key", "private-key-password", "client-cert"}
  }

  /** Enterprise security: key management with or without Suite B, and the 802.1X entries. */
  predicate WritesEap(settings: Settings, suiteB: bool, opts: EapOptions) {
    && "802-11-wireless-security" in settings && "802-1x" in settings
    && settings["802-11-wireless-security"]
       == map["key-mgmt" := Str(if suiteB then "wpa-eap-suite-b-192" else "wpa-eap"), "auth-alg" := Str("open")]
    && WritesDot1x(settings["802-1x"], opts)
  }

  lemma PasswordEntriesSet(section: Section, opts: EapOptions, key: string)
    requires !PanicsOn(opts) && !opts.method_.Tls?
    ensures Get(WithMethodEntries(section, opts), key) ==
            if key == "password" then Some(Str(opts.password))
            else if key == "anonymous-identity" then OrElse(OptionalStr(opts.anonymousIdentity), Get(section, key))
            else if key == "phase2-auth" then Some(Str(Phase2Name(opts.phase2)))
            else Get(section, key)
  {
  }

  /** The entries that come last, whatever is there already. */
  lemma CaEntriesGet(section: Section, opts: EapOptions, key: string)
    requires !PanicsOn(opts)
    ensures var system := if opts.systemCaCerts then Some(Bool(true)) else None;
            var ca := PathOrBlobValue(opts.caCertPath, opts.caCertBlob);
            Get(section + Entry("system-ca-certs", system) + Entry("ca-cert", ca)
                + Entry("domain-suffix-match", OptionalStr(opts.domainSuffixMatch)), key) ==
            if key == "system-ca-certs" then OrElse(system, Get(section, key))
            else if key == "ca-cert" then OrElse(ca, Get(section, key))
            else if key == "domain-suffix-match" then OrElse(OptionalStr(opts.domainSuffixMatch), Get(section, key))
            else Get(section, key)
  {
    var system := if opts.systemCaCerts then Some(Bool(true)) else None;
    var ca := PathOrBlobValue(opts.caCertPath, opts.caCertBlob);
    var one := section + Entry("system-ca-certs", system);
    var two := one + Entry("ca-cert", ca);
    GetPlus(section, "system-ca-certs", system, key);
    GetPlus(one, "ca-cert", ca, key);
    GetPlus(two, "domain-suffix-match", OptionalStr(opts.domainSuffixMatch), key);
  }

  /** Every entry of the section in one place. */
  function Dot1xEntry(opts: EapOptions, key: string): Option<Value>
    requires !PanicsOn(opts)
  {
    if key == "eap" then Some(Strings([EapName(opts.method_)]))
    else if key == "identity" then Some(Str(opts.identity))
    else if key == "system-ca-certs" then (if opts.systemCaCerts then Some(Bool(true)) else None)
    else if key == "ca-cert" then PathOrBlobValue(opts.caCertPath, opts.caCertBlob)
    else if key == "domain-suffix-match" then OptionalStr(opts.domainSuffixMatch)
    else if opts.method_.Tls? then
      if key == "private-key" then PathOrBlobValue(opts.privateKeyPath, opts.privateKeyBlob)
      else if key == "private-key-password" then OptionalStr(opts.privateKeyPassword)
      else if key == "client-cert" then PathOrBlobValue(opts.clientCertPath, opts.clientCertBlob)
      else None
    else if key == "password" then Some(Str(opts.password))
    else if key == "anonymous-identity" then OptionalStr(opts.anonymousIdentity)
    else if key == "phase2-auth" then Some(Str(Phase2Name(opts.phase2)))
    else None
  }

  /** Before the last entries are added, the section has all the others. */
  lemma MethodEntriesGet(opts: EapOptions, key: string)
    requires !PanicsOn(opts)
    ensures Get(WithMethodEntries(Dot1xBase(opts), opts), key) ==
            if key in {"system-ca-certs", "ca-cert", "domain-suffix-match"} then None else Dot1xEntry(opts, key)
  {
    if opts.method_.Tls? {
      TlsEntriesGet(Dot1xBase(opts), opts, key);
    } else {
      PasswordEntriesSet(Dot1xBase(opts), opts, key);
    }
  }

  lemma Dot1xGet(opts: EapOptions, key: string)
    requires !PanicsOn(opts)
    ensures Get(Dot1xSection(opts), key) == Dot1xEntry(opts, key)
  {
    MethodEntriesGet(opts, key);
    CaEntriesGet(WithMethodEntries(Dot1xBase(opts), opts), opts, key);
  }

  /** The 802.1X section always names exactly the chosen method. */
  lemma Dot1xNamesMethod(opts: EapOptions)
    requires !PanicsOn(opts)
    ensures Get(Dot1xSection(opts), "eap") == Some(Strings([EapName(opts.method_)]))
    ensures StrVec(Dot1xSection(opts), "eap") == [EapName(opts.method_)]
  {
    Dot1xGet(opts, "eap");
    TextsOfStrings([EapName(opts.method_)]);
  }

  lemma ValidatedTlsSection(opts: EapOptions)
    requires ValidateWifiEap(opts).Ok? && opts.method_.Tls?
    ensures !PanicsOn(opts)
    ensures "private-key" in Dot1xSection(opts) && "client-cert" in Dot1xSection(opts)
  {
    ValidatedEap(opts);
    Dot1xGet(opts, "private-key");
    Dot1xGet(opts, "client-cert");
  }

  /** The section has these entries and no other. */
  ghost predicate HasEntries(dot1x: Section, opts: EapOptions)
    requires !PanicsOn(opts)
  {
    forall key :: Get(dot1x, key) == Dot1xEntry(opts, key)
  }

  lemma IdentityWritten(dot1x: Section, opts: EapOptions)
    requires !PanicsOn(opts) && HasEntries(dot1x, opts)
    ensures WritesIdentity(dot1x, opts)
  {
    assert Get(dot1x, "eap") == Dot1xEntry(opts, "eap");
    assert Get(dot1x, "identity") == Dot1xEntry(opts, "identity");
    assert Get(dot1x, "system-ca-certs") == Dot1xEntry(opts, "system-ca-certs");
    assert Get(dot1x, "ca-cert") == Dot1xEntry(opts, "ca-cert");
    assert Get(dot1x, "domain-suffix-match") == Dot1xEntry(opts, "domain-suffix-match");
  }

  lemma CertificateWritten(dot1x: Section, opts: EapOptions)
    requires !PanicsOn(opts) && opts.method_.Tls? && HasEntries(dot1x, opts)
    ensures WritesCertificate(dot1x, opts)
  {
    assert Get(dot1x, "private-key") == Dot1xEntry(opts, "private-key");
    assert Get(dot1x, "private-key-password") == Dot1xEntry(opts, "private-key-password");
    assert Get(dot1x, "client-cert") == Dot1xEntry(opts, "client-cert");
    assert Get(dot1x, "password") == Get(dot1x, "anonymous-identity") == Get(dot1x, "phase2-auth") == None;
  }

  lemma PasswordWritten(dot1x: Section, opts: EapOptions)
    requires !PanicsOn(opts) && !opts.method_.Tls? && HasEntries(dot1x, opts)
    ensures WritesPassword(dot1x, opts)
  {
    assert Get(dot1x, "password") == Dot1xEntry(opts, "password");
    assert Get(dot1x, "anonymous-identity") == Dot1xEntry(opts, "anonymous-identity");
    assert Get(dot1x, "phase2-auth") == Dot1xEntry(opts, "phase2-auth");
    assert Get(dot1x, "private-key") == Get(dot1x, "private-key-password") == Get(dot1x, "client-cert") == None;
  }

  lemma EntriesNamed(dot1x: Section, opts: EapOptions, key: string)
    requires !PanicsOn(opts) && HasEntries(dot1x, opts) && key in dot1x
    ensures key in {"eap", "identity", "system-ca-certs", "ca-cert", "domain-suffix-match", "password", "anonymous-identity",
                    "phase2-auth", "private-key", "private-key-password", "client-cert"}
  {
    assert Get(dot1x, key) == Dot1xEntry(opts, key);
  }

  lemma EntriesWritten(dot1x: Section, opts: EapOptions)
    requires !PanicsOn(opts) && HasEntries(dot1x, opts)
    ensures WritesDot1x(dot1x, opts)
  {
    IdentityWritten(dot1x, opts);
    if opts.method_.Tls? {
      CertificateWritten(dot1x, opts);
    } else {
      PasswordWritten(dot1x, opts);
    }
    forall key | key in dot1x
      ensures key in {"eap", "identity", "system-ca-certs", "ca-cert", "domain-suffix-match", "password", "anonymous-identity",
                      "phase2-auth", "private-key", "private-key-password", "client-cert"}
    {
      EntriesNamed(dot1x, opts, key);
    }
  }

  lemma Dot1xWritten(opts: EapOptions)
    requires !PanicsOn(opts)
    ensures WritesDot1x(Dot1xSection(opts), opts)
  {
    forall key
      ensures Get(Dot1xSection(opts), key) == Dot1xEntry(opts, key)
    {
      Dot1xGet(opts, key);
    }
    EntriesWritten(Dot1xSection(opts), opts);
  }

  /** Whatever was called before and after, the last security call is what the built
      profile says: nothing, the passphrase as given, or every 802.1X option as given. */
  lemma SecurityWritten(ssid: string, uuid: string, steps: seq<Step>)
    requires Run(ssid, uuid, steps).Some?
    ensures var settings := Built(Run(ssid, uuid, steps).value);
            match LastSecurity(steps)
            case Some(Psk(psk)) => WritesPsk(settings, psk)
            case Some(Eap(suiteB, opts)) => WritesEap(settings, suiteB, opts)
            case _ => settings.Keys !! {"802-11-wireless-security", "802-1x"}
  {
    LastSecurityDecides(ssid, uuid, steps);
    LastSecurityDidNotPanic(ssid, uuid, steps);
    var b := Run(ssid, uuid, steps).value;
    assert Present(Built(b), "802-11-wireless-security") == Present(b.settings, "802-11-wireless-security");
    assert Present(Built(b), "802-1x") == Present(b.settings, "802-1x");
    match LastSecurity(steps)
    case Some(Eap(_, opts)) => Dot1xWritten(opts);
    case _ =>
  }

  predicate WritesCredentials(settings: Settings, security: Security) {
    match security
    case Open => settings.Keys !! {"802-11-wireless-security", "802-1x"}
    case WpaPsk(psk) => WritesPsk(settings, psk)
    case WpaEap(eap) => WritesEap(settings, false, eap)
    case Wpa3Eap192bit(eap) => WritesEap(settings, true, eap)
  }

  /** The profile the connect operations build says exactly what the credentials say, and
      is missing exactly when enterprise credentials give a path and a blob for one thing. */
  lemma CredentialsWritten(ssid: string, uuid: string, security: Security, opts: ConnectionOptions)
    ensures WifiSettings(ssid, uuid, security, opts).None? <==> security.IsEap() && GivenTwice(security.opts)
    ensures WifiSettings(ssid, uuid, security, opts).Some? ==>
              WritesCredentials(WifiSettings(ssid, uuid, security, opts).value, security)
  {
    var steps := WifiSteps(security, opts);
    PanicsExactly(ssid, uuid, steps);
    StepPanics(security, opts);
    WifiStepsSay(security, opts);
    if Run(ssid, uuid, steps).Some? {
      SecurityWritten(ssid, uuid, steps);
    }
  }

  lemma StepPanics(security: Security, opts: ConnectionOptions)
    ensures var steps := WifiSteps(security, opts);
            (exists i :: 0 <= i < |steps| && steps[i].Eap? && GivenTwice(steps[i].opts)) <==> security.IsEap() && GivenTwice(security.opts)
  {
    var steps := WifiSteps(security, opts);
    assert steps[3] == SecurityStep(security);
  }

  // ----- The address sections

  /** What a call says about an address section. */
  function IpSays(step: Step, section: string): Option<string> {
    match step
    case Ipv4(name) => if section == "ipv4" then Some(name) else None
    case Ipv6(name) => if section == "ipv6" then Some(name) else None
    case _ => None
  }

  /** Call `i` is the last one about this section. */
  ghost predicate SaysLast(steps: seq<Step>, section: string, i: nat) {
    && i < |steps| && IpSays(steps[i], section).Some?
    && forall j :: i < j < |steps| ==> IpSays(steps[j], section).None?
  }

  lemma IpStep(b: State, step: Step, section: string)
    requires section in {"ipv4", "ipv6"} && Applied(b, step).Some?
    ensures Present(Applied(b, step).value.settings, section) ==
            if IpSays(step, section).Some? then Some(map["method" := Str(IpSays(step, section).value)])
            else Present(b.settings, section)
  {
  }

  /** An address section holds the method of the last call about it and nothing else, and
      is missing exactly when no call was about it. */
  ghost predicate HoldsLastIp(settings: Settings, steps: seq<Step>, section: string) {
    && (section in settings <==> exists i: nat :: SaysLast(steps, section, i))
    && forall i: nat :: SaysLast(steps, section, i) && section in settings ==>
         settings[section] == map["method" := Str(IpSays(steps[i], section).value)]
  }

  lemma IpCallAdded(before: Settings, after: Settings, steps: seq<Step>, section: string)
    requires steps != [] && HoldsLastIp(before, steps[..|steps| - 1], section)
    requires var says := IpSays(steps[|steps| - 1], section);
             Present(after, section) == if says.Some? then Some(map["method" := Str(says.value)]) else Present(before, section)
    ensures HoldsLastIp(after, steps, section)
  {
    var n := |steps| - 1;
    if IpSays(steps[n], section).Some? {
      assert SaysLast(steps, section, n);
    } else {
      forall i: nat
        ensures SaysLast(steps, section, i) <==> SaysLast(steps[..n], section, i)
      {
        assert forall j :: 0 <= j < n ==> steps[..n][j] == steps[j];
      }
    }
  }

  lemma {:induction false} LastIpCallDecides(ssid: string, uuid: string, steps: seq<Step>, section: string)
    requires section in {"ipv4", "ipv6"} && Run(ssid, uuid, steps).Some?
    ensures HoldsLastIp(Run(ssid, uuid, steps).value.settings, steps, section)
  {
    if steps != [] {
      var before := Run(ssid, uuid, steps[..|steps| - 1]).value;
      LastIpCallDecides(ssid, uuid, steps[..|steps| - 1], section);
      IpStep(before, steps[|steps| - 1], section);
      IpCallAdded(before.settings, Run(ssid, uuid, steps).value.settings, steps, section);
    }
  }

  lemma BuiltHoldsLastIp(ssid: string, uuid: string, steps: seq<Step>, section: string)
    requires section in {"ipv4", "ipv6"} && Run(ssid, uuid, steps).Some?
    ensures HoldsLastIp(Built(Run(ssid, uuid, steps).value), steps, section)
  {
    var b := Run(ssid, uuid, steps).value;
    LastIpCallDecides(ssid, uuid, steps, section);
    BuiltKeeps(b, section);
    HoldsByPresence(b.settings, Built(b), steps, section);
  }

  lemma BuiltKeeps(b: State, section: string)
    requires section != "802-11-wireless"
    ensures Present(Built(b), section) == Present(b.settings, section)
  {
  }

  lemma HoldsByPresence(before: Settings, after: Settings, steps: seq<Step>, section: string)
    requires HoldsLastIp(before, steps, section) && Present(after, section) == Present(before, section)
    ensures HoldsLastIp(after, steps, section)
  {
  }

  lemma AutoInSteps(security: Security, opts: ConnectionOptions)
    ensures SaysLast(WifiSteps(security, opts), "ipv4", 1) && IpSays(WifiSteps(security, opts)[1], "ipv4") == Some("auto")
    ensures SaysLast(WifiSteps(security, opts), "ipv6", 2) && IpSays(WifiSteps(security, opts)[2], "ipv6") == Some("auto")
  {
  }

  lemma IpMethodIs(settings: Settings, steps: seq<Step>, section: string, i: nat)
    requires HoldsLastIp(settings, steps, section) && SaysLast(steps, section, i)
    ensures Present(settings, section) == Some(map["method" := Str(IpSays(steps[i], section).value)])
  {
  }

  lemma AutoHeld(settings: Settings, steps: seq<Step>, security: Security, opts: ConnectionOptions)
    requires steps == WifiSteps(security, opts) && HoldsLastIp(settings, steps, "ipv4") && HoldsLastIp(settings, steps, "ipv6")
    ensures Present(settings, "ipv4") == Some(map["method" := Str("auto")])
    ensures Present(settings, "ipv6") == Some(map["method" := Str("auto")])
  {
    AutoInSteps(security, opts);
    IpMethodIs(settings, steps, "ipv4", 1);
    IpMethodIs(settings, steps, "ipv6", 2);
  }

  /** The connect operations ask for automatic addresses in both sections. */
  lemma BothSectionsAuto(ssid: string, uuid: string, security: Security, opts: ConnectionOptions)
    requires WifiSettings(ssid, uuid, security, opts).Some?
    ensures var settings := WifiSettings(ssid, uuid, security, opts).value;
            && Present(settings, "ipv4") == Some(map["method" := Str("auto")])
            && Present(settings, "ipv6") == Some(map["method" := Str("auto")])
  {
    var steps := WifiSteps(security, opts);
    BuiltHoldsLastIp(ssid, uuid, steps, "ipv4");
    BuiltHoldsLastIp(ssid, uuid, steps, "ipv6");
    AutoHeld(Built(Run(ssid, uuid, steps).value), steps, security, opts);
  }

  lemma StepAddsNoOther(b: State, step: Step, section: string)
    requires section !in {"connection", "802-11-wireless-security", "802-1x", "ipv4", "ipv6"} && Applied(b, step).Some?
    ensures Present(Applied(b, step).value.settings, section) == Present(b.settings, section)
  {
  }

  /** No call adds any other section. */
  lemma {:induction false} NoOtherSections(ssid: string, uuid: string, steps: seq<Step>, section: string)
    requires section !in {"connection", "802-11-wireless", "802-11-wireless-security", "802-1x", "ipv4", "ipv6"}
    requires Run(ssid, uuid, steps).Some?
    ensures section !in Built(Run(ssid, uuid, steps).value)
  {
    if steps != [] {
      NoOtherSections(ssid, uuid, steps[..|steps| - 1], section);
      StepAddsNoOther(Run(ssid, uuid, steps[..|steps| - 1]).value, steps[|steps| - 1], section);
    }
  }

  // ----- The other entries: the last call that sets one decides it

  datatype Field = ModeField | HiddenField | BandField | BssidField | AutoconnectField | PriorityField | RetriesField

  /** What a call says about a field. */
  function Says(step: Step, field: Field): Option<Value> {
    match (step, field)
    case (Mode(Infrastructure), ModeField) => Some(Str("infrastructure"))
    case (Mode(Ap), ModeField) => Some(Str("ap"))
    case (Mode(Adhoc), ModeField) => Some(Str("adhoc"))
    case (Hidden(hidden), HiddenField) => Some(Bool(hidden))
    case (Band(Bg), BandField) => Some(Str("bg"))
    case (Band(A), BandField) => Some(Str("a"))
    case (Bssid(bssid), BssidField) => Some(Str(bssid))
    case (Autoconnect(enabled), AutoconnectField) => Some(Bool(enabled))
    case (Priority(priority), PriorityField) => Some(I32(priority))
    case (Retries(retries), RetriesField) => Some(I32(retries))
    case (Options(o), AutoconnectField) => Some(Bool(o.autoconnect))
    case (Options(o), PriorityField) => if o.autoconnectPriority.Some? then Some(I32(o.autoconnectPriority.value)) else None
    case (Options(o), RetriesField) => if o.autoconnectRetries.Some? then Some(I32(o.autoconnectRetries.value)) else None
    case _ => None
  }

  function Last(steps: seq<Step>, field: Field): Option<Value> {
    if steps == [] then None
    else if Says(steps[|steps| - 1], field).Some? then Says(steps[|steps| - 1], field)
    else Last(steps[..|steps| - 1], field)
  }

  /** The wireless fields of the builder, as the values they are built into. */
  function FieldValue(b: State, field: Field): Option<Value> {
    match field
    case ModeField => Some(Str(ModeName(b.mode)))
    case HiddenField => if b.hidden.Some? then Some(Bool(b.hidden.value)) else None
    case BandField => if b.band.Some? then Some(Str(BandName(b.band.value))) else None
    case BssidField => OptionalStr(b.bssid)
    case AutoconnectField => Lookup(b.settings, "connection", "autoconnect")
    case PriorityField => Lookup(b.settings, "connection", "autoconnect-priority")
    case RetriesField => Lookup(b.settings, "connection", "autoconnect-retries")
  }

  function Default(field: Field): Option<Value> {
    if field.ModeField? then Some(Str("infrastructure")) else None
  }

  /** An option goes into the connection section, or nowhere if that was taken out. */
  lemma SetConnectionLookup(settings: Settings, key: string, value: Value, other: string)
    ensures SetConnection(settings, key, value).Keys == settings.Keys
    ensures Lookup(SetConnection(settings, key, value), "connection", other) ==
            if other == key && "connection" in settings then Some(value) else Lookup(settings, "connection", other)
  {
  }

  lemma OptionsLookup(settings: Settings, opts: ConnectionOptions, key: string)
    requires "connection" in settings
    ensures "connection" in WithOptions(settings, opts)
    ensures Lookup(WithOptions(settings, opts), "connection", key) ==
            if key == "autoconnect" then Some(Bool(opts.autoconnect))
            else if key == "autoconnect-priority" && opts.autoconnectPriority.Some? then Some(I32(opts.autoconnectPriority.value))
            else if key == "autoconnect-retries" && opts.autoconnectRetries.Some? then Some(I32(opts.autoconnectRetries.value))
            else Lookup(settings, "connection", key)
  {
  }

  /** What a call says about an entry of the `connection` section. */
  function SaysKey(step: Step, key: string): Option<Value> {
    if key == "autoconnect" then Says(step, AutoconnectField)
    else if key == "autoconnect-priority" then Says(step, PriorityField)
    else if key == "autoconnect-retries" then Says(step, RetriesField)
    else None
  }

  lemma StepSetsConnection(b: State, step: Step, key: string)
    requires "connection" in b.settings && Applied(b, step).Some?
    ensures "connection" in Applied(b, step).value.settings
    ensures Lookup(Applied(b, step).value.settings, "connection", key) ==
            OrElse(SaysKey(step, key), Lookup(b.settings, "connection", key))
  {
    match step
    case Options(options) => OptionsLookup(b.settings, options, key);
    case Autoconnect(enabled) => SetConnectionLookup(b.settings, "autoconnect", Bool(enabled), key);
    case Priority(priority) => SetConnectionLookup(b.settings, "autoconnect-priority", I32(priority), key);
    case Retries(retries) => SetConnectionLookup(b.settings, "autoconnect-retries", I32(retries), key);
    case _ =>
  }

  lemma StepSetsField(b: State, step: Step, field: Field)
    requires "connection" in b.settings && Applied(b, step).Some?
    ensures FieldValue(Applied(b, step).value, field) == OrElse(Says(step, field), FieldValue(b, field))
    ensures Applied(b, step).value.ssid == b.ssid
  {
    match field
    case AutoconnectField => StepSetsConnection(b, step, "autoconnect");
    case PriorityField => StepSetsConnection(b, step, "autoconnect-priority");
    case RetriesField => StepSetsConnection(b, step, "autoconnect-retries");
    case _ =>
  }

  lemma {:induction false} ConnectionStays(ssid: string, uuid: string, steps: seq<Step>)
    requires Run(ssid, uuid, steps).Some?
    ensures "connection" in Run(ssid, uuid, steps).value.settings && Run(ssid, uuid, steps).value.ssid == ssid
  {
    if steps != [] {
      var n := |steps| - 1;
      ConnectionStays(ssid, uuid, steps[..n]);
      StepSetsConnection(Run(ssid, uuid, steps[..n]).value, steps[n], "id");
      StepSetsField(Run(ssid, uuid, steps[..n]).value, steps[n], ModeField);
    }
  }

  /** Every field holds what the last call that mentions it said, or its default. */
  lemma {:induction false} LastCallDecides(ssid: string, uuid: string, steps: seq<Step>, field: Field)
    requires Run(ssid, uuid, steps).Some?
    ensures FieldValue(Run(ssid, uuid, steps).value, field) == OrElse(Last(steps, field), Default(field))
  {
    if steps != [] {
      var n := |steps| - 1;
      LastCallDecides(ssid, uuid, steps[..n], field);
      ConnectionStays(ssid, uuid, steps[..n]);
      StepSetsField(Run(ssid, uuid, steps[..n]).value, steps[n], field);
    }
  }

  /** No builder call touches any other entry of the `connection` section. */
  lemma {:induction false} OtherEntriesStay(ssid: string, uuid: string, steps: seq<Step>, key: string)
    requires Run(ssid, uuid, steps).Some?
    requires key !in {"autoconnect", "autoconnect-priority", "autoconnect-retries"}
    ensures Lookup(Run(ssid, uuid, steps).value.settings, "connection", key) ==
            Lookup(NewSettings("802-11-wireless", ssid, uuid), "connection", key)
  {
    if steps != [] {
      var n := |steps| - 1;
      OtherEntriesStay(ssid, uuid, steps[..n], key);
      ConnectionStays(ssid, uuid, steps[..n]);
      StepSetsConnection(Run(ssid, uuid, steps[..n]).value, steps[n], key);
    }
  }

  // ----- Decoding what was built

  function TextOf(v: Option<Value>): Option<string> {
    if v.Some? && v.value.Str? then Some(v.value.text) else None
  }

  function FlagOf(v: Option<Value>): Option<bool> {
    if v.Some? && v.value.Bool? then Some(v.value.flag) else None
  }

  function IntOf(v: Option<Value>): Option<i32> {
    if v.Some? && v.value.I32? then Some(v.value.signed) else None
  }

  function SummaryOf(last: Option<Step>): Option<WifiSecuritySummary> {
    match last
    case Some(Psk(_)) => Some(WifiSecuritySummary(WpaPskKey, true, false, []))
    case Some(Eap(_, opts)) => Some(WifiSecuritySummary(WpaEapKey, false, false, [EapName(opts.method_)]))
    case _ => None
  }

  lemma PskSummary(psk: string)
    ensures DecodeWifiSecurity(PskSection(psk), map[]) == WifiSecuritySummary(WpaPskKey, true, false, [])
  {
  }

  lemma EapSecurityEntries(suiteB: bool)
    ensures var ws := EapSecuritySection(suiteB);
            && TakeStr(ws, "key-mgmt") == Some(EapKeyMgmt(suiteB)) && "psk" !in ws && TakeU32(ws, "psk-flags") == None
    ensures KeyMgmtFrom(EapKeyMgmt(suiteB), true) == WpaEapKey
  {
  }

  lemma EapSummary(suiteB: bool, opts: EapOptions)
    requires !PanicsOn(opts)
    ensures DecodeWifiSecurity(EapSecuritySection(suiteB), Dot1xSection(opts))
         == WifiSecuritySummary(WpaEapKey, false, false, [EapName(opts.method_)])
  {
    EapSecurityEntries(suiteB);
    Dot1xNamesMethod(opts);
    NamedSectionNotEmpty(Dot1xSection(opts), "eap");
  }

  lemma NamedSectionNotEmpty(section: Section, key: string)
    requires Get(section, key).Some?
    ensures section != map[]
  {
  }

  lemma WirelessGet(b: State, key: string)
    ensures Get(WirelessSection(b), key) ==
            if key == "ssid" then Some(Bytes(Utf8(b.ssid)))
            else if key == "mode" then FieldValue(b, ModeField)
            else if key == "hidden" then FieldValue(b, HiddenField)
            else if key == "band" then FieldValue(b, BandField)
            else if key == "bssid" then FieldValue(b, BssidField)
            else if key == "security" && b.secured then Some(Str("802-11-wireless-security"))
            else None
  {
    var base: Section := map["ssid" := Bytes(Utf8(b.ssid)), "mode" := Str(ModeName(b.mode))];
    var hidden := if b.hidden.Some? then Some(Bool(b.hidden.value)) else None;
    var band := if b.band.Some? then Some(Str(BandName(b.band.value))) else None;
    var security := if b.secured then Some(Str("802-11-wireless-security")) else None;
    var one := base + Entry("hidden", hidden);
    var two := one + Entry("band", band);
    var three := two + Entry("bssid", OptionalStr(b.bssid));
    GetPlus(base, "hidden", hidden, key);
    GetPlus(one, "band", band, key);
    GetPlus(two, "bssid", OptionalStr(b.bssid), key);
    GetPlus(three, "security", security, key);
  }

  lemma WirelessTexts(b: State)
    ensures var w := WirelessSection(b);
            && TakeStr(w, "mode") == TextOf(FieldValue(b, ModeField)) && TakeStr(w, "band") == TextOf(FieldValue(b, BandField))
            && TakeStr(w, "bssid") == TextOf(FieldValue(b, BssidField))
            && TakeStr(w, "security").Some? == b.secured
  {
    WirelessGet(b, "mode");
    WirelessGet(b, "band");
    WirelessGet(b, "bssid");
    WirelessGet(b, "security");
  }

  lemma WirelessOthers(b: State)
    ensures var w := WirelessSection(b);
            && TakeBytes(w, "ssid") == Some(Utf8(b.ssid)) && TakeBool(w, "hidden") == FlagOf(FieldValue(b, HiddenField))
            && TakeU32(w, "channel") == None && TakeStr(w, "mac-address-randomization") == None
  {
    WirelessGet(b, "ssid");
    WirelessGet(b, "hidden");
    WirelessGet(b, "channel");
    WirelessGet(b, "mac-address-randomization");
    BytesOfBytes(Utf8(b.ssid));
  }

  function SummaryBuilt(b: State, last: Option<Step>): SettingsSummary {
    Wifi(b.ssid, TextOf(FieldValue(b, ModeField)), SummaryOf(last), TextOf(FieldValue(b, BandField)), None,
         TextOf(FieldValue(b, BssidField)), FlagOf(FieldValue(b, HiddenField)).GetOr(false), None)
  }

  /** The security summary a built profile decodes to. */
  lemma SecurityDecodes(b: State, last: Option<Step>)
    requires Present(b.settings, "802-11-wireless-security") == SecuritySection(last)
    requires Present(b.settings, "802-1x") == AuthSection(last)
    requires b.secured == SecuritySection(last).Some?
    requires last.Some? && last.value.Eap? ==> !PanicsOn(last.value.opts)
    ensures var settings := Built(b);
            var security := SectionOf(settings, "802-11-wireless-security");
            && (b.secured || "802-11-wireless-security" in settings || "802-1x" in settings <==> SummaryOf(last).Some?)
            && (SummaryOf(last).Some? ==> SummaryOf(last) == Some(DecodeWifiSecurity(security, SectionOf(settings, "802-1x"))))
  {
    match last
    case Some(Psk(psk)) => PskSummary(psk);
    case Some(Eap(suiteB, opts)) => EapSummary(suiteB, opts);
    case _ =>
  }

  lemma WifiDecodes(b: State, last: Option<Step>)
    requires Present(b.settings, "802-11-wireless-security") == SecuritySection(last)
    requires Present(b.settings, "802-1x") == AuthSection(last)
    requires b.secured == SecuritySection(last).Some?
    requires last.Some? && last.value.Eap? ==> !PanicsOn(last.value.opts)
    ensures DecodeWifi(Built(b)) == SummaryBuilt(b, last)
  {
    WirelessTexts(b);
    WirelessOthers(b);
    Utf8RoundTrip(b.ssid);
    SecurityDecodes(b, last);
    assert SectionOf(Built(b), "802-11-wireless") == WirelessSection(b);
  }

  lemma BuiltConnection(ssid: string, uuid: string, steps: seq<Step>, key: string)
    requires Run(ssid, uuid, steps).Some?
    ensures var settings := Built(Run(ssid, uuid, steps).value);
            && "connection" in settings
            && Get(settings["connection"], key) ==
               if key == "uuid" then Some(Str(uuid))
               else if key == "id" then Some(Str(ssid))
               else if key == "type" then Some(Str("802-11-wireless"))
               else if key == "autoconnect" then Last(steps, AutoconnectField)
               else if key == "autoconnect-priority" then Last(steps, PriorityField)
               else if key == "autoconnect-retries" then Last(steps, RetriesField)
               else None
  {
    ConnectionStays(ssid, uuid, steps);
    if key == "autoconnect" {
      LastCallDecides(ssid, uuid, steps, AutoconnectField);
    } else if key == "autoconnect-priority" {
      LastCallDecides(ssid, uuid, steps, PriorityField);
    } else if key == "autoconnect-retries" {
      LastCallDecides(ssid, uuid, steps, RetriesField);
    } else {
      OtherEntriesStay(ssid, uuid, steps, key);
    }
  }

  lemma BuiltIdentity(ssid: string, uuid: string, steps: seq<Step>)
    requires Run(ssid, uuid, steps).Some?
    ensures var conn := SectionOf(Built(Run(ssid, uuid, steps).value), "connection");
            && TakeStr(conn, "uuid") == Some(uuid) && TakeStr(conn, "id") == Some(ssid)
            && TakeStr(conn, "type") == Some("802-11-wireless") && TakeStr(conn, "interface-name") == None
  {
    BuiltConnection(ssid, uuid, steps, "uuid");
    BuiltConnection(ssid, uuid, steps, "id");
    BuiltConnection(ssid, uuid, steps, "type");
    BuiltConnection(ssid, uuid, steps, "interface-name");
  }

  lemma BuiltOptions(ssid: string, uuid: string, steps: seq<Step>)
    requires Run(ssid, uuid, steps).Some?
    ensures var conn := SectionOf(Built(Run(ssid, uuid, steps).value), "connection");
            && TakeBool(conn, "autoconnect") == FlagOf(Last(steps, AutoconnectField))
            && TakeI32(conn, "autoconnect-priority") == IntOf(Last(steps, PriorityField))
            && TakeU64(conn, "timestamp") == None && StrVec(conn, "permissions") == []
  {
    BuiltConnection(ssid, uuid, steps, "autoconnect");
    BuiltConnection(ssid, uuid, steps, "autoconnect-priority");
    BuiltConnection(ssid, uuid, steps, "timestamp");
    BuiltConnection(ssid, uuid, steps, "permissions");
  }

  /** The summary in terms of the calls alone. */
  function SummaryFor(ssid: string, steps: seq<Step>): SettingsSummary {
    Wifi(ssid, Some(TextOf(Last(steps, ModeField)).GetOr("infrastructure")), SummaryOf(LastSecurity(steps)),
         TextOf(Last(steps, BandField)), None, TextOf(Last(steps, BssidField)),
         FlagOf(Last(steps, HiddenField)).GetOr(false), None)
  }

  lemma {:induction false} LastModeIsText(steps: seq<Step>)
    ensures Last(steps, ModeField).Some? ==> Last(steps, ModeField).value.Str?
  {
    if steps != [] {
      LastModeIsText(steps[..|steps| - 1]);
    }
  }

  lemma {:induction false} LastSecurityDidNotPanic(ssid: string, uuid: string, steps: seq<Step>)
    requires Run(ssid, uuid, steps).Some?
    ensures LastSecurity(steps).Some? && LastSecurity(steps).value.Eap? ==> !PanicsOn(LastSecurity(steps).value.opts)
  {
    if steps != [] {
      LastSecurityDidNotPanic(ssid, uuid, steps[..|steps| - 1]);
    }
  }

  lemma BuiltSummary(ssid: string, uuid: string, steps: seq<Step>)
    requires Run(ssid, uuid, steps).Some?
    ensures DecodeWifi(Built(Run(ssid, uuid, steps).value)) == SummaryFor(ssid, steps)
  {
    var b := Run(ssid, uuid, steps).value;
    LastSecurityDecides(ssid, uuid, steps);
    LastSecurityDidNotPanic(ssid, uuid, steps);
    WifiDecodes(b, LastSecurity(steps));
    ConnectionStays(ssid, uuid, steps);
    LastModeIsText(steps);
    LastCallDecides(ssid, uuid, steps, ModeField);
    LastCallDecides(ssid, uuid, steps, BandField);
    LastCallDecides(ssid, uuid, steps, BssidField);
    LastCallDecides(ssid, uuid, steps, HiddenField);
  }

  /** Round trip for every sequence of builder calls that does not panic: the decoded
      profile has the SSID as given, and every other field as the last call that mentions
      it said. */
  lemma BuiltDecodes(path: string, unsaved: bool, filename: Option<string>, ssid: string, uuid: string, steps: seq<Step>)
    requires Run(ssid, uuid, steps).Some?
    ensures DecodeSaved(path, unsaved, filename, Built(Run(ssid, uuid, steps).value)) ==
            Ok(Saved(path, uuid, ssid, "802-11-wireless", None, FlagOf(Last(steps, AutoconnectField)).GetOr(true),
                     IntOf(Last(steps, PriorityField)).GetOr(0), 0, [], unsaved, filename, SummaryFor(ssid, steps)))
  {
    BuiltIdentity(ssid, uuid, steps);
    BuiltOptions(ssid, uuid, steps);
    BuiltSummary(ssid, uuid, steps);
  }

  /** The profile that the connect operations expect to find back. */
  function ExpectedSaved(path: string, unsaved: bool, filename: Option<string>, ssid: string, uuid: string,
                         security: Security, opts: ConnectionOptions): Saved {
    Saved(path, uuid, ssid, "802-11-wireless", None, opts.autoconnect, opts.autoconnectPriority.GetOr(0), 0, [], unsaved, filename,
          Wifi(ssid, Some("infrastructure"), ExpectedSecurity(security), None, None, None, false, None))
  }

  /** No security summary exactly for open networks. */
  function ExpectedSecurity(security: Security): (r: Option<WifiSecuritySummary>)
    ensures r.None? <==> security.Open?
  {
    match security
    case Open => None
    case WpaPsk(_) => Some(WifiSecuritySummary(WpaPskKey, true, false, []))
    case WpaEap(opts) => Some(WifiSecuritySummary(WpaEapKey, false, false, [EapName(opts.method_)]))
    case Wpa3Eap192bit(opts) => Some(WifiSecuritySummary(WpaEapKey, false, false, [EapName(opts.method_)]))
  }

  /** Building and decoding a Wi-Fi profile, for every SSID, every accepted credential and
      every option: nothing panics, and the decoded profile is the requested one. */
  lemma WifiRoundTrip(path: string, unsaved: bool, filename: Option<string>, ssid: string, uuid: string,
                      security: Security, opts: ConnectionOptions)
    requires ValidateWifiSecurity(security).Ok?
    ensures WifiSettings(ssid, uuid, security, opts).Some?
    ensures DecodeSaved(path, unsaved, filename, WifiSettings(ssid, uuid, security, opts).value)
         == Ok(ExpectedSaved(path, unsaved, filename, ssid, uuid, security, opts))
  {
    var steps := WifiSteps(security, opts);
    WifiStepsRun(ssid, uuid, security, opts);
    BuiltDecodes(path, unsaved, filename, ssid, uuid, steps);
    WifiStepsSay(security, opts);
  }

  lemma WifiStepsRun(ssid: string, uuid: string, security: Security, opts: ConnectionOptions)
    requires ValidateWifiSecurity(security).Ok?
    ensures Run(ssid, uuid, WifiSteps(security, opts)).Some?
  {
    var steps := WifiSteps(security, opts);
    PanicsExactly(ssid, uuid, steps);
    if security.IsEap() {
      ValidatedEap(security.opts);
    }
  }

  lemma WifiStepsSay(security: Security, opts: ConnectionOptions)
    ensures var steps := WifiSteps(security, opts);
            && LastSecurity(steps) == Some(SecurityStep(security))
            && Last(steps, AutoconnectField) == Some(Bool(opts.autoconnect))
            && IntOf(Last(steps, PriorityField)) == opts.autoconnectPriority
            && Last(steps, ModeField) == None && Last(steps, BandField) == None
            && Last(steps, BssidField) == None && Last(steps, HiddenField) == None
  {
    var steps := WifiSteps(security, opts);
    assert steps[..3][..2] == steps[..2] && steps[..2][..1] == steps[..1] && steps[..1][..0] == [];
    forall field: Field
      ensures Last(steps, field) == Says(steps[0], field)
    {
      assert Last(steps, field) == Last(steps[..3], field) == Last(steps[..2], field) == Last(steps[..1], field);
      assert Last(steps[..0], field) == None;
    }
  }

  /** The 802.1X section of every profile built from validated TLS credentials carries both
      the private key and the client certificate. */
  lemma ValidatedTlsCarriesKeyAndCert(ssid: string, uuid: string, security: Security, opts: ConnectionOptions)
    requires security.IsEap() && ValidateWifiSecurity(security).Ok? && security.opts.method_.Tls?
    ensures WifiSettings(ssid, uuid, security, opts).Some?
    ensures var settings := WifiSettings(ssid, uuid, security, opts).value;
            "802-1x" in settings && "private-key" in settings["802-1x"] && "client-cert" in settings["802-1x"]
  {
    var steps := WifiSteps(security, opts);
    WifiStepsRun(ssid, uuid, security, opts);
    WifiStepsSay(security, opts);
    LastSecurityDecides(ssid, uuid, steps);
    ValidatedTlsSection(security.opts);
    assert Present(Run(ssid, uuid, steps).value.settings, "802-1x") == Some(Dot1xSection(security.opts));
  }
}
