/** Wi-Fi credentials and the checks made before any of them are used. */
module WifiSecurity {
  import opened Wrappers
  import opened Errors
  import opened Text

  datatype EapMethod = Peap | Ttls | Tls

  datatype Phase2 = Mschapv2 | Pap

  datatype EapOptions = EapOptions(
    identity: string,
    password: string,
    anonymousIdentity: Option<string>,
    domainSuffixMatch: Option<string>,
    caCertPath: Option<string>,
    caCertBlob: Option<seq<u8>>,
    systemCaCerts: bool,
    method_: EapMethod,
    phase2: Phase2,
    privateKeyPath: Option<string>,
    privateKeyBlob: Option<seq<u8>>,
    privateKeyPassword: Option<string>,
    clientCertPath: Option<string>,
    clientCertBlob: Option<seq<u8>>)

  datatype Security =
    | Open
    | WpaPsk(psk: string)
    | WpaEap(opts: EapOptions)
    | Wpa3Eap192bit(opts: EapOptions)
  {
    predicate IsEap() {
      WpaEap? || Wpa3Eap192bit?
    }

    /** An empty passphrase asks for the stored one. */
    predicate IsStoredPsk() {
      WpaPsk? && psk == ""
    }
  }

  const MAX_SSID_BYTES := 32
  const MIN_WPA_PSK_LENGTH := 8
  const MAX_WPA_PSK_LENGTH := 63

  type Checked<+T> = Result<T, ConnectionError>

  function ValidateSsid(ssid: string): Checked<()> {
    if ssid == "" || IsBlank(ssid) || |Utf8(ssid)| > MAX_SSID_BYTES then Err(InvalidAddress) else Ok(())
  }

  /** Whether a path or blob was given; lengths of passphrases are counted in bytes. */
  function ValidatePathOrBlob(path: Option<string>, blob: Option<seq<u8>>): Checked<bool> {
    match (path, blob)
    case (None, None) => Ok(false)
    case (Some(p), None) =>
      if IsBlank(p) then Err(InvalidAddress)
      else if !("file://" <= p) then Err(InvalidAddress)
      else Ok(true)
    case (None, Some(_)) => Ok(true)
    case (Some(_), Some(_)) => Err(InvalidAddress)
  }

  predicate PresentButBlank(o: Option<string>) {
    o.Some? && IsBlank(o.value)
  }

  function ValidateWifiEap(opts: EapOptions): Checked<()> {
    if IsBlank(opts.identity) then Err(InvalidAddress)
    else if opts.method_.Tls? then
      var key := ValidatePathOrBlob(opts.privateKeyPath, opts.privateKeyBlob);
      if key.Err? then Err(key.error)
      else if !key.value then Err(InvalidAddress)
      else
        var cert := ValidatePathOrBlob(opts.clientCertPath, opts.clientCertBlob);
        if cert.Err? then Err(cert.error)
        else if !cert.value then Err(InvalidAddress)
        else ValidateCaCert(opts)
    else if opts.password == "" || PresentButBlank(opts.anonymousIdentity) || PresentButBlank(opts.domainSuffixMatch)
    then Err(InvalidAddress)
    else ValidateCaCert(opts)
  }

  function ValidateCaCert(opts: EapOptions): Checked<()> {
    var ca := ValidatePathOrBlob(opts.caCertPath, opts.caCertBlob);
    if ca.Err? then Err(ca.error) else Ok(())
  }

  function ValidateWifiSecurity(security: Security): Checked<()> {
    match security
    case Open => Ok(())
    case WpaPsk(psk) =>
      if psk == "" then Ok(())
      else if |Utf8(psk)| < MIN_WPA_PSK_LENGTH || |Utf8(psk)| > MAX_WPA_PSK_LENGTH then Err(InvalidAddress)
      else Ok(())
    case WpaEap(opts) => ValidateWifiEap(opts)
    case Wpa3Eap192bit(opts) => if !opts.method_.Tls? then Err(InvalidAddress) else ValidateWifiEap(opts)
  }

  /** A path that NetworkManager accepts: not blank, and a file URL. */
  predicate IsFileUrl(path: string) {
    !IsBlank(path) && "file://" <= path
  }

  predicate GivenWell(path: Option<string>, blob: Option<seq<u8>>) {
    !(path.Some? && blob.Some?) && (path.Some? ==> IsFileUrl(path.value))
  }

  predicate GivenOnce(path: Option<string>, blob: Option<seq<u8>>) {
    GivenWell(path, blob) && (path.Some? || blob.Some?)
  }

  predicate AcceptableEap(opts: EapOptions) {
    && !IsBlank(opts.identity)
    && GivenWell(opts.caCertPath, opts.caCertBlob)
    && if opts.method_.Tls?
       then GivenOnce(opts.privateKeyPath, opts.privateKeyBlob) && GivenOnce(opts.clientCertPath, opts.clientCertBlob)
       else
         && opts.password != ""
         && (opts.anonymousIdentity.Some? ==> !IsBlank(opts.anonymousIdentity.value))
         && (opts.domainSuffixMatch.Some? ==> !IsBlank(opts.domainSuffixMatch.value))
  }

  /** An SSID is accepted exactly when some character of it is not white space and it takes
      at most 32 bytes. */
  lemma SsidAcceptedExactly(ssid: string)
    ensures ValidateSsid(ssid) in {Ok(()), Err(InvalidAddress)}
    ensures ValidateSsid(ssid).Ok? <==> (exists i :: 0 <= i < |ssid| && !IsWhitespace(ssid[i])) && |Utf8(ssid)| <= 32
  {
    assert forall i :: 0 <= i < |ssid| ==> ssid[i] in ssid;
  }

  /** Exactly which credentials are accepted; every rejection is the same error. */
  lemma AcceptedExactly(security: Security)
    ensures ValidateWifiSecurity(security) in {Ok(()), Err(InvalidAddress)}
    ensures ValidateWifiSecurity(security).Ok? <==>
              match security
              case Open => true
              case WpaPsk(psk) => psk == "" || 8 <= |Utf8(psk)| <= 63
              case WpaEap(opts) => AcceptableEap(opts)
              case Wpa3Eap192bit(opts) => opts.method_.Tls? && AcceptableEap(opts)
  {
  }

  predicate AcceptedPsk(psk: string) {
    ValidateWifiSecurity(WpaPsk(psk)).Ok?
  }

  /** The documented rule: 8 to 63 characters. */
  predicate WithinCharacterLimits(psk: string) {
    MIN_WPA_PSK_LENGTH <= |psk| <= MAX_WPA_PSK_LENGTH
  }

  /** Too short in characters but long enough in bytes, or the other way round at the top. */
  predicate BytesCrossLimit(psk: string) {
    |psk| < MIN_WPA_PSK_LENGTH <= |Utf8(psk)| <= MAX_WPA_PSK_LENGTH
    || MIN_WPA_PSK_LENGTH <= |psk| <= MAX_WPA_PSK_LENGTH < |Utf8(psk)|
  }

  /** A given passphrase is judged by the documented character rule exactly when its byte
      length does not cross a limit that its character length does not cross. */
  lemma CharacterRuleHoldsExactly(psk: string)
    requires psk != ""
    ensures (AcceptedPsk(psk) <==> WithinCharacterLimits(psk)) <==> !BytesCrossLimit(psk)
  {
    Utf8NotShorter(psk);
  }

  /** `n` times the letter e with an acute accent, two bytes each. */
  function TwoByteText(n: nat): (s: string)
    ensures |s| == n && |Utf8(s)| == 2 * n
  {
    if n == 0 then ""
    else
      var rest := TwoByteText(n - 1);
      assert (['\U{E9}'] + rest)[1..] == rest;
      ['\U{E9}'] + rest
  }

  /** The two rules do differ, at both ends: four two-byte characters are accepted, and
      thirty-two of them are rejected. */
  lemma CharacterRuleFails()
    ensures AcceptedPsk(TwoByteText(4)) && !WithinCharacterLimits(TwoByteText(4))
    ensures !AcceptedPsk(TwoByteText(32)) && WithinCharacterLimits(TwoByteText(32))
  {
    assert TwoByteText(4) != "" && TwoByteText(32) != "";
  }
}
