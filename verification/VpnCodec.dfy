/** The string codecs of the VPN code: OpenVPN remotes and WireGuard peers. */
module VpnCodec {
  import opened Wrappers
  import opened Errors
  import opened Text
  import opened SettingsDict

  // ----- OpenVPN remotes

  const DEFAULT_PORT: u16 := 1194
  const MAX_PORT := 0xFFFF

  function PortOr(s: string): u16 {
    ParseUnsigned(s, MAX_PORT).GetOr(DEFAULT_PORT)
  }

  /** An opening bracket with a closing one somewhere after it. */
  predicate Bracketed(remote: string) {
    remote != "" && remote[0] == '[' && ']' in remote[1..]
  }

  function ParseOpenvpnRemote(remote: string): (string, u16) {
    if Bracketed(remote) then
      var close := IndexOf(remote[1..], ']');
      var suffix := remote[1..][close + 1..];
      (remote[1..][..close], if suffix != "" && suffix[0] == ':' then PortOr(suffix[1..]) else DEFAULT_PORT)
    else if CountOf(remote, ':') == 1 && LastIndexOf(remote, ':') >= 0 then
      var colon := LastIndexOf(remote, ':');
      (remote[..colon], PortOr(remote[colon + 1..]))
    else (remote, DEFAULT_PORT)
  }

  /** Host and port in the usual notation: a host with a colon goes into brackets. */
  function PrintRemote(host: string, port: u16): string {
    if ':' in host then "[" + host + "]" + ":" + Decimal(port) else host + ":" + Decimal(port)
  }

  /** The notation of the OpenVPN profile builder, which never adds brackets. */
  function BuilderRemote(host: string, port: u16): string {
    host + ":" + Decimal(port)
  }

  lemma PortRoundTrip(port: u16)
    ensures PortOr(Decimal(port)) == port
    ensures ':' !in Decimal(port) && ']' !in Decimal(port)
  {
    ParseDecimal(port, MAX_PORT);
  }

  /** A bracketed host ends at its first closing bracket. */
  lemma ParseBracketed(host: string, port: u16)
    requires ']' !in host
    ensures ParseOpenvpnRemote("[" + host + "]" + ":" + Decimal(port)) == (host, port)
  {
    assert "[" + host + "]" + ":" + Decimal(port) == "[" + host + "]" + (":" + Decimal(port));
    BracketedPort(host, ":" + Decimal(port));
    assert (":" + Decimal(port))[1..] == Decimal(port);
    PortRoundTrip(port);
  }

  /** Without brackets in the way, host and port are told apart exactly when the host has
      no colon of its own. */
  lemma ParsePlain(host: string, port: u16)
    requires !Bracketed(BuilderRemote(host, port))
    ensures ':' !in host ==> ParseOpenvpnRemote(BuilderRemote(host, port)) == (host, port)
    ensures ':' in host ==> ParseOpenvpnRemote(BuilderRemote(host, port)) == (BuilderRemote(host, port), 1194)
  {
    PortRoundTrip(port);
    if ':' !in host {
      PlainPort(host, Decimal(port));
    } else {
      CountAppend(host + ":", Decimal(port), ':');
      CountAppend(host, ":", ':');
      CountZero(host, ':');
      assert CountOf(":", ':') == 1 + CountOf("", ':') by { assert ":"[1..] == ""; }
      NoPort(BuilderRemote(host, port));
    }
  }

  lemma BuilderBracketed(host: string, port: u16)
    ensures Bracketed(BuilderRemote(host, port)) <==> Bracketed(host)
    ensures Bracketed(host) ==> |ParseOpenvpnRemote(BuilderRemote(host, port)).0| < |host|
  {
    var remote := BuilderRemote(host, port);
    PortRoundTrip(port);
    if host != "" {
      assert remote[1..] == host[1..] + (":" + Decimal(port));
      assert forall c :: c in remote[1..] <==> c in host[1..] || c in ":" + Decimal(port);
      if Bracketed(host) {
        var i := IndexOf(host[1..], ']');
        assert remote[1..][i] == ']';
        assert IndexOf(remote[1..], ']') <= i;
      }
    }
  }

  /** Parsing gives back what the builder printed exactly when the host has no colon and
      is not itself in brackets. */
  lemma BuiltRemoteExactly(host: string, port: u16)
    ensures ParseOpenvpnRemote(BuilderRemote(host, port)) == (host, port) <==> ':' !in host && !Bracketed(host)
  {
    BuilderBracketed(host, port);
    if !Bracketed(host) {
      ParsePlain(host, port);
    }
  }

  /** A host given to the builder in brackets is read back without them. */
  lemma BuiltBracketedRemote(host: string, port: u16)
    requires ']' !in host
    ensures ParseOpenvpnRemote(BuilderRemote("[" + host + "]", port)) == (host, port)
  {
    assert BuilderRemote("[" + host + "]", port) == "[" + host + "]" + ":" + Decimal(port);
    ParseBracketed(host, port);
  }

  /** Parsing undoes printing exactly when the host has no closing bracket in a place where
      it would end the host early: none at all next to a colon, none after a leading "[". */
  lemma ParsePrintedExactly(host: string, port: u16)
    ensures ParseOpenvpnRemote(PrintRemote(host, port)) == (host, port) <==>
            !(']' in host && (':' in host || host[0] == '['))
  {
    if ':' in host {
      if ']' in host {
        PrintedTooShort(host, port);
      } else {
        ParseBracketed(host, port);
      }
    } else {
      BuiltRemoteExactly(host, port);
      assert host != "" && host[0] == '[' ==> (']' in host <==> ']' in host[1..]);
    }
  }

  lemma EarlierClose(host: string, tail: string)
    requires ']' in host
    ensures IndexOf(host + tail, ']') < |host| && ']' in host + tail
  {
    var i := IndexOf(host, ']');
    assert (host + tail)[i] == ']';
  }

  lemma PrintedTooShort(host: string, port: u16)
    requires ':' in host && ']' in host
    ensures |ParseOpenvpnRemote(PrintRemote(host, port)).0| < |host|
  {
    var remote, tail := PrintRemote(host, port), "]" + ":" + Decimal(port);
    BracketPieces(host, Decimal(port));
    assert host + "]" + (":" + Decimal(port)) == host + tail;
    assert remote[0] == '[' && remote[1..] == host + tail;
    EarlierClose(host, tail);
  }

  /** What was parsed once parses the same again after printing, except that a remote with
      several colons and a closing bracket, not in the bracket notation, is not stable. */
  lemma ReprintExactly(remote: string)
    ensures var (host, port) := ParseOpenvpnRemote(remote);
            ParseOpenvpnRemote(PrintRemote(host, port)) == (host, port) <==>
            (Bracketed(remote) || CountOf(remote, ':') < 2 || ']' !in remote)
  {
    var (host, port) := ParseOpenvpnRemote(remote);
    ParsePrintedExactly(host, port);
    if !Bracketed(remote) {
      CountZero(remote, ':');
      if CountOf(remote, ':') == 1 {
        var colon := LastIndexOf(remote, ':');
        OneColonSplits(remote);
        assert host == remote[..colon];
        PrefixBracketed(remote, colon);
      } else if remote != "" && remote[0] == '[' {
        assert ']' in remote <==> ']' in remote[1..];
      }
    }
  }

  lemma PrefixBracketed(remote: string, n: nat)
    requires n <= |remote|
    ensures Bracketed(remote[..n]) ==> Bracketed(remote)
  {
  }

  lemma OneColonSplits(remote: string)
    requires CountOf(remote, ':') == 1
    ensures var colon := LastIndexOf(remote, ':');
            colon >= 0 && ':' !in remote[..colon]
  {
    var colon := LastIndexOf(remote, ':');
    CountZero(remote, ':');
    assert remote == remote[..colon] + [remote[colon]] + remote[colon + 1..];
    CountAppend(remote[..colon] + [remote[colon]], remote[colon + 1..], ':');
    CountAppend(remote[..colon], [remote[colon]], ':');
    assert CountOf([remote[colon]], ':') == 1 + CountOf([], ':') by { assert [remote[colon]][1..] == []; }
    CountZero(remote[..colon], ':');
  }

  /** In brackets: whatever follows them is a port only after a colon. */
  lemma BracketedPort(host: string, suffix: string)
    requires ']' !in host
    ensures ParseOpenvpnRemote("[" + host + "]" + suffix) ==
            (host, if suffix != "" && suffix[0] == ':' then PortOr(suffix[1..]) else 1194)
  {
    var remote := "[" + host + "]" + suffix;
    assert remote[1..] == host + "]" + suffix;
    IndexOfAppend(host, ']', suffix);
    assert remote[1..][|host|] == ']';
    assert remote[1..][..|host|] == host && remote[1..][|host| + 1..] == suffix;
  }

  /** Without brackets: a single colon separates host and port. */
  lemma PlainPort(host: string, raw: string)
    requires ':' !in host && ':' !in raw && !Bracketed(host + ":" + raw)
    ensures ParseOpenvpnRemote(host + ":" + raw) == (host, PortOr(raw))
  {
    var remote := host + ":" + raw;
    CountAppend(host + ":", raw, ':');
    CountAppend(host, ":", ':');
    CountZero(host, ':');
    CountZero(raw, ':');
    assert CountOf(":", ':') == 1 + CountOf("", ':') by { assert ":"[1..] == ""; }
    var colon := LastIndexOf(remote, ':');
    assert remote[|host|] == ':';
    assert forall j :: |host| < j < |remote| ==> remote[j] == raw[j - |host| - 1];
    assert colon == |host|;
    assert remote[..colon] == host && remote[colon + 1..] == raw;
  }

  /** No colon, or several of them without brackets: all of it is the host. */
  lemma NoPort(remote: string)
    requires !Bracketed(remote) && CountOf(remote, ':') != 1
    ensures ParseOpenvpnRemote(remote) == (remote, 1194)
  {
  }

  /** The remote spells out this port, in brackets or behind its only colon. */
  ghost predicate WritesPort(remote: string, host: string, raw: string, port: u16) {
    && ParseUnsigned(raw, 0xFFFF) == Some(port)
    && ((']' !in host && remote == "[" + host + "]" + ":" + raw)
        || (!Bracketed(remote) && ':' !in host && ':' !in raw && remote == host + ":" + raw))
  }

  /** Every remote at all: the port is the one it spells out in one of the two notations,
      and 1194 if it spells out none, because it is missing or is no 16-bit number. */
  lemma MissingPortIsDefault(remote: string)
    ensures var (host, port) := ParseOpenvpnRemote(remote);
            && (forall h, raw, n :: WritesPort(remote, h, raw, n) ==> host == h && port == n)
            && (port == 1194 || exists raw :: WritesPort(remote, host, raw, port))
  {
    var (host, port) := ParseOpenvpnRemote(remote);
    forall h, raw, n | WritesPort(remote, h, raw, n)
      ensures host == h && port == n
    {
      if ']' !in h && remote == "[" + h + "]" + ":" + raw {
        assert remote == "[" + h + "]" + (":" + raw);
        BracketedPort(h, ":" + raw);
        assert (":" + raw)[1..] == raw;
      } else {
        PlainPort(h, raw);
      }
    }
    if port != 1194 && Bracketed(remote) {
      var raw := BracketedIsWritten(remote);
    } else if port != 1194 {
      var raw := PlainIsWritten(remote);
    }
  }

  lemma BracketPieces(h: string, raw: string)
    ensures "[" + (h + "]" + (":" + raw)) == "[" + h + "]" + ":" + raw
  {
  }

  lemma BracketedIsWritten(remote: string) returns (raw: string)
    requires Bracketed(remote) && ParseOpenvpnRemote(remote).1 != 1194
    ensures WritesPort(remote, ParseOpenvpnRemote(remote).0, raw, ParseOpenvpnRemote(remote).1)
  {
    var host, suffix := BracketSplit(remote);
    BracketedPort(host, suffix);
    raw := suffix[1..];
    SuffixPieces(host, suffix, raw);
  }

  lemma SuffixPieces(host: string, suffix: string, raw: string)
    requires suffix != "" && suffix[0] == ':' && suffix[1..] == raw
    ensures "[" + host + "]" + suffix == "[" + host + "]" + ":" + raw
  {
    assert suffix == ":" + raw;
  }

  lemma BracketSplit(remote: string) returns (host: string, suffix: string)
    requires Bracketed(remote)
    ensures ']' !in host && remote == "[" + host + "]" + suffix
  {
    var rest := remote[1..];
    var close := IndexOf(rest, ']');
    host, suffix := rest[..close], rest[close + 1..];
    assert rest == host + "]" + suffix;
  }

  lemma PlainIsWritten(remote: string) returns (raw: string)
    requires !Bracketed(remote) && ParseOpenvpnRemote(remote).1 != 1194
    ensures WritesPort(remote, ParseOpenvpnRemote(remote).0, raw, ParseOpenvpnRemote(remote).1)
  {
    var colon := LastIndexOf(remote, ':');
    OneColonSplits(remote);
    raw := remote[colon + 1..];
    assert remote == remote[..colon] + ":" + raw;
  }

  // ----- WireGuard peers

  /** What is read of a peer. */
  datatype Peer = Peer(publicKey: Option<string>, endpoint: Option<string>, allowedIps: seq<string>, keepalive: Option<u32>)

  const NO_PEER := Peer(None, None, [], None)
  const MAX_U32 := 0xFFFF_FFFF

  const PUBLIC_KEY := "public-key="
  const ENDPOINT := "endpoint="
  const ALLOWED_IPS := "allowed-ips="
  const KEEPALIVE := "persistent-keepalive="

  function TrimAll(parts: seq<string>): (r: seq<string>)
    ensures |r| == |parts| && forall i :: 0 <= i < |parts| ==> r[i] == Trim(parts[i])
  {
    if parts == [] then [] else [Trim(parts[0])] + TrimAll(parts[1..])
  }

  function NonBlank(parts: seq<string>): seq<string> {
    if parts == [] then []
    else (if Trim(parts[0]) != "" then [Trim(parts[0])] else []) + NonBlank(parts[1..])
  }

  /** What follows `prefix` in the last token that starts with it. */
  function LastOf(tokens: seq<string>, prefix: string): Option<string> {
    if tokens == [] then None
    else
      var n := |tokens| - 1;
      if prefix <= tokens[n] then Some(tokens[n][|prefix|..]) else LastOf(tokens[..n], prefix)
  }

  function SplitIps(list: Option<string>): seq<string> {
    if list.None? then [] else TrimAll(Split(list.value, ';'))
  }

  function ParseU32(s: string): Option<u32> {
    var n := ParseUnsigned(s, MAX_U32);
    if n.Some? then Some(n.value) else None
  }

  function ParseKeepalive(n: Option<string>): Option<u32> {
    if n.None? then None else ParseU32(n.value)
  }

  function PeerFromTokens(tokens: seq<string>): Peer {
    Peer(LastOf(tokens, PUBLIC_KEY), LastOf(tokens, ENDPOINT), SplitIps(LastOf(tokens, ALLOWED_IPS)),
         ParseKeepalive(LastOf(tokens, KEEPALIVE)))
  }

  /** Only the part before the first comma is looked at. */
  function PeerFromText(text: string): Peer {
    PeerFromTokens(Words(Trim(Split(text, ',')[0])))
  }

  /** The first string stored under `key`; an entry of another type is passed over. */
  function DictStr(entries: seq<(Value, Value)>, key: string): Option<string> {
    if entries == [] then None
    else if entries[0].0 == Str(key) && Unbox(entries[0].1).Str? then Some(Unbox(entries[0].1).text)
    else DictStr(entries[1..], key)
  }

  /** The first value stored under `key`. */
  function DictValue(entries: seq<(Value, Value)>, key: string): Option<Value> {
    if entries == [] then None
    else if entries[0].0 == Str(key) then Some(Unbox(entries[0].1))
    else DictValue(entries[1..], key)
  }

  function IpsFromValue(v: Option<Value>): seq<string> {
    match v
    case Some(Str(text)) => NonBlank(Split(text, ';'))
    case Some(Arr(items)) => TextsOf(items)
    case _ => []
  }

  function KeepaliveFromValue(v: Option<Value>): Option<u32> {
    match v
    case Some(U32(n)) => Some(n)
    case Some(Str(text)) => ParseU32(text)
    case _ => None
  }

  function PeerFromDict(entries: seq<(Value, Value)>): Peer {
    Peer(DictStr(entries, "public-key"), DictStr(entries, "endpoint"), IpsFromValue(DictValue(entries, "allowed-ips")),
         KeepaliveFromValue(DictValue(entries, "persistent-keepalive")))
  }

  function FirstPeer(peers: Value): Peer {
    match peers
    case Str(text) => PeerFromText(text)
    case Arr(items) => if items != [] && Unbox(items[0]).Dict? then PeerFromDict(Unbox(items[0]).entries) else NO_PEER
    case _ => NO_PEER
  }

  /** Nothing is read of peers that are neither text nor a list that starts with a dictionary. */
  lemma NothingReadElsewhere(peers: Value)
    requires !peers.Str? && !(peers.Arr? && peers.items != [] && Unbox(peers.items[0]).Dict?)
    ensures FirstPeer(peers).publicKey == None && FirstPeer(peers).endpoint == None
    ensures FirstPeer(peers).allowedIps == [] && FirstPeer(peers).keepalive == None
  {
  }

  // ----- The decoder

  method DecodeWgFirstPeer(peers: Value) returns (peer: Peer)
    ensures peer == FirstPeer(peers)
  {
    match peers {
      case Str(text) =>
        var first := Trim(Split(text, ',')[0]);
        peer := DecodeTokens(Words(first));
      case Arr(items) =>
        if items == [] {
          return NO_PEER;
        }
        var first := UnboxVariant(items[0]);
        peer := if first.Dict? then PeerFromDict(first.entries) else NO_PEER;
      case _ =>
        peer := NO_PEER;
    }
  }

  method DecodeTokens(tokens: seq<string>) returns (peer: Peer)
    ensures peer == PeerFromTokens(tokens)
  {
    var pk: Option<string>, ep: Option<string> := None, None;
    var ips: seq<string>, ka: Option<u32> := [], None;
    var i := 0;
    while i < |tokens|
      invariant 0 <= i <= |tokens|
      invariant Peer(pk, ep, ips, ka) == PeerFromTokens(tokens[..i])
    {
      var tok := tokens[i];
      NextToken(tokens, i);
      if PUBLIC_KEY <= tok {
        pk := Some(tok[|PUBLIC_KEY|..]);
      } else if ENDPOINT <= tok {
        ep := Some(tok[|ENDPOINT|..]);
      } else if ALLOWED_IPS <= tok {
        ips := TrimAll(Split(tok[|ALLOWED_IPS|..], ';'));
      } else if KEEPALIVE <= tok {
        ka := ParseU32(tok[|KEEPALIVE|..]);
      }
      i := i + 1;
    }
    assert tokens[..|tokens|] == tokens;
    peer := Peer(pk, ep, ips, ka);
  }

  lemma LastOfNext(tokens: seq<string>, i: nat, prefix: string)
    requires i < |tokens|
    ensures LastOf(tokens[..i + 1], prefix) ==
            if prefix <= tokens[i] then Some(tokens[i][|prefix|..]) else LastOf(tokens[..i], prefix)
  {
    assert tokens[..i + 1][..i] == tokens[..i];
  }

  /** No token starts with two of the prefixes. */
  lemma PrefixesApart(tok: string)
    ensures PUBLIC_KEY <= tok ==> !(ENDPOINT <= tok) && !(ALLOWED_IPS <= tok) && !(KEEPALIVE <= tok)
    ensures ENDPOINT <= tok ==> !(ALLOWED_IPS <= tok) && !(KEEPALIVE <= tok)
    ensures ALLOWED_IPS <= tok ==> !(KEEPALIVE <= tok)
  {
    assert PUBLIC_KEY[0] == 'p' && PUBLIC_KEY[1] == 'u' && ENDPOINT[0] == 'e' && ALLOWED_IPS[0] == 'a'
        && KEEPALIVE[0] == 'p' && KEEPALIVE[1] == 'e';
  }

  /** A token of one kind replaces what was read of that kind before. */
  ghost function AfterToken(before: Peer, tok: string): Peer {
    if PUBLIC_KEY <= tok then before.(publicKey := Some(tok[|PUBLIC_KEY|..]))
    else if ENDPOINT <= tok then before.(endpoint := Some(tok[|ENDPOINT|..]))
    else if ALLOWED_IPS <= tok then before.(allowedIps := TrimAll(Split(tok[|ALLOWED_IPS|..], ';')))
    else if KEEPALIVE <= tok then before.(keepalive := ParseU32(tok[|KEEPALIVE|..]))
    else before
  }

  lemma NextToken(tokens: seq<string>, i: nat)
    requires i < |tokens|
    ensures PeerFromTokens(tokens[..i + 1]) == AfterToken(PeerFromTokens(tokens[..i]), tokens[i])
  {
    PrefixesApart(tokens[i]);
    LastOfNext(tokens, i, PUBLIC_KEY);
    LastOfNext(tokens, i, ENDPOINT);
    LastOfNext(tokens, i, ALLOWED_IPS);
    LastOfNext(tokens, i, KEEPALIVE);
  }

  // ----- The textual form

  predicate Plain(s: string) {
    NoWhitespace(s) && ',' !in s
  }

  /** Fields without white space or commas, and addresses without semicolons. */
  predicate Writable(peer: Peer) {
    && (peer.publicKey.Some? ==> Plain(peer.publicKey.value))
    && (peer.endpoint.Some? ==> Plain(peer.endpoint.value))
    && (forall ip :: ip in peer.allowedIps ==> Plain(ip) && ';' !in ip)
  }

  function FieldToken(prefix: string, field: Option<string>): seq<string> {
    if field.Some? then [prefix + field.value] else []
  }

  /** The tokens of a peer. */
  function Tokens(peer: Peer): seq<string> {
    FieldToken("public-key=", peer.publicKey)
    + FieldToken("endpoint=", peer.endpoint)
    + FieldToken("allowed-ips=", if peer.allowedIps == [] then None else Some(Join(peer.allowedIps, ';')))
    + FieldToken("persistent-keepalive=", if peer.keepalive.None? then None else Some(Decimal(peer.keepalive.value)))
  }

  /** The same tokens in any order, among others that carry no field, such as a
      preshared key. */
  ghost predicate Spells(tokens: seq<string>, peer: Peer) {
    && (forall t :: t in Tokens(peer) ==> t in tokens)
    && (forall t :: t in tokens && t !in Tokens(peer) ==>
          !("public-key=" <= t) && !("endpoint=" <= t) && !("allowed-ips=" <= t) && !("persistent-keepalive=" <= t))
  }

  /** Tokens with white space around them: something blank first, and something blank and
      not empty after every token but perhaps the last. */
  datatype Layout = Layout(lead: string, gaps: seq<string>)

  predicate Separates(layout: Layout, tokens: seq<string>) {
    && IsBlank(layout.lead) && |layout.gaps| == |tokens|
    && (forall i :: 0 <= i < |tokens| ==> IsBlank(layout.gaps[i]))
    && (forall i :: 0 <= i < |tokens| - 1 ==> layout.gaps[i] != "")
  }

  function Lay(tokens: seq<string>, gaps: seq<string>): string
    requires |gaps| == |tokens|
  {
    if tokens == [] then "" else tokens[0] + gaps[0] + Lay(tokens[1..], gaps[1..])
  }

  lemma {:induction false} WordsOfLay(tokens: seq<string>, gaps: seq<string>)
    requires |gaps| == |tokens|
    requires forall t :: t in tokens ==> t != "" && NoWhitespace(t)
    requires forall i :: 0 <= i < |gaps| ==> IsBlank(gaps[i])
    requires forall i :: 0 <= i < |gaps| - 1 ==> gaps[i] != ""
    ensures Words(Lay(tokens, gaps)) == tokens
  {
    if tokens != [] {
      var rest := Lay(tokens[1..], gaps[1..]);
      assert forall t :: t in tokens[1..] ==> t in tokens;
      WordsOfLay(tokens[1..], gaps[1..]);
      WordsSkipBlank(gaps[0], rest);
      assert tokens[0] + gaps[0] + rest == tokens[0] + (gaps[0] + rest);
      assert tokens[0] in tokens;
      if gaps[0] != "" {
        assert gaps[0][0] in gaps[0];
      }
      WordsTakeWord(tokens[0], gaps[0] + rest);
      assert tokens == [tokens[0]] + tokens[1..];
    }
  }

  lemma {:induction false} NoCommaInLay(tokens: seq<string>, gaps: seq<string>)
    requires |gaps| == |tokens|
    requires forall t :: t in tokens ==> ',' !in t
    requires forall i :: 0 <= i < |gaps| ==> IsBlank(gaps[i])
    ensures ',' !in Lay(tokens, gaps)
  {
    if tokens != [] {
      assert forall t :: t in tokens[1..] ==> t in tokens;
      NoCommaInLay(tokens[1..], gaps[1..]);
      assert tokens[0] in tokens && IsBlank(gaps[0]);
    }
  }

  lemma {:induction false} LastOfField(tokens: seq<string>, prefix: string, field: Option<string>)
    requires field.Some? ==> prefix + field.value in tokens
    requires forall t :: t in tokens && prefix <= t ==> field.Some? && t == prefix + field.value
    ensures LastOf(tokens, prefix) == field
  {
    if tokens != [] {
      var n := |tokens| - 1;
      assert tokens[n] in tokens;
      if !(prefix <= tokens[n]) {
        assert forall t :: t in tokens <==> t in tokens[..n] || t == tokens[n];
        LastOfField(tokens[..n], prefix, field);
      }
    }
  }

  /** Each prefix occurs in at most one token of a peer. */
  lemma TokensWithPrefix(peer: Peer, t: string)
    requires t in Tokens(peer)
    ensures PUBLIC_KEY <= t ==> peer.publicKey.Some? && t == PUBLIC_KEY + peer.publicKey.value
    ensures ENDPOINT <= t ==> peer.endpoint.Some? && t == ENDPOINT + peer.endpoint.value
    ensures ALLOWED_IPS <= t ==> peer.allowedIps != [] && t == ALLOWED_IPS + Join(peer.allowedIps, ';')
    ensures KEEPALIVE <= t ==> peer.keepalive.Some? && t == KEEPALIVE + Decimal(peer.keepalive.value)
  {
    PrefixesApart(t);
  }

  lemma TrimWritten(ips: seq<string>)
    requires forall ip :: ip in ips ==> NoWhitespace(ip)
    ensures TrimAll(ips) == ips
  {
    forall i | 0 <= i < |ips|
      ensures TrimAll(ips)[i] == ips[i]
    {
      assert ips[i] in ips;
      TrimNothing(ips[i]);
    }
  }

  lemma SpelledIsRead(tokens: seq<string>, peer: Peer)
    requires Writable(peer) && Spells(tokens, peer)
    ensures PeerFromTokens(tokens) == peer
  {
    forall t | t in tokens && t in Tokens(peer)
      ensures PUBLIC_KEY <= t ==> peer.publicKey.Some? && t == PUBLIC_KEY + peer.publicKey.value
      ensures ENDPOINT <= t ==> peer.endpoint.Some? && t == ENDPOINT + peer.endpoint.value
      ensures ALLOWED_IPS <= t ==> peer.allowedIps != [] && t == ALLOWED_IPS + Join(peer.allowedIps, ';')
      ensures KEEPALIVE <= t ==> peer.keepalive.Some? && t == KEEPALIVE + Decimal(peer.keepalive.value)
    {
      TokensWithPrefix(peer, t);
    }
    LastOfField(tokens, PUBLIC_KEY, peer.publicKey);
    LastOfField(tokens, ENDPOINT, peer.endpoint);
    LastOfField(tokens, ALLOWED_IPS, if peer.allowedIps == [] then None else Some(Join(peer.allowedIps, ';')));
    LastOfField(tokens, KEEPALIVE, if peer.keepalive.None? then None else Some(Decimal(peer.keepalive.value)));
    if peer.allowedIps != [] {
      SplitJoin(peer.allowedIps, ';');
      TrimWritten(peer.allowedIps);
    }
    if peer.keepalive.Some? {
      ParseDecimal(peer.keepalive.value, MAX_U32);
    }
  }

  lemma {:induction false} PlainJoin(parts: seq<string>)
    requires forall p :: p in parts ==> Plain(p)
    ensures Plain(Join(parts, ';'))
  {
    if |parts| > 1 {
      assert forall p :: p in parts[1..] ==> p in parts;
      PlainJoin(parts[1..]);
      assert parts[0] in parts;
    } else if |parts| == 1 {
      assert parts[0] in parts;
    }
  }

  predicate IsTokenChar(c: char) {
    'a' <= c <= 'z' || c == '-' || c == '='
  }

  lemma TokenCharsPlain(s: string)
    requires forall i :: 0 <= i < |s| ==> IsTokenChar(s[i])
    ensures Plain(s)
  {
  }

  lemma PrefixesPlain()
    ensures Plain(PUBLIC_KEY) && Plain(ENDPOINT) && Plain(ALLOWED_IPS) && Plain(KEEPALIVE)
  {
    TokenCharsPlain(PUBLIC_KEY);
    TokenCharsPlain(ENDPOINT);
    TokenCharsPlain(ALLOWED_IPS);
    TokenCharsPlain(KEEPALIVE);
  }

  lemma DigitsPlain(s: string)
    requires AllDigits(s)
    ensures Plain(s)
  {
  }

  lemma FieldTokenPlain(prefix: string, field: Option<string>, t: string)
    requires prefix != "" && Plain(prefix) && (field.Some? ==> Plain(field.value)) && t in FieldToken(prefix, field)
    ensures t != "" && Plain(t)
  {
  }

  /** The tokens of a writable peer can be written as words before any comma. */
  lemma TokensArePlain(peer: Peer, t: string)
    requires Writable(peer) && t in Tokens(peer)
    ensures t != "" && Plain(t)
  {
    PrefixesPlain();
    var ips := if peer.allowedIps == [] then None else Some(Join(peer.allowedIps, ';'));
    var keepalive := if peer.keepalive.None? then None else Some(Decimal(peer.keepalive.value));
    PlainJoin(peer.allowedIps);
    if keepalive.Some? {
      DigitsPlain(keepalive.value);
    }
    if t in FieldToken(PUBLIC_KEY, peer.publicKey) {
      FieldTokenPlain(PUBLIC_KEY, peer.publicKey, t);
    } else if t in FieldToken(ENDPOINT, peer.endpoint) {
      FieldTokenPlain(ENDPOINT, peer.endpoint, t);
    } else if t in FieldToken(ALLOWED_IPS, ips) {
      FieldTokenPlain(ALLOWED_IPS, ips, t);
    } else {
      FieldTokenPlain(KEEPALIVE, keepalive, t);
    }
  }

  lemma FirstSegment(first: string, more: string)
    requires ',' !in first && (more == "" || more[0] == ',')
    ensures Split(first + more, ',')[0] == first
  {
    if more == "" {
      assert first + more == first;
      assert IndexOf(first, ',') == |first|;
    } else {
      assert first + more == first + [','] + more[1..];
      IndexOfAppend(first, ',', more[1..]);
      assert (first + more)[..|first|] == first;
    }
  }

  /** The textual form round trip: the fields of every writable peer are read back from its
      tokens in any order, among any other tokens, with any white space around them, and
      whatever further peers follow after a comma. */
  lemma TextRoundTrip(peer: Peer, tokens: seq<string>, layout: Layout, more: string)
    requires Writable(peer) && Spells(tokens, peer) && Separates(layout, tokens)
    requires forall t :: t in tokens && t !in Tokens(peer) ==> t != "" && Plain(t)
    requires more == "" || more[0] == ','
    ensures FirstPeer(Str(layout.lead + Lay(tokens, layout.gaps) + more)) == peer
  {
    forall t | t in tokens
      ensures t != "" && Plain(t)
    {
      if t in Tokens(peer) {
        TokensArePlain(peer, t);
      }
    }
    var first := layout.lead + Lay(tokens, layout.gaps);
    NoCommaInLay(tokens, layout.gaps);
    FirstSegment(first, more);
    WordsOfTrim(first);
    WordsSkipBlank(layout.lead, Lay(tokens, layout.gaps));
    WordsOfLay(tokens, layout.gaps);
    SpelledIsRead(tokens, peer);
  }

  /** The semicolon list gives back its items exactly when there are some and none contains
      a semicolon. */
  lemma IpListExactly(ips: seq<string>)
    requires forall ip :: ip in ips ==> NoWhitespace(ip)
    ensures SplitIps(Some(Join(ips, ';'))) == ips <==> ips != [] && forall ip :: ip in ips ==> ';' !in ip
  {
    if ips != [] && forall ip :: ip in ips ==> ';' !in ip {
      SplitJoin(ips, ';');
      TrimWritten(ips);
    } else if SplitIps(Some(Join(ips, ';'))) == ips {
      var parts := Split(Join(ips, ';'), ';');
      forall i | 0 <= i < |parts|
        ensures ';' !in TrimAll(parts)[i]
      {
        assert parts[i] in parts;
        TrimKeepsOut(parts[i], ';');
      }
    }
  }

  lemma {:induction false} TrimKeepsOut(s: string, c: char)
    requires c !in s
    ensures c !in Trim(s)
  {
    TrimStartKeepsOut(s, c);
    TrimEndKeepsOut(TrimStart(s), c);
  }

  lemma {:induction false} TrimStartKeepsOut(s: string, c: char)
    requires c !in s
    ensures c !in TrimStart(s)
  {
    if s != "" && IsWhitespace(s[0]) {
      TrimStartKeepsOut(s[1..], c);
    }
  }

  lemma {:induction false} TrimEndKeepsOut(s: string, c: char)
    requires c !in s
    ensures c !in TrimEnd(s)
  {
    if s != "" && IsWhitespace(s[|s| - 1]) {
      TrimEndKeepsOut(s[..|s| - 1], c);
    }
  }

  // ----- The dictionary form

  /** The one entry with that key, if any, holds `value` behind some boxing. */
  ghost predicate Holds(entries: seq<(Value, Value)>, key: string, value: Option<Value>) {
    && (value.Some? ==> exists i :: 0 <= i < |entries| && entries[i].0 == Str(key))
    && (forall i :: 0 <= i < |entries| && entries[i].0 == Str(key) ==> value.Some? && Unbox(entries[i].1) == value.value)
  }

  lemma {:induction false} DictHolds(entries: seq<(Value, Value)>, key: string, value: Option<Value>)
    requires Holds(entries, key, value)
    ensures DictValue(entries, key) == value
    ensures (value.Some? ==> value.value.Str?) ==>
              DictStr(entries, key) == if value.Some? then Some(value.value.text) else None
  {
    if entries != [] {
      var rest := entries[1..];
      if entries[0].0 != Str(key) {
        assert forall i :: 0 <= i < |rest| ==> rest[i] == entries[i + 1];
        if value.Some? {
          var i :| 0 <= i < |entries| && entries[i].0 == Str(key);
          assert rest[i - 1].0 == Str(key);
        }
        DictHolds(rest, key, value);
      } else {
        assert Unbox(entries[0].1) == value.value;
      }
    }
  }

  function TextField(field: Option<string>): Option<Value> {
    if field.Some? then Some(Str(field.value)) else None
  }

  /** The spellings of an address list: no entry when it is empty, an array of strings
      boxed to any depth, or, for items that are plain and not empty, a semicolon list. */
  ghost predicate SpellsIps(v: Option<Value>, ips: seq<string>) {
    match v
    case None => ips == []
    case Some(Arr(items)) => |items| == |ips| && forall i :: 0 <= i < |ips| ==> Unbox(items[i]) == Str(ips[i])
    case Some(Str(text)) =>
      text == Join(ips, ';') && forall ip :: ip in ips ==> ip != "" && NoWhitespace(ip) && ';' !in ip
    case _ => false
  }

  /** The spellings of a keepalive: a number, or its decimal text. */
  predicate SpellsKeepalive(v: Option<Value>, keepalive: Option<u32>) {
    match v
    case None => keepalive.None?
    case Some(U32(n)) => keepalive == Some(n)
    case Some(Str(text)) => keepalive.Some? && text == Decimal(keepalive.value)
    case _ => false
  }

  /** A dictionary of a peer: the entries in any order and any spelling, boxed to any
      depth, among others. */
  ghost predicate DictOf(entries: seq<(Value, Value)>, peer: Peer, ips: Option<Value>, keepalive: Option<Value>) {
    && Holds(entries, "public-key", TextField(peer.publicKey))
    && Holds(entries, "endpoint", TextField(peer.endpoint))
    && Holds(entries, "allowed-ips", ips) && SpellsIps(ips, peer.allowedIps)
    && Holds(entries, "persistent-keepalive", keepalive) && SpellsKeepalive(keepalive, peer.keepalive)
  }

  lemma {:induction false} TextsListed(items: seq<Value>, ips: seq<string>)
    requires |items| == |ips| && forall i :: 0 <= i < |ips| ==> Unbox(items[i]) == Str(ips[i])
    ensures TextsOf(items) == ips
  {
    if ips != [] {
      TextsListed(items[1..], ips[1..]);
      assert ips == [ips[0]] + ips[1..];
    }
  }

  lemma SpelledIps(v: Option<Value>, ips: seq<string>)
    requires SpellsIps(v, ips)
    ensures IpsFromValue(v) == ips
  {
    match v
    case Some(Arr(items)) => TextsListed(items, ips);
    case Some(Str(text)) =>
      if ips == [] {
        assert Split("", ';') == [""] && Trim("") == "";
        assert NonBlank([""]) == NonBlank([""][1..]) == [];
      } else {
        SplitJoin(ips, ';');
        NonBlankWritten(ips);
      }
    case _ =>
  }

  lemma SpelledKeepalive(v: Option<Value>, keepalive: Option<u32>)
    requires SpellsKeepalive(v, keepalive)
    ensures KeepaliveFromValue(v) == keepalive
  {
    if keepalive.Some? {
      ParseDecimal(keepalive.value, MAX_U32);
    }
  }

  /** The dictionary form round trip, for every peer and every spelling of it, whatever
      further peers follow. */
  lemma DictRoundTrip(peer: Peer, entries: seq<(Value, Value)>, ips: Option<Value>, keepalive: Option<Value>,
                      depth: nat, others: seq<Value>)
    requires DictOf(entries, peer, ips, keepalive)
    ensures FirstPeer(Arr([Box(Dict(entries), depth)] + others)) == peer
  {
    UnboxBox(Dict(entries), depth);
    DictHolds(entries, "public-key", TextField(peer.publicKey));
    DictHolds(entries, "endpoint", TextField(peer.endpoint));
    DictHolds(entries, "allowed-ips", ips);
    DictHolds(entries, "persistent-keepalive", keepalive);
    SpelledIps(ips, peer.allowedIps);
    SpelledKeepalive(keepalive, peer.keepalive);
  }

  /** The two encodings of a writable peer are read alike. */
  lemma EncodingsAgree(peer: Peer, tokens: seq<string>, layout: Layout, more: string, entries: seq<(Value, Value)>,
                       ips: Option<Value>, keepalive: Option<Value>, depth: nat, others: seq<Value>)
    requires Writable(peer) && Spells(tokens, peer) && Separates(layout, tokens)
    requires forall t :: t in tokens && t !in Tokens(peer) ==> t != "" && Plain(t)
    requires more == "" || more[0] == ','
    requires DictOf(entries, peer, ips, keepalive)
    ensures FirstPeer(Str(layout.lead + Lay(tokens, layout.gaps) + more))
         == FirstPeer(Arr([Box(Dict(entries), depth)] + others))
  {
    TextRoundTrip(peer, tokens, layout, more);
    DictRoundTrip(peer, entries, ips, keepalive, depth, others);
  }

  lemma {:induction false} NonBlankWritten(parts: seq<string>)
    requires forall p :: p in parts ==> NoWhitespace(p)
    ensures NonBlank(parts) == parts <==> "" !in parts
    ensures |NonBlank(parts)| <= |parts|
    ensures "" !in NonBlank(parts)
  {
    if parts != [] {
      assert parts[0] in parts;
      TrimNothing(parts[0]);
      assert forall p :: p in parts[1..] ==> p in parts;
      NonBlankWritten(parts[1..]);
      assert parts == [parts[0]] + parts[1..];
      assert "" in parts <==> parts[0] == "" || "" in parts[1..];
    }
  }

  /** `items` are the parts that are not blank, in order, each with white space around it. */
  ghost predicate PaddedItems(parts: seq<string>, items: seq<string>) {
    if parts == [] then items == []
    else if IsBlank(parts[0]) then PaddedItems(parts[1..], items)
    else items != [] && Padded(parts[0], items[0]) && PaddedItems(parts[1..], items[1..])
  }

  lemma {:induction false} PaddedRead(parts: seq<string>, items: seq<string>)
    requires PaddedItems(parts, items)
    ensures NonBlank(parts) == items
  {
    if parts != [] {
      TrimBlank(parts[0]);
      if IsBlank(parts[0]) {
        PaddedRead(parts[1..], items);
      } else {
        TrimPadded(parts[0], items[0]);
        PaddedRead(parts[1..], items[1..]);
        assert items == [items[0]] + items[1..];
      }
    }
  }

  /** White space around the items of a dictionary's semicolon list, and blank items, make no
      difference. */
  lemma PaddedListRead(parts: seq<string>, ips: seq<string>)
    requires parts != [] && (forall p :: p in parts ==> ';' !in p) && PaddedItems(parts, ips)
    ensures IpsFromValue(Some(Str(Join(parts, ';')))) == ips
  {
    SplitJoin(parts, ';');
    PaddedRead(parts, ips);
  }

  /** A dictionary may also carry the addresses as a semicolon list, from which empty items
      are dropped; the textual form keeps them.  The two readings of one list agree exactly
      when it has no empty item. */
  lemma SemicolonListsAgreeExactly(ips: seq<string>)
    requires ips != [] && forall ip :: ip in ips ==> NoWhitespace(ip) && ';' !in ip
    ensures IpsFromValue(Some(Str(Join(ips, ';')))) == SplitIps(Some(Join(ips, ';'))) <==> "" !in ips
  {
    SplitJoin(ips, ';');
    TrimWritten(ips);
    NonBlankWritten(ips);
  }

  /** An empty address list has a dictionary form but no list token: with the token it is
      read as one empty address. */
  lemma EmptyListToken()
    ensures PeerFromTokens(["allowed-ips="]).allowedIps == [""]
    ensures IpsFromValue(Some(Arr([]))) == [] && IpsFromValue(Some(Str(""))) == []
  {
  }
}
