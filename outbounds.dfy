/** `outbound_tag_for_type` and `_outbound_from_added`: one descriptor
    becomes one sing-box outbound record, no record, or an exception. */
module Outbounds {
  import opened Wrappers
  import opened Text
  import opened Values
  import opened Library
  import opened Decoders

  /** A snapshot of an `AddedProxy` (its `label` is `caption`: `label` is a
      Dafny keyword). */
  datatype ProxyRecord = ProxyRecord(ptype: string, caption: string, data: Data, raw: string, selected: bool)

  datatype Tls = Tls(serverName: Value)
  datatype Transport = Transport(kind: Value, path: Value)
  datatype Peer = Peer(server: Value, serverPort: int, publicKey: Value, allowedIps: seq<string>)
  datatype Auth = Auth(username: Value, password: Value)

  /** The outbound records of the generated document. */
  datatype Outbound =
    | Direct
    | DnsOut
    | WireguardOut(tag: string, interfaceName: string, localAddress: seq<string>, privateKey: Value,
                   peers: seq<Peer>, mtu: int)
    | ProxyOut(kind: string, tag: string, server: Value, serverPort: int, auth: Option<Auth>)
    | VmessOut(tag: string, server: Value, serverPort: int, uuid: Value, alterId: int, security: Value,
               tls: Option<Tls>, transport: Option<Transport>)
    | VlessOut(tag: string, server: Value, serverPort: int, uuid: Value, flow: Value,
               tls: Option<Tls>, transport: Option<Transport>)
    | ShadowsocksOut(tag: string, server: Value, serverPort: int, cipher: Value, password: Value)
    | Selector(tag: string, outbounds: seq<string>, default: string)
  {
    /** The record's `"tag"`. */
    function Tag(): string {
      match this
      case Direct => "direct"
      case DnsOut => "dns-out"
      case WireguardOut(tag, _, _, _, _, _) => tag
      case ProxyOut(_, tag, _, _, _) => tag
      case VmessOut(tag, _, _, _, _, _, _, _) => tag
      case VlessOut(tag, _, _, _, _, _, _) => tag
      case ShadowsocksOut(tag, _, _, _, _) => tag
      case Selector(tag, _, _) => tag
    }

    /** The record's `"type"`. */
    function Type(): string {
      match this
      case Direct => "direct"
      case DnsOut => "dns"
      case WireguardOut(_, _, _, _, _, _) => "wireguard"
      case ProxyOut(kind, _, _, _, _) => kind
      case VmessOut(_, _, _, _, _, _, _, _) => "vmess"
      case VlessOut(_, _, _, _, _, _, _) => "vless"
      case ShadowsocksOut(_, _, _, _, _) => "shadowsocks"
      case Selector(_, _, _) => "selector"
    }
  }

  /** The result of `_outbound_from_added`: a record, `{}` (skipped by the
      caller), or an exception that escapes to the caller. */
  datatype Synth = Built(ob: Outbound) | Skipped | Raised

  /** `outbound_tag_for_type`. */
  function OutboundTagForType(proxyType: string): (r: string)
    ensures '-' in r <==> Lower(proxyType) in KnownKinds
  {
    var t := Lower(proxyType);
    if t == "wireguard" then "WG-US"
    else if t == "socks5" then "SOCKS5-PROXY"
    else if t == "vmess" then "VMESS-PROXY"
    else if t == "vless" then "VLESS-PROXY"
    else if t == "shadowsocks" then "SS-PROXY"
    else if t == "http" then "HTTP-PROXY"
    else "PROXY"
  }

  const KnownKinds: set<string> := {"wireguard", "socks5", "vmess", "vless", "shadowsocks", "http"}

  /** `outbound_tag_for_type(t).split('-')[0]`. */
  function TagPrefix(t: string): string {
    Split(OutboundTagForType(t), '-')[0]
  }

  /** The text before the first `-` of `prefix-suffix`. */
  lemma PrefixBeforeDash(prefix: string, suffix: string, name: string)
    requires '-' !in prefix && name == prefix + "-" + suffix
    ensures Split(name, '-')[0] == prefix
  {
    SplitFirst(prefix, '-', suffix);
  }

  /** Each `outbound_tag_for_type` name with a `-`, taken apart at it. */
  lemma DashedNames()
    ensures "WG-US" == "WG" + "-" + "US"
    ensures "SOCKS5-PROXY" == "SOCKS5" + "-" + "PROXY"
    ensures "VMESS-PROXY" == "VMESS" + "-" + "PROXY"
    ensures "VLESS-PROXY" == "VLESS" + "-" + "PROXY"
    ensures "SS-PROXY" == "SS" + "-" + "PROXY"
    ensures "HTTP-PROXY" == "HTTP" + "-" + "PROXY"
  {
  }

  /** The tag prefix of every kind: the text before the first `-` of its
      `outbound_tag_for_type` name, the whole name when there is none. */
  lemma TagPrefixes(t: string)
    ensures Lower(t) == "wireguard" ==> TagPrefix(t) == "WG"
    ensures Lower(t) == "socks5" ==> TagPrefix(t) == "SOCKS5"
    ensures Lower(t) == "vmess" ==> TagPrefix(t) == "VMESS"
    ensures Lower(t) == "vless" ==> TagPrefix(t) == "VLESS"
    ensures Lower(t) == "shadowsocks" ==> TagPrefix(t) == "SS"
    ensures Lower(t) == "http" ==> TagPrefix(t) == "HTTP"
    ensures Lower(t) !in KnownKinds ==> TagPrefix(t) == "PROXY"
  {
    var lt, name := Lower(t), OutboundTagForType(t);
    DashedNames();
    if lt == "wireguard" {
      PrefixBeforeDash("WG", "US", name);
    } else if lt == "socks5" {
      PrefixBeforeDash("SOCKS5", "PROXY", name);
    } else if lt == "vmess" {
      PrefixBeforeDash("VMESS", "PROXY", name);
    } else if lt == "vless" {
      PrefixBeforeDash("VLESS", "PROXY", name);
    } else if lt == "shadowsocks" {
      PrefixBeforeDash("SS", "PROXY", name);
    } else if lt == "http" {
      PrefixBeforeDash("HTTP", "PROXY", name);
    } else {
      SplitNone(name, '-');
    }
  }

  /** `[a.strip() for a in s.split(",") if a.strip()]`. */
  function CommaList(s: string): (r: seq<string>)
    ensures forall i | 0 <= i < |r| :: r[i] != ""
  {
    StrippedNonEmpty(Split(s, ','))
  }

  function StrippedNonEmpty(parts: seq<string>): (r: seq<string>)
    ensures |r| <= |parts|
    ensures forall i | 0 <= i < |r| :: r[i] != ""
  {
    if parts == [] then []
    else
      var a := Strip(parts[0]);
      (if a != "" then [a] else []) + StrippedNonEmpty(parts[1..])
  }

  /** The `tls` block: present when the decoded setting asks for TLS. */
  function TlsBlock(tls: bool, sni: Value): Option<Tls> {
    if tls then Some(Tls(Or(sni, Str("")))) else None
  }

  predicate IsTransportKind(v: Value) {
    v == Str("ws") || v == Str("grpc") || v == Str("quic") || v == Str("http")
  }

  /** The `transport` block: present for ws, grpc, quic and http. */
  function TransportBlock(kind: Value, path: Value): Option<Transport> {
    if IsTransportKind(kind) then Some(Transport(kind, path)) else None
  }

  /** The tag every outbound of a descriptor gets (main.py line 169; the
      reassignments after `return {}` never run). */
  function DescriptorTag(t: string, d: Object): string {
    TagPrefix(t) + "-" + ToText(Or(Get(d, "server", Null), Str("proxy")))
  }

  /** The WireGuard branch. */
  function WireguardOutbound(tag: string, d: Object): (r: Synth)
    ensures !r.Skipped?
    ensures r.Built? ==> r.ob.WireguardOut? && r.ob.Tag() == tag && r.ob.Type() == "wireguard"
    ensures r.Raised? <==>
      IntOf(Or(Get(d, "server_port", Null), Int(51820))).None? || !Or(Get(d, "local_address", Null), Str("")).Str?
    ensures r.Built? ==>
      var local := CommaList(Or(Get(d, "local_address", Null), Str("")).s);
      && r.ob.privateKey == Get(d, "private_key", Str(""))
      && r.ob.peers == [Peer(Get(d, "server", Str("")), IntOf(Or(Get(d, "server_port", Null), Int(51820))).value,
                             Get(d, "peer_public_key", Str("")), ["0.0.0.0/0", "::/0"])]
      && r.ob.localAddress == (if local == [] then ["10.74.200.203/32"] else local)
  {
    var port := IntOf(Or(Get(d, "server_port", Null), Int(51820)));
    var addresses := Or(Get(d, "local_address", Null), Str(""));
    if port.None? || !addresses.Str? then Raised
    else
      var local := CommaList(addresses.s);
      Built(WireguardOut(
        tag, "wg0", if local == [] then ["10.74.200.203/32"] else local,
        Get(d, "private_key", Str("")),
        [Peer(Get(d, "server", Str("")), port.value, Get(d, "peer_public_key", Str("")), ["0.0.0.0/0", "::/0"])],
        1420))
  }

  /** The socks5 / http / https branch. */
  function ProxyOutbound(t: string, tag: string, d: Object): (r: Synth)
    ensures !r.Skipped?
    ensures r.Built? ==> r.ob.ProxyOut? && r.ob.Tag() == tag && r.ob.Type() == if t == "socks5" then "socks" else t
    ensures r.Raised? <==> IntOf(Or(Get(d, "server_port", Null), Int(0))).None?
    ensures r.Built? ==>
      && r.ob.server == Get(d, "server", Str(""))
      && Some(r.ob.serverPort) == IntOf(Or(Get(d, "server_port", Null), Int(0)))
      && (r.ob.auth.Some? <==> Truthy(Get(d, "username", Null)))
      && (r.ob.auth.Some? ==> r.ob.auth.value == Auth(Get(d, "username", Null), Get(d, "password", Str(""))))
  {
    var port := IntOf(Or(Get(d, "server_port", Null), Int(0)));
    if port.None? then Raised
    else
      var auth := if Truthy(Get(d, "username", Null))
                  then Some(Auth(Get(d, "username", Null), Get(d, "password", Str(""))))
                  else None;
      Built(ProxyOut(if t == "socks5" then "socks" else t, tag, Get(d, "server", Str("")), port.value, auth))
  }

  /** The vmess branch, on the decoded link text (`None`: `{}`). */
  function VmessOutbound(tag: string, decoded: Option<VmessFields>): (r: Synth)
    ensures r.Skipped? <==> decoded.None?
    ensures r.Built? ==> r.ob.VmessOut? && r.ob.Tag() == tag && r.ob.Type() == "vmess"
    ensures r.Built? ==>
      var f := decoded.value;
      && r.ob.server == f.server && r.ob.serverPort == f.serverPort && r.ob.uuid == f.uuid
      && r.ob.alterId == f.alterId && r.ob.security == f.security
      && (r.ob.tls.Some? <==> f.tls) && (f.tls ==> r.ob.tls.value.serverName == Or(f.sni, Str("")))
      && (r.ob.transport.Some? <==> IsTransportKind(f.transport))
      && (r.ob.transport.Some? ==> r.ob.transport.value == Transport(f.transport, f.path))
  {
    match decoded
    case None => Skipped
    case Some(f) =>
      Built(VmessOut(tag, f.server, f.serverPort, f.uuid, f.alterId, f.security,
                     TlsBlock(f.tls, f.sni), TransportBlock(f.transport, f.path)))
  }

  /** The vless branch, on the decoded link text. */
  function VlessOutbound(tag: string, decoded: Option<VlessFields>): (r: Synth)
    ensures r.Skipped? <==> decoded.None?
    ensures r.Built? ==> r.ob.VlessOut? && r.ob.Tag() == tag && r.ob.Type() == "vless"
    ensures r.Built? ==>
      var f := decoded.value;
      && r.ob.server == Str(f.server) && r.ob.serverPort == f.serverPort && r.ob.uuid == Str(f.uuid)
      && r.ob.flow == Str(f.flow)
      && (r.ob.tls.Some? <==> f.tls) && (f.tls ==> r.ob.tls.value.serverName == Str(f.sni))
      && (r.ob.transport.Some? <==> f.transport in ["ws", "grpc", "quic", "http"])
      && (r.ob.transport.Some? ==> r.ob.transport.value == Transport(Str(f.transport), Str(f.path)))
  {
    match decoded
    case None => Skipped
    case Some(f) =>
      Built(VlessOut(tag, Str(f.server), f.serverPort, Str(f.uuid), Str(f.flow),
                     TlsBlock(f.tls, Str(f.sni)), TransportBlock(Str(f.transport), Str(f.path))))
  }

  /** The shadowsocks branch, on the decoded link text. */
  function ShadowsocksOutbound(tag: string, decoded: Option<SsFields>): (r: Synth)
    ensures r.Skipped? <==> decoded.None?
    ensures r.Built? ==> r.ob.ShadowsocksOut? && r.ob.Tag() == tag && r.ob.Type() == "shadowsocks"
    ensures r.Built? ==>
      var f := decoded.value;
      r.ob.server == Str(f.server) && r.ob.serverPort == f.serverPort
      && r.ob.cipher == Str(f.cipher) && r.ob.password == Str(f.password)
  {
    match decoded
    case None => Skipped
    case Some(f) => Built(ShadowsocksOut(tag, Str(f.server), f.serverPort, Str(f.cipher), Str(f.password)))
  }

  /** `_outbound_from_added(outbound_tag_for_type, p)`. */
  function OutboundFromAdded(codec: Codec, p: ProxyRecord): (r: Synth)
    ensures p.data.NotDict? ==> r == Raised
    ensures r.Built? ==> r.ob.Tag() == DescriptorTag(Lower(p.ptype), p.data.fields)
    ensures r.Built? ==> Lower(p.ptype) in KnownKinds + {"https"}
    ensures r.Built? ==> r.ob.Type() == if Lower(p.ptype) == "socks5" then "socks" else Lower(p.ptype)
    ensures r.Raised? ==> p.data.NotDict? || Lower(p.ptype) in {"wireguard", "socks5", "http", "https"}
  {
    var t := Lower(p.ptype);
    match p.data
    case NotDict => Raised
    case Dict(d) =>
      var tag := DescriptorTag(t, d);
      if t == "wireguard" then WireguardOutbound(tag, d)
      else if t == "socks5" || t == "http" || t == "https" then ProxyOutbound(t, tag, d)
      else if t == "vmess" then VmessOutbound(tag, DecodeVmess(codec, p.raw))
      else if t == "vless" then VlessOutbound(tag, DecodeVless(codec, p.raw))
      else if t == "shadowsocks" then ShadowsocksOutbound(tag, DecodeShadowsocks(codec, p.raw))
      else Skipped
  }

  // ---------------------------------------------------------------- properties

  lemma EmptyDataTagShape(t: string)
    ensures DescriptorTag(t, map[]) == TagPrefix(t) + "-proxy"
  {
    assert ToText(Or(Get(map[], "server", Null), Str("proxy"))) == "proxy";
  }

  /** Lower-casing the kind first does not change its tag prefix. */
  lemma TagPrefixLowered(ptype: string)
    ensures TagPrefix(Lower(ptype)) == TagPrefix(ptype)
  {
    LowerIdempotent(ptype);
    assert OutboundTagForType(Lower(ptype)) == OutboundTagForType(ptype);
  }

  /** Link-based descriptors carry an empty `data`, so their tag is fixed by
      the kind (`VMESS-proxy`, `VLESS-proxy`, `SS-proxy` by `TagPrefixes`):
      the decoded server never reaches it. */
  lemma LinkTagIsFixed(codec: Codec, p: ProxyRecord)
    requires p.data == Dict(map[])
    requires OutboundFromAdded(codec, p).Built?
    ensures OutboundFromAdded(codec, p).ob.Tag() == TagPrefix(p.ptype) + "-proxy"
  {
    EmptyDataTagShape(Lower(p.ptype));
    TagPrefixLowered(p.ptype);
  }

  /** The tag depends on the kind and `data` only: two descriptors that differ
      in their link text get the same tag. */
  lemma TagIgnoresLink(codec: Codec, p: ProxyRecord, q: ProxyRecord)
    requires p.ptype == q.ptype && p.data == q.data
    requires OutboundFromAdded(codec, p).Built? && OutboundFromAdded(codec, q).Built?
    ensures OutboundFromAdded(codec, p).ob.Tag() == OutboundFromAdded(codec, q).ob.Tag()
  {
  }

  /** WireGuard defaults: port 51820 when `server_port` is missing or falsy,
      the fallback local address when the comma list is empty, `wg0`, mtu
      1420 and both address families routed. */
  lemma WireguardDefaults(codec: Codec, p: ProxyRecord)
    requires Lower(p.ptype) == "wireguard" && p.data.Dict?
    requires OutboundFromAdded(codec, p).Built?
    ensures var ob := OutboundFromAdded(codec, p).ob;
      var d := p.data.fields;
      && ob.WireguardOut? && ob.interfaceName == "wg0" && ob.mtu == 1420
      && |ob.peers| == 1 && ob.peers[0].allowedIps == ["0.0.0.0/0", "::/0"]
      && (!Truthy(Get(d, "server_port", Null)) ==> ob.peers[0].serverPort == 51820)
      && ob.localAddress != []
      && (!Truthy(Get(d, "local_address", Null)) ==> ob.localAddress == ["10.74.200.203/32"])
      && (var a := Get(d, "local_address", Null);
          a.Str? && (forall k | 0 <= k < |a.s| :: a.s[k] == ',' || IsSpace(a.s[k])) ==>
          ob.localAddress == ["10.74.200.203/32"])
  {
    var d := p.data.fields;
    assert IntOf(Int(51820)) == Some(51820);
    var a := Get(d, "local_address", Null);
    if !Truthy(a) {
      assert Split("", ',') == [""];
      assert Strip("") == "";
    } else if a.Str? && forall k | 0 <= k < |a.s| :: a.s[k] == ',' || IsSpace(a.s[k]) {
      CommaListBlank(a.s);
    }
  }

  /** Text of commas and whitespace only (`" , "`) lists no address. */
  lemma {:induction false} CommaListBlank(s: string)
    requires forall k | 0 <= k < |s| :: s[k] == ',' || IsSpace(s[k])
    ensures CommaList(s) == []
    decreases |s|
  {
    match IndexOf(s, ',')
    case None =>
      StripBlank(s);
    case Some(i) =>
      var head, rest := s[..i], s[i + 1..];
      assert Split(s, ',') == [head] + Split(rest, ',');
      StripBlank(head);
      CommaListBlank(rest);
      assert ([head] + Split(rest, ','))[1..] == Split(rest, ',');
  }

  /** A WireGuard descriptor whose port `int()` rejects, or whose
      `local_address` is a truthy non-string, raises. */
  lemma WireguardRaises(codec: Codec, p: ProxyRecord)
    requires Lower(p.ptype) == "wireguard" && p.data.Dict?
    ensures var d := p.data.fields;
      (IntOf(Or(Get(d, "server_port", Null), Int(51820))).None? || !Or(Get(d, "local_address", Null), Str("")).Str?)
      <==> OutboundFromAdded(codec, p) == Raised
  {
  }

  /** SOCKS5 maps to type `socks`, http and https keep their name; the
      credentials are written exactly when the username is truthy (the
      password alone does not matter). */
  lemma ProxyShape(codec: Codec, p: ProxyRecord)
    requires Lower(p.ptype) in {"socks5", "http", "https"} && p.data.Dict?
    requires OutboundFromAdded(codec, p).Built?
    ensures var ob := OutboundFromAdded(codec, p).ob;
      var d := p.data.fields;
      && ob.ProxyOut?
      && ob.kind == (if Lower(p.ptype) == "socks5" then "socks" else Lower(p.ptype))
      && ob.server == Get(d, "server", Str(""))
      && (ob.auth.Some? <==> Truthy(Get(d, "username", Null)))
      && (ob.auth.Some? ==> ob.auth.value.password == Get(d, "password", Str("")))
      && (!Truthy(Get(d, "server_port", Null)) ==> ob.serverPort == 0)
  {
    assert IntOf(Int(0)) == Some(0);
  }

  /** VMess and VLESS: the `tls` block appears exactly when the link asks for
      TLS, the `transport` block exactly for ws, grpc, quic and http. */
  lemma LinkBlocks(codec: Codec, p: ProxyRecord)
    requires Lower(p.ptype) in {"vmess", "vless"} && p.data.Dict?
    requires OutboundFromAdded(codec, p).Built?
    ensures var ob := OutboundFromAdded(codec, p).ob;
      && (ob.VmessOut? || ob.VlessOut?)
      && (Lower(p.ptype) == "vmess" ==>
            && ob.VmessOut?
            && (ob.tls.Some? <==> DecodeVmess(codec, p.raw).value.tls)
            && (ob.transport.Some? <==> IsTransportKind(DecodeVmess(codec, p.raw).value.transport)))
      && (Lower(p.ptype) == "vless" ==>
            && ob.VlessOut?
            && (ob.tls.Some? <==> DecodeVless(codec, p.raw).value.tls)
            && (ob.transport.Some? <==> IsTransportKind(Str(DecodeVless(codec, p.raw).value.transport))))
  {
  }

  /** A link that its decoder rejects produces no outbound, and any other
      kind than the known ones produces none either. */
  lemma UndecodableLinkSkipped(codec: Codec, p: ProxyRecord)
    requires p.data.Dict?
    ensures Lower(p.ptype) == "vmess" && DecodeVmess(codec, p.raw).None? ==> OutboundFromAdded(codec, p) == Skipped
    ensures Lower(p.ptype) == "vless" && DecodeVless(codec, p.raw).None? ==> OutboundFromAdded(codec, p) == Skipped
    ensures Lower(p.ptype) == "shadowsocks" && DecodeShadowsocks(codec, p.raw).None?
            ==> OutboundFromAdded(codec, p) == Skipped
    ensures Lower(p.ptype) !in KnownKinds + {"https"} ==> OutboundFromAdded(codec, p) == Skipped
  {
  }
}
