/** What the main screen stores for a pasted link, and what an edit makes
    of a stored descriptor, as functions on `ProxyRecord` values. */
module Records {
  import opened Wrappers
  import opened Text
  import opened Values
  import opened Library
  import opened Url
  import opened Decoders
  import opened Detect
  import opened Outbounds
  import opened Generate

  /** `f"{ptype.upper()} {server}"`. */
  function Caption(kind: string, server: Value): string {
    Upper(kind) + " " + ToText(server)
  }

  /** `_decode_vmess(s) or _decode_vless(s) or _decode_shadowsocks(s) or {}`,
      reduced to the `server` entry of the first decoder that succeeds. */
  function DecodedServer(codec: Codec, s: string): (r: Option<Value>)
    ensures r.Some? <==>
      DecodeVmess(codec, s).Some? || DecodeVless(codec, s).Some? || DecodeShadowsocks(codec, s).Some?
  {
    var vmess := DecodeVmess(codec, s);
    if vmess.Some? then Some(vmess.value.server)
    else
      var vless := DecodeVless(codec, s);
      if vless.Some? then Some(Str(vless.value.server))
      else
        match DecodeShadowsocks(codec, s)
        case Some(f) => Some(Str(f.server))
        case None => None
  }

  predicate IsLinkKind(k: Kind) {
    k == Vmess || k == Vless || k == Shadowsocks
  }

  /** The descriptor `add_proxy_from_string` appends for `text`, or `None`
      when it returns `False`. */
  function Pasted(codec: Codec, text: string): (r: Option<ProxyRecord>)
    ensures r.Some? ==> r.value.selected
  {
    var s := Strip(text);
    if s == "" then None
    else
      var kind := DetectProxyType(s);
      if !IsLinkKind(kind) then None
      else
        match DecodedServer(codec, s)
        case None => None
        case Some(server) =>
          Some(ProxyRecord(kind.Name(), Caption(kind.Name(), Or(server, Str("(Pasted)"))), Dict(map[]), s, true))
  }

  /** What pasting one line appends: its descriptor, or nothing. */
  function Admitted(codec: Codec, line: string): seq<ProxyRecord> {
    match Pasted(codec, line)
    case None => []
    case Some(p) => [p]
  }

  /** What a line admits is the descriptor `Pasted` makes of it, if any. */
  lemma PastedAdmitted(codec: Codec, line: string)
    ensures Pasted(codec, line).None? ==> Admitted(codec, line) == []
    ensures Pasted(codec, line).Some? ==> Admitted(codec, line) == [Pasted(codec, line).value]
  {
  }

  /** A line admits one descriptor or none. */
  lemma AdmittedCount(codec: Codec, line: string)
    ensures |Admitted(codec, line)| == if Pasted(codec, line).Some? then 1 else 0
  {
  }

  /** `[r for line in lines if (r := pasted(line))]`: what a batch import appends. */
  function AdmitAll(codec: Codec, lines: seq<string>): (r: seq<ProxyRecord>)
    ensures |r| <= |lines|
  {
    if lines == [] then []
    else AdmitAll(codec, lines[..|lines| - 1]) + Admitted(codec, lines[|lines| - 1])
  }

  /** One more line of a batch import. */
  lemma AdmitAllStep(codec: Codec, lines: seq<string>, i: nat)
    requires i < |lines|
    ensures AdmitAll(codec, lines[..i + 1]) == AdmitAll(codec, lines[..i]) + Admitted(codec, lines[i])
  {
    assert lines[..i + 1][..i] == lines[..i];
  }

  /** A line is kept exactly when its stripped text is detected as a vmess,
      vless or shadowsocks link and one of the three decoders accepts it;
      the descriptor then holds the stripped text, an empty `data` and the
      detected kind's name, and is captioned with the upper-cased kind and
      the first accepting decoder's server (`(Pasted)` when that is empty). */
  lemma PastedIff(codec: Codec, text: string)
    ensures var s := Strip(text);
      Pasted(codec, text).Some? <==>
        && s != ""
        && IsLinkKind(DetectProxyType(s))
        && (DecodeVmess(codec, s).Some? || DecodeVless(codec, s).Some? || DecodeShadowsocks(codec, s).Some?)
    ensures var s := Strip(text);
      Pasted(codec, text).Some? ==>
        var p := Pasted(codec, text).value;
        && p.raw == s && p.data == Dict(map[]) && p.ptype == DetectProxyType(s).Name()
        && p.caption == Caption(DetectProxyType(s).Name(), Or(DecodedServer(codec, s).value, Str("(Pasted)")))
  {
  }

  /** The shadowsocks decoder never decides a paste: whatever it accepts, the
      vless decoder tried before it accepts too, and the caption's server is
      the vless decoder's. */
  lemma ShadowsocksStepUnreachable(codec: Codec, s: string)
    requires DecodeShadowsocks(codec, s).Some?
    ensures DecodeVless(codec, s).Some?
    ensures DecodeVmess(codec, s).None? ==> DecodedServer(codec, s) == Some(Str(DecodeVless(codec, s).value.server))
  {
  }

  /** The decoders run in a fixed order whatever kind was detected: a line
      detected as vmess that only the vless decoder accepts is stored as a
      vmess descriptor, and generating a configuration skips it, since the
      vmess branch decodes it again and fails. */
  lemma ChainIgnoresDetectedType(codec: Codec, text: string)
    requires var s := Strip(text);
      DetectProxyType(s) == Vmess && DecodeVmess(codec, s).None? && DecodeVless(codec, s).Some?
    ensures Pasted(codec, text).Some? && Pasted(codec, text).value.ptype == "vmess"
    ensures OutboundFromAdded(codec, Pasted(codec, text).value) == Skipped
  {
    PastedIff(codec, text);
    var p := Pasted(codec, text).value;
    NameIsLower(Vmess);
    UndecodableLinkSkipped(codec, p);
  }

  // ---------------------------------------------------------------- edits

  /** `decoded.get('server')` after an edit of a link: the decoder is chosen
      by the (lower-cased) kind; other kinds decode to `{}`. */
  function EditedServer(codec: Codec, t: string, raw: string): Value {
    if t == "vmess" then
      (match DecodeVmess(codec, raw) case Some(f) => f.server case None => Null)
    else if t == "vless" then
      (match DecodeVless(codec, raw) case Some(f) => Str(f.server) case None => Null)
    else if t == "shadowsocks" then
      (match DecodeShadowsocks(codec, raw) case Some(f) => Str(f.server) case None => Null)
    else Null
  }

  /** The label after an edit: renamed only when the new server is truthy. */
  function EditedCaption(t: string, server: Value, caption: string): string {
    if Truthy(server) then Caption(t, server) else caption
  }

  /** `save_proxy_edit` on a record: the record afterwards, and whether the
      edit completed (`false`: the exception handler ran). */
  function EditRecord(codec: Codec, r: ProxyRecord, text: string): (e: (ProxyRecord, bool))
    ensures e.0.ptype == r.ptype && e.0.selected == r.selected
  {
    var t := Lower(r.ptype);
    if r.raw != "" then
      var raw := Strip(text);
      var server := EditedServer(codec, t, raw);
      (r.(raw := raw, caption := EditedCaption(t, server, r.caption)), true)
    else
      match codec.jsonLoads(text)
      case None => (r, false)
      case Some(NotDict) => (r.(data := NotDict), false)
      case Some(Dict(d)) =>
        var server := Get(d, "server", Null);
        (r.(data := Dict(d), caption := EditedCaption(t, server, r.caption)), true)
  }

  /** Text that does not parse leaves a JSON descriptor as it was. */
  lemma UnparsedEditKeeps(codec: Codec, r: ProxyRecord, text: string)
    requires r.raw == "" && codec.jsonLoads(text).None?
    ensures EditRecord(codec, r, text) == (r, false)
  {
  }

  /** JSON that is not an object is stored before the edit fails, so the
      descriptor's outbound raises from then on, and so does generating a
      configuration while it is selected. */
  lemma NonObjectEditBreaks(codec: Codec, r: ProxyRecord, text: string, dnsProtection: bool)
    requires r.raw == "" && codec.jsonLoads(text) == Some(NotDict)
    ensures EditRecord(codec, r, text) == (r.(data := NotDict), false)
    ensures OutboundFromAdded(codec, EditRecord(codec, r, text).0) == Raised
    ensures r.selected ==> ConfigFor(codec, [EditRecord(codec, r, text).0], dnsProtection).None?
  {
    var e := EditRecord(codec, r, text).0;
    if r.selected {
      RaisedBlocksConfig(codec, [e], 0, dnsProtection);
    }
  }

  /** Editing a link always completes, keeps `data` and so keeps the tag its
      outbound gets. */
  lemma LinkEditKeepsTag(codec: Codec, r: ProxyRecord, text: string)
    requires r.raw != ""
    ensures var (e, ok) := EditRecord(codec, r, text);
      && ok && e.raw == Strip(text) && e.data == r.data
      && (OutboundFromAdded(codec, r).Built? && OutboundFromAdded(codec, e).Built? ==>
            OutboundFromAdded(codec, e).ob.Tag() == OutboundFromAdded(codec, r).ob.Tag())
  {
    var e := EditRecord(codec, r, text).0;
    if OutboundFromAdded(codec, r).Built? && OutboundFromAdded(codec, e).Built? {
      TagIgnoresLink(codec, e, r);
    }
  }

  /** An edit renames the label to the kind in capitals and the new server
      exactly when that server is truthy: the server the kind's decoder reads
      from an edited link, or the `server` entry of an edited object. Text
      that does not parse, or parses to something other than an object,
      leaves the label alone. */
  lemma EditRelabels(codec: Codec, r: ProxyRecord, text: string)
    ensures var t := Lower(r.ptype);
      var e := EditRecord(codec, r, text).0;
      && (r.raw != "" ==>
            var server := EditedServer(codec, t, Strip(text));
            e.caption == if Truthy(server) then Upper(t) + " " + ToText(server) else r.caption)
      && (r.raw == "" && codec.jsonLoads(text).Some? && codec.jsonLoads(text).value.Dict? ==>
            var server := Get(codec.jsonLoads(text).value.fields, "server", Null);
            e.caption == if Truthy(server) then Upper(t) + " " + ToText(server) else r.caption)
      && (r.raw == "" && (codec.jsonLoads(text).None? || codec.jsonLoads(text).value.NotDict?) ==>
            e.caption == r.caption)
    ensures var e := EditRecord(codec, r, text).0;
      e.caption == r.caption || StartsWith(e.caption, Upper(Lower(r.ptype)) + " ")
  {
    var e := EditRecord(codec, r, text).0;
    if e.caption != r.caption {
      var prefix := Upper(Lower(r.ptype)) + " ";
      var server :| e.caption == prefix + ToText(server);
      assert e.caption[..|prefix|] == prefix;
    }
  }

  /** Editing a JSON descriptor into an object stores the object, completes,
      and from then on its outbound carries the tag the new object gives. */
  lemma ObjectEditStores(codec: Codec, r: ProxyRecord, text: string, d: Object)
    requires r.raw == "" && codec.jsonLoads(text) == Some(Dict(d))
    ensures var server := Get(d, "server", Null);
      EditRecord(codec, r, text) ==
        (r.(data := Dict(d), caption := if Truthy(server) then Caption(Lower(r.ptype), server) else r.caption), true)
    ensures var e := EditRecord(codec, r, text).0;
      OutboundFromAdded(codec, e).Built? ==> OutboundFromAdded(codec, e).ob.Tag() == DescriptorTag(Lower(r.ptype), d)
  {
    var e := EditRecord(codec, r, text).0;
    assert e.data == Dict(d) && e.ptype == r.ptype;
  }

  /** Editing a VLESS descriptor's link into `scheme://user@host:port`
      relabels it `VLESS` and the lower-cased host. */
  lemma VlessLinkEditRelabels(codec: Codec, r: ProxyRecord, text: string,
                              scheme: string, user: string, host: string, port: string)
    requires r.raw != "" && Lower(r.ptype) == "vless"
    requires scheme != [] && IsAsciiLetter(scheme[0])
    requires forall k | 0 <= k < |scheme| :: IsSchemeChar(scheme[k])
    requires forall k | 0 <= k < |user| :: PlainChar(user[k])
    requires host != [] && forall k | 0 <= k < |host| :: PlainChar(host[k])
    requires IsDigits(port) && DigitsValue(port) <= 65535
    requires Strip(text) == scheme + "://" + (user + "@" + host + ":" + port)
    ensures EditRecord(codec, r, text).0.caption == "VLESS " + Lower(host)
  {
    VlessServer(codec, Strip(text), scheme, user, host, port);
    VlessCaption(Lower(host));
    LinkEditCaption(codec, r, text, "vless", Str(Lower(host)), "VLESS " + Lower(host));
  }

  lemma VlessCaption(server: string)
    requires server != ""
    ensures Truthy(Str(server)) && Upper("vless") + " " + ToText(Str(server)) == "VLESS " + server
  {
  }

  /** The server the VLESS decoder reads from `scheme://user@host:port`. */
  lemma VlessServer(codec: Codec, raw: string, scheme: string, user: string, host: string, port: string)
    requires scheme != [] && IsAsciiLetter(scheme[0])
    requires forall k | 0 <= k < |scheme| :: IsSchemeChar(scheme[k])
    requires forall k | 0 <= k < |user| :: PlainChar(user[k])
    requires host != [] && forall k | 0 <= k < |host| :: PlainChar(host[k])
    requires IsDigits(port) && DigitsValue(port) <= 65535
    requires raw == scheme + "://" + (user + "@" + host + ":" + port)
    ensures EditedServer(codec, "vless", raw) == Str(Lower(host))
  {
    VlessRoundTrip(codec, scheme, user, host, port);
  }

  /** The label after a link edit whose decoder reads `server`. */
  lemma LinkEditCaption(codec: Codec, r: ProxyRecord, text: string, t: string, server: Value, caption: string)
    requires r.raw != "" && t == Lower(r.ptype) && EditedServer(codec, t, Strip(text)) == server
    requires caption == if Truthy(server) then Upper(t) + " " + ToText(server) else r.caption
    ensures EditRecord(codec, r, text).0.caption == caption
  {
  }
}
