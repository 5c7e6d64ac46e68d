/** `detect_proxy_type`: the ordered rules that classify one pasted line. */
module Detect {
  import opened Wrappers
  import opened Text
  import opened Url
  import opened Decoders

  datatype Kind = Wireguard | Socks5 | Http | Vmess | Vless | Shadowsocks | Unknown {
    /** The type name the function returns, also stored as a descriptor's `ptype`. */
    function Name(): string {
      match this
      case Wireguard => "wireguard"
      case Socks5 => "socks5"
      case Http => "http"
      case Vmess => "vmess"
      case Vless => "vless"
      case Shadowsocks => "shadowsocks"
      case Unknown => "unknown"
    }
  }

  /** Every kind has its own name. */
  lemma NamesDistinct(a: Kind, b: Kind)
    requires a != b
    ensures a.Name() != b.Name()
  {
  }

  /** Every kind's name is already lower-case. */
  lemma NameIsLower(k: Kind)
    ensures Lower(k.Name()) == k.Name()
  {
    var n := k.Name();
    assert forall i | 0 <= i < |n| :: !('A' <= n[i] <= 'Z');
    LowerNoCapitals(n);
  }

  /** A WireGuard configuration: an `[Interface]` header first, or a
      `PrivateKey` anywhere (case-sensitive). */
  predicate WireguardMarker(t: string) {
    StartsWith(t, "[Interface]") || Contains(t, "PrivateKey")
  }

  /** The regex `^[\w\.\-]+:\d+$`. */
  predicate IsHostPort(netloc: string) {
    var parts := Split(netloc, ':');
    |parts| == 2 && IsHostToken(parts[0]) && IsDigits(parts[1])
  }

  predicate IsSocksScheme(scheme: string) {
    scheme == "socks5" || scheme == "socks" || scheme == "socks5h"
  }

  predicate IsHttpScheme(scheme: string) {
    scheme == "http" || scheme == "https"
  }

  /** The `urlparse` step of the detector: `t` itself when it holds `://`,
      otherwise `"//" + t`; the scheme decides, then the netloc (or, when it
      is empty, the path). `None` falls through to the SOCKS regex, as does a
      parse that raises. */
  function UrlRule(t: string): (r: Option<Kind>)
    ensures r.Some? ==> r.value == Socks5 || r.value == Http
  {
    var target := if Contains(t, "://") then t else "//" + t;
    match UrlParse(target)
    case None => None
    case Some(u) =>
      var scheme := Lower(u.scheme);
      var netloc := if u.netloc != "" then u.netloc else u.path;
      if IsSocksScheme(scheme) then Some(Socks5)
      else if IsHttpScheme(scheme) then Some(Http)
      else if netloc != "" && ('@' in netloc || IsHostPort(netloc)) then Some(Socks5)
      else None
  }

  /** Non-empty text that none of the WireGuard, VMess, VLESS and Shadowsocks
      rules claims: what reaches the URL rule. */
  predicate PastLinkRules(t: string) {
    t != "" && !WireguardMarker(t) && !StartsWith(Lower(t), "vmess://")
    && !StartsWith(Lower(t), "vless://") && !StartsWith(Lower(t), "ss://")
  }

  /** `detect_proxy_type`. */
  function DetectProxyType(s: string): (r: Kind)
    ensures Strip(s) == "" ==> r == Unknown
    ensures r == Wireguard <==> Strip(s) != "" && WireguardMarker(Strip(s))
    ensures r == Vmess <==>
      Strip(s) != "" && !WireguardMarker(Strip(s)) && StartsWith(Lower(Strip(s)), "vmess://")
    ensures r == Vless <==>
      Strip(s) != "" && !WireguardMarker(Strip(s)) && !StartsWith(Lower(Strip(s)), "vmess://")
      && StartsWith(Lower(Strip(s)), "vless://")
    ensures r == Shadowsocks <==>
      Strip(s) != "" && !WireguardMarker(Strip(s)) && !StartsWith(Lower(Strip(s)), "vmess://")
      && !StartsWith(Lower(Strip(s)), "vless://") && StartsWith(Lower(Strip(s)), "ss://")
    ensures r == Http <==> PastLinkRules(Strip(s)) && UrlRule(Strip(s)) == Some(Http)
    ensures r == Socks5 <==>
      PastLinkRules(Strip(s))
      && (UrlRule(Strip(s)) == Some(Socks5) || (UrlRule(Strip(s)).None? && MatchSocks(Strip(s)).Some?))
    ensures r == Unknown <==>
      Strip(s) == "" || (PastLinkRules(Strip(s)) && UrlRule(Strip(s)).None? && MatchSocks(Strip(s)).None?)
  {
    var t := Strip(s);
    if t == "" then Unknown
    else if WireguardMarker(t) then Wireguard
    else
      var lt := Lower(t);
      if StartsWith(lt, "vmess://") then Vmess
      else if StartsWith(lt, "vless://") then Vless
      else if StartsWith(lt, "ss://") then Shadowsocks
      else match UrlRule(t)
        case Some(k) => k
        case None => if MatchSocks(t).Some? then Socks5 else Unknown
  }

  // ---------------------------------------------------------------- lemmas

  /** Lower-casing leaves `:` and `/` where they were, so a lower-cased
      `x://` prefix means the text itself holds `://`. */
  lemma LowerPrefixHasSeparator(t: string, prefix: string)
    requires |prefix| >= 3 && prefix[|prefix| - 3..] == "://"
    requires StartsWith(Lower(t), prefix)
    ensures Contains(t, "://")
  {
    var i := |prefix| - 3;
    assert Lower(t)[i] == ':' && Lower(t)[i + 1] == '/' && Lower(t)[i + 2] == '/';
    assert t[i..i + 3] == "://";
    assert OccursAt(t, "://", i);
  }

  lemma DropUnsafeKeepsFirst(s: string)
    requires s != [] && !IsUnsafe(s[0])
    ensures DropUnsafe(s) != [] && DropUnsafe(s)[0] == s[0]
  {
  }

  /** Text prefixed with `//` has no scheme. */
  lemma {:induction false} NoSchemeAfterSlashes(t: string)
    requires UrlParse("//" + t).Some?
    ensures UrlParse("//" + t).value.scheme == ""
  {
    var x := "//" + t;
    assert DropLeadingControls(x) == x;
    DropUnsafeKeepsFirst(x);
    assert !IsAsciiLetter(DropUnsafe(x)[0]);
  }

  /** Without `://` the URL rule can only answer `socks5`. */
  lemma BareTextNeverHttp(t: string)
    requires !Contains(t, "://")
    ensures UrlRule(t) != Some(Http)
  {
    if UrlParse("//" + t).Some? {
      NoSchemeAfterSlashes(t);
    }
  }

  /** A SOCKS string starts with a host character, never with `[`. */
  lemma SocksStringNotInterface(t: string)
    requires MatchSocks(t).Some?
    ensures t != "" && !StartsWith(t, "[Interface]")
  {
    var f := MatchSocks(t).value;
    var port :| IsDigits(port) && DigitsValue(port) == f.serverPort && t == MatchedText(f, port);
    assert t[0] == f.server[0] && f.server[0] != '[';
  }

  /** Whatever `parse_socks_string` accepts is detected as `socks5`, unless the
      text also holds `PrivateKey` (WireGuard wins) or `://` (the scheme rules
      see it first: `http:1://a:b` is a SOCKS string and detects as `http`). */
  lemma SocksStringDetected(s: string)
    requires ParseSocksString(s).Some?
    requires !Contains(Strip(s), "PrivateKey") && !Contains(Strip(s), "://")
    ensures DetectProxyType(s) == Socks5
  {
    var t := Strip(s);
    var r := DetectProxyType(s);
    assert r != Wireguard && r != Unknown by { SocksStringNotInterface(t); }
    assert r != Vmess by {
      if StartsWith(Lower(t), "vmess://") { LowerPrefixHasSeparator(t, "vmess://"); }
    }
    assert r != Vless by {
      if StartsWith(Lower(t), "vless://") { LowerPrefixHasSeparator(t, "vless://"); }
    }
    assert r != Shadowsocks by {
      if StartsWith(Lower(t), "ss://") { LowerPrefixHasSeparator(t, "ss://"); }
    }
    assert r != Http by { BareTextNeverHttp(t); }
  }

  /** Text without `://` that could be a network location and holds an `@`
      (`user:pass@host:1080`) is detected as `socks5` by the netloc rule,
      before and whatever the SOCKS regex would say of it. */
  lemma UserInfoDetected(t: string)
    requires t != [] && !IsSpace(t[0]) && !IsSpace(t[|t| - 1])
    requires forall k | 0 <= k < |t| :: NetlocChar(t[k])
    requires '@' in t && !Contains(t, "://") && !Contains(t, "PrivateKey")
    ensures DetectProxyType(t) == Socks5
  {
    StripUnchanged(t);
    assert !StartsWith(t, "[Interface]") by { assert NetlocChar(t[0]); }
    if StartsWith(Lower(t), "vmess://") { LowerPrefixHasSeparator(t, "vmess://"); }
    if StartsWith(Lower(t), "vless://") { LowerPrefixHasSeparator(t, "vless://"); }
    if StartsWith(Lower(t), "ss://") { LowerPrefixHasSeparator(t, "ss://"); }
    UrlParseBare(t);
    assert Lower("") == "";
    assert UrlRule(t) == Some(Socks5);
  }

  /** A SOCKS or HTTP scheme is not mistaken for a link prefix. */
  lemma SchemeNotLinkPrefix(scheme: string, rest: string)
    requires |scheme| >= 2
    requires IsSocksScheme(Lower(scheme)) || IsHttpScheme(Lower(scheme))
    ensures var lt := Lower(scheme + "://" + rest);
      !StartsWith(lt, "vmess://") && !StartsWith(lt, "vless://") && !StartsWith(lt, "ss://")
  {
    var t := scheme + "://" + rest;
    assert t[0] == scheme[0] && t[1] == scheme[1];
    assert Lower(t)[0] == Lower(scheme)[0] && Lower(t)[1] == Lower(scheme)[1];
  }

  /** The URL rule answers from the scheme of a `scheme://rest` URL. */
  lemma SchemeUrlRule(scheme: string, rest: string)
    requires scheme != [] && IsAsciiLetter(scheme[0])
    requires forall k | 0 <= k < |scheme| :: IsSchemeChar(scheme[k])
    requires '[' !in rest && ']' !in rest
    requires IsSocksScheme(Lower(scheme)) || IsHttpScheme(Lower(scheme))
    ensures UrlRule(scheme + "://" + rest) == Some(if IsSocksScheme(Lower(scheme)) then Socks5 else Http)
  {
    var t := scheme + "://" + rest;
    assert OccursAt(t, "://", |scheme|);
    UrlParseScheme(scheme, rest);
    LowerIdempotent(scheme);
  }

  /** A `scheme://rest` URL is its own `strip()` and has no `[Interface]` header. */
  lemma SchemeUrlStripped(scheme: string, rest: string)
    requires scheme != [] && IsAsciiLetter(scheme[0])
    requires rest == [] || !IsSpace(rest[|rest| - 1])
    ensures Strip(scheme + "://" + rest) == scheme + "://" + rest
    ensures !StartsWith(scheme + "://" + rest, "[Interface]")
  {
    var t := scheme + "://" + rest;
    assert t[0] == scheme[0];
    assert t[|t| - 1] == if rest == [] then '/' else rest[|rest| - 1];
    StripUnchanged(t);
  }

  /** A `socks5://`, `socks://` or `socks5h://` URL (any letter case) is
      detected as `socks5`, an `http://` or `https://` URL as `http`, provided
      it carries no `PrivateKey` and its netloc parses. */
  lemma SchemeUrlDetected(scheme: string, rest: string)
    requires scheme != [] && IsAsciiLetter(scheme[0])
    requires forall k | 0 <= k < |scheme| :: IsSchemeChar(scheme[k])
    requires '[' !in rest && ']' !in rest
    requires rest == [] || !IsSpace(rest[|rest| - 1])
    requires !Contains(scheme + "://" + rest, "PrivateKey")
    ensures IsSocksScheme(Lower(scheme)) ==> DetectProxyType(scheme + "://" + rest) == Socks5
    ensures IsHttpScheme(Lower(scheme)) ==> DetectProxyType(scheme + "://" + rest) == Http
  {
    if IsSocksScheme(Lower(scheme)) || IsHttpScheme(Lower(scheme)) {
      SchemeUrlStripped(scheme, rest);
      SchemeNotLinkPrefix(scheme, rest);
      SchemeUrlRule(scheme, rest);
    }
  }
}
