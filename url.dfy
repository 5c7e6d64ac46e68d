/** `urllib.parse.urlparse` and the `SplitResult` accessors the decoders use
    (`username`, `hostname`, `port`) and `parse_qs`, over the character-level
    rules of the Python 3.12 implementation. */
module Url {
  import opened Wrappers
  import opened Text
  import opened Library

  datatype ParsedUrl = ParsedUrl(
    scheme: string, netloc: string, path: string, params: string, query: string, fragment: string)

  predicate IsSchemeChar(c: char) {
    IsAsciiLetter(c) || IsDigit(c) || c == '+' || c == '-' || c == '.'
  }

  /** Leading characters urlsplit discards: C0 controls and space. */
  function DropLeadingControls(s: string): (r: string)
    ensures r == [] || r[0] > ' '
  {
    if s != [] && s[0] <= ' ' then DropLeadingControls(s[1..]) else s
  }

  /** The characters urlsplit deletes: tab, carriage return and line feed. */
  predicate IsUnsafe(c: char) {
    c == '\t' || c == '\r' || c == '\n'
  }

  /** What urlsplit keeps of one character. */
  function Kept(c: char): (r: string)
    ensures |r| <= 1 && (r == [] <==> IsUnsafe(c))
  {
    if IsUnsafe(c) then [] else [c]
  }

  /** urlsplit deletes every tab, carriage return and line feed. */
  function DropUnsafe(s: string): (r: string)
    ensures |r| <= |s|
  {
    if s == [] then [] else Kept(s[0]) + DropUnsafe(s[1..])
  }

  /** The scheme is the text before the first colon when it starts with an
      ASCII letter and uses only scheme characters; it is lower-cased. */
  function SplitScheme(u: string): (r: (string, string))
  {
    match IndexOf(u, ':')
    case None => ("", u)
    case Some(i) =>
      if i > 0 && IsAsciiLetter(u[0]) && forall k | 0 <= k < i :: IsSchemeChar(u[k])
      then (Lower(u[..i]), u[i + 1..])
      else ("", u)
  }

  /** Index of the first `/`, `?` or `#`, or the length. */
  function NetlocEnd(s: string, from: nat): (r: nat)
    requires from <= |s|
    decreases |s| - from
    ensures from <= r <= |s|
    ensures forall k | from <= k < r :: s[k] !in "/?#"
    ensures r < |s| ==> s[r] in "/?#"
  {
    if from == |s| || s[from] in "/?#" then from else NetlocEnd(s, from + 1)
  }

  /** `'[' in netloc and ']' not in netloc`, or the other way round: urlsplit
      raises "Invalid IPv6 URL". */
  predicate UnbalancedBrackets(netloc: string) {
    ('[' in netloc) != (']' in netloc)
  }

  /** `str.partition(c)` on a one-character separator. */
  function Partition(s: string, c: char): (r: (string, bool, string))
    ensures !r.1 ==> r.0 == s && r.2 == "" && c !in s
    ensures r.1 ==> s == r.0 + [c] + r.2 && c !in r.0
  {
    match IndexOf(s, c)
    case None => (s, false, "")
    case Some(i) => assert s == s[..i] + [c] + s[i + 1..]; (s[..i], true, s[i + 1..])
  }

  /** `str.rpartition(c)` on a one-character separator. */
  function RPartition(s: string, c: char): (r: (string, bool, string))
    ensures !r.1 ==> r.0 == "" && r.2 == s && c !in s
    ensures r.1 ==> s == r.0 + [c] + r.2 && c !in r.2
  {
    match LastIndexOf(s, c)
    case None => ("", false, s)
    case Some(i) => assert s == s[..i] + [c] + s[i + 1..]; (s[..i], true, s[i + 1..])
  }

  /** Schemes whose last path segment may carry `;params`. */
  predicate UsesParams(scheme: string) {
    scheme in ["", "ftp", "hdl", "prospero", "http", "imap", "https", "shttp", "rtsp",
               "rtsps", "rtspu", "sip", "sips", "mms", "sftp", "tel"]
  }

  /** `_splitparams`: the first `;` after the last `/`. */
  function SplitParams(path: string): (string, string) {
    match LastIndexOf(path, '/')
    case Some(slash) =>
      (match IndexOf(path[slash..], ';')
       case None => (path, "")
       case Some(j) => (path[..slash + j], path[slash + j + 1..]))
    case None =>
      (match IndexOf(path, ';')
       case None => (path, "")
       case Some(j) => (path[..j], path[j + 1..]))
  }

  /** `urlparse(url)`; `None` when it raises (unbalanced brackets in the netloc). */
  function UrlParse(url: string): (r: Option<ParsedUrl>)
    ensures r.Some? ==> !UnbalancedBrackets(r.value.netloc)
  {
    var u := DropUnsafe(DropLeadingControls(url));
    var (scheme, rest) := SplitScheme(u);
    var (netloc, tail) :=
      if StartsWith(rest, "//") then
        var e := NetlocEnd(rest, 2); (rest[2..e], rest[e..])
      else ("", rest);
    if UnbalancedBrackets(netloc) then None
    else
      var (beforeFragment, _, fragment) := Partition(tail, '#');
      var (beforeQuery, _, query) := Partition(beforeFragment, '?');
      var (path, params) :=
        if UsesParams(scheme) && ';' in beforeQuery then SplitParams(beforeQuery) else (beforeQuery, "");
      Some(ParsedUrl(scheme, netloc, path, params, query, fragment))
  }

  /** `SplitResult._hostinfo`: the host text and the raw port text after the
      last `@`, with the bracketed form taking the text between `[` and `]`. */
  function HostInfo(netloc: string): (r: (string, string)) {
    var (_, _, hostinfo) := RPartition(netloc, '@');
    var (_, openBracket, bracketed) := Partition(hostinfo, '[');
    if openBracket then
      var (host, _, afterHost) := Partition(bracketed, ']');
      var (_, _, port) := Partition(afterHost, ':');
      (host, port)
    else
      var (host, _, port) := Partition(hostinfo, ':');
      (host, port)
  }

  /** `SplitResult.hostname`: `None` when empty, lower-cased up to a `%` zone. */
  function Hostname(netloc: string): (r: Option<string>)
    ensures r.Some? ==> r.value != ""
  {
    var host := HostInfo(netloc).0;
    if host == "" then None
    else
      var (name, hasZone, zone) := Partition(host, '%');
      Some(Lower(name) + (if hasZone then "%" + zone else ""))
  }

  datatype PortField = NoPort | PortNumber(n: nat) | BadPort

  /** `SplitResult.port`: absent, a number in [0, 65535], or raises. */
  function Port(netloc: string): (r: PortField)
    ensures r.NoPort? <==> HostInfo(netloc).1 == ""
    ensures r.PortNumber? <==> IsDigits(HostInfo(netloc).1) && DigitsValue(HostInfo(netloc).1) <= 65535
    ensures r.PortNumber? ==> r.n == DigitsValue(HostInfo(netloc).1) && r.n <= 65535
  {
    var text := HostInfo(netloc).1;
    if text == "" then NoPort
    else if IsDigits(text) && DigitsValue(text) <= 65535 then PortNumber(DigitsValue(text))
    else BadPort
  }

  /** `SplitResult.username`: the text before the first `:` of the part of the
      netloc before its last `@`; `None` when there is no `@`. */
  function Username(netloc: string): Option<string> {
    var (userinfo, hasAt, _) := RPartition(netloc, '@');
    if hasAt then Some(Partition(userinfo, ':').0) else None
  }

  /** `parse_qs` decoding of one name or value: `+` is a space, then `unquote`. */
  function FormUnquote(codec: Codec, s: string): string {
    codec.unquote(seq(|s|, i requires 0 <= i < |s| => if s[i] == '+' then ' ' else s[i]))
  }

  /** `parse_qsl(query)`: `&`-separated `name=value` pairs in order; pairs
      without `=` or with an empty value are dropped. */
  function QueryPairs(codec: Codec, parts: seq<string>): seq<(string, string)> {
    if parts == [] then []
    else
      var rest := QueryPairs(codec, parts[1..]);
      match IndexOf(parts[0], '=')
      case None => rest
      case Some(i) =>
        if i + 1 == |parts[0]| then rest
        else [(FormUnquote(codec, parts[0][..i]), FormUnquote(codec, parts[0][i + 1..]))] + rest
  }

  /** The value of the first pair named `key`. */
  function FirstValue(pairs: seq<(string, string)>, key: string): (r: Option<string>)
    ensures r.None? <==> forall i | 0 <= i < |pairs| :: pairs[i].0 != key
    ensures r.Some? ==>
      exists i | 0 <= i < |pairs| :: pairs[i] == (key, r.value) && forall j | 0 <= j < i :: pairs[j].0 != key
  {
    if pairs == [] then None
    else if pairs[0].0 == key then Some(pairs[0].1)
    else FirstValue(pairs[1..], key)
  }

  /** `parse_qs(query).get(key, [None])[0]`. */
  function QueryFirst(codec: Codec, query: string, key: string): Option<string> {
    FirstValue(QueryPairs(codec, Split(query, '&')), key)
  }

  // ---------------------------------------------------------------- lemmas

  lemma {:induction false} DropUnsafeAppend(a: string, b: string)
    ensures DropUnsafe(a + b) == DropUnsafe(a) + DropUnsafe(b)
  {
    if a == [] {
      assert a + b == b;
    } else {
      DropUnsafeAppend(a[1..], b);
      assert (a + b)[0] == a[0];
      assert (a + b)[1..] == a[1..] + b;
      AppendAssoc(Kept(a[0]), DropUnsafe(a[1..]), DropUnsafe(b));
    }
  }

  lemma {:induction false} DropUnsafeExcludes(s: string, c: char)
    requires c !in s
    ensures c !in DropUnsafe(s)
  {
    if s != [] {
      DropUnsafeExcludes(s[1..], c);
    }
  }

  /** Text without tabs or line breaks is left as it is. */
  lemma {:induction false} DropUnsafeNoop(s: string)
    requires forall k | 0 <= k < |s| :: !IsUnsafe(s[k])
    ensures DropUnsafe(s) == s
  {
    if s != [] {
      DropUnsafeNoop(s[1..]);
    }
  }

  /** A well-formed scheme followed by `:` is split off and lower-cased. */
  lemma SplitSchemeOf(scheme: string, after: string)
    requires scheme != [] && IsAsciiLetter(scheme[0])
    requires forall k | 0 <= k < |scheme| :: IsSchemeChar(scheme[k])
    ensures SplitScheme(scheme + [':'] + after) == (Lower(scheme), after)
  {
    var u := scheme + [':'] + after;
    assert ':' !in scheme;
    assert u[|scheme|] == ':';
    assert u[..|scheme|] == scheme;
    assert IndexOf(u, ':') == Some(|scheme|);
    assert u[|scheme| + 1..] == after;
  }

  /** The netloc cut from `//rest` holds no bracket that `rest` does not. */
  lemma NetlocBrackets(rest: string)
    requires '[' !in rest && ']' !in rest
    ensures var after := "//" + rest; !UnbalancedBrackets(after[2..NetlocEnd(after, 2)])
  {
    var after := "//" + rest;
    var e := NetlocEnd(after, 2);
    assert after[2..e] == rest[..e - 2];
  }

  /** A head without tabs or line breaks survives in front of what follows. */
  lemma DropUnsafeKeepsHead(head: string, rest: string)
    requires forall k | 0 <= k < |head| :: !IsUnsafe(head[k])
    ensures DropUnsafe(head + rest) == head + DropUnsafe(rest)
  {
    DropUnsafeNoop(head);
    DropUnsafeAppend(head, rest);
  }

  /** Deleting tabs and line breaks from `scheme://rest` leaves the scheme and
      the `://` alone. */
  lemma DropUnsafeSchemed(scheme: string, rest: string)
    requires forall k | 0 <= k < |scheme| :: IsSchemeChar(scheme[k])
    ensures DropUnsafe(scheme + "://" + rest) == scheme + [':'] + ("//" + DropUnsafe(rest))
  {
    var head := scheme + "://";
    forall k | 0 <= k < |head| ensures !IsUnsafe(head[k]) {
      if k < |scheme| {
        assert head[k] == scheme[k] && IsSchemeChar(scheme[k]);
      }
    }
    DropUnsafeKeepsHead(head, rest);
    AppendAssoc(scheme + [':'], "//", DropUnsafe(rest));
  }

  /** A URL written `scheme://rest`, with a well-formed scheme and no brackets
      after it, parses, and its scheme is the lower-cased `scheme`. */
  lemma UrlParseScheme(scheme: string, rest: string)
    requires scheme != [] && IsAsciiLetter(scheme[0])
    requires forall k | 0 <= k < |scheme| :: IsSchemeChar(scheme[k])
    requires '[' !in rest && ']' !in rest
    ensures UrlParse(scheme + "://" + rest).Some?
    ensures UrlParse(scheme + "://" + rest).value.scheme == Lower(scheme)
  {
    var url := scheme + "://" + rest;
    assert DropLeadingControls(url) == url;
    var rest' := DropUnsafe(rest);
    DropUnsafeSchemed(scheme, rest);
    SplitSchemeOf(scheme, "//" + rest');
    DropUnsafeExcludes(rest, '[');
    DropUnsafeExcludes(rest, ']');
    NetlocBrackets(rest');
    UrlParseAuthority(url, Lower(scheme), "//" + rest');
  }

  /** A URL whose cleaned text splits into a scheme and a `//` authority with
      balanced brackets parses, with that scheme. */
  lemma UrlParseAuthority(url: string, scheme: string, after: string)
    requires SplitScheme(DropUnsafe(DropLeadingControls(url))) == (scheme, after)
    requires StartsWith(after, "//") && !UnbalancedBrackets(after[2..NetlocEnd(after, 2)])
    ensures UrlParse(url).Some? && UrlParse(url).value.scheme == scheme
  {
  }

  // ---------------------------------------------------------------- authorities

  /** `partition` at the separator's first occurrence. */
  lemma PartitionFirst(a: string, c: char, b: string)
    requires c !in a
    ensures Partition(a + [c] + b, c) == (a, true, b)
  {
    var s := a + [c] + b;
    assert s[|a|] == c;
    assert s[..|a|] == a;
    assert IndexOf(s, c) == Some(|a|);
    assert s[|a| + 1..] == b;
  }

  /** `rpartition` at the separator's last occurrence. */
  lemma RPartitionLast(a: string, c: char, b: string)
    requires c !in b
    ensures RPartition(a + [c] + b, c) == (a, true, b)
  {
    var s := a + [c] + b;
    var i := |a|;
    assert s[i] == c;
    assert s[i + 1..] == b;
    assert LastIndexOf(s, c) == Some(i);
    assert s[..i] == a;
  }

  /** A character that may stand in a network location without ending it,
      being deleted, or making urlsplit raise. */
  predicate NetlocChar(c: char) {
    !IsUnsafe(c) && c != '/' && c != '?' && c != '#' && c != '[' && c != ']'
  }

  /** A character of the user-info in front of the `@`. */
  predicate UserChar(c: char) {
    NetlocChar(c) && c != '@'
  }

  /** A character of a host or port that no accessor splits at. */
  predicate PlainChar(c: char) {
    UserChar(c) && c != ':' && c != '%'
  }

  /** Joining network-location text keeps it network-location text. */
  lemma NetlocJoin(a: string, c: char, b: string)
    requires forall k | 0 <= k < |a| :: NetlocChar(a[k])
    requires NetlocChar(c) && forall k | 0 <= k < |b| :: NetlocChar(b[k])
    ensures forall k | 0 <= k < |a + [c] + b| :: NetlocChar((a + [c] + b)[k])
  {
    forall k | 0 <= k < |a + [c] + b| ensures NetlocChar((a + [c] + b)[k]) {
      if k > |a| {
        assert (a + [c] + b)[k] == b[k - |a| - 1];
      }
    }
  }

  /** A query-less URL has no query parameters. */
  lemma NoQuery(codec: Codec, key: string)
    ensures QueryFirst(codec, "", key) == None
  {
    assert IndexOf("", '&') == None;
    assert Split("", '&') == [""];
    assert IndexOf("", '=') == None;
    assert QueryPairs(codec, [""]) == [];
  }

  /** `scheme://netloc` with nothing after the network location parses into
      exactly that scheme (lower-cased) and network location. */
  lemma UrlParseNetloc(scheme: string, netloc: string)
    requires scheme != [] && IsAsciiLetter(scheme[0])
    requires forall k | 0 <= k < |scheme| :: IsSchemeChar(scheme[k])
    requires forall k | 0 <= k < |netloc| :: NetlocChar(netloc[k])
    ensures UrlParse(scheme + "://" + netloc) == Some(ParsedUrl(Lower(scheme), netloc, "", "", "", ""))
  {
    var url := scheme + "://" + netloc;
    assert DropLeadingControls(url) == url;
    DropUnsafeSchemed(scheme, netloc);
    DropUnsafeNoop(netloc);
    SplitSchemeOf(scheme, "//" + netloc);
    NetlocWhole(netloc);
    UrlParseTail(url, Lower(scheme), netloc);
  }

  /** `//netloc` (what a scheme-less text is parsed as) has no scheme and
      exactly that network location. */
  lemma UrlParseBare(netloc: string)
    requires forall k | 0 <= k < |netloc| :: NetlocChar(netloc[k])
    ensures UrlParse("//" + netloc) == Some(ParsedUrl("", netloc, "", "", "", ""))
  {
    var url := "//" + netloc;
    assert DropLeadingControls(url) == url;
    assert forall k | 0 <= k < |url| :: !IsUnsafe(url[k]) by {
      forall k | 0 <= k < |url| ensures !IsUnsafe(url[k]) {
        if k >= 2 { assert url[k] == netloc[k - 2]; }
      }
    }
    DropUnsafeNoop(url);
    assert SplitScheme(url) == ("", url) by { assert !IsAsciiLetter(url[0]); }
    NetlocWhole(netloc);
    UrlParseTail(url, "", netloc);
  }

  /** A plain network location after `//` runs to the end of the text. */
  lemma NetlocWhole(netloc: string)
    requires forall k | 0 <= k < |netloc| :: NetlocChar(netloc[k])
    ensures NetlocEnd("//" + netloc, 2) == |netloc| + 2 && ("//" + netloc)[2..|netloc| + 2] == netloc
    ensures !UnbalancedBrackets(netloc)
  {
    var after := "//" + netloc;
    var e := NetlocEnd(after, 2);
    assert after[2..e] == netloc[..e - 2];
  }

  /** The last step of `UrlParseNetloc`: no path, query or fragment. */
  lemma UrlParseTail(url: string, scheme: string, netloc: string)
    requires SplitScheme(DropUnsafe(DropLeadingControls(url))) == (scheme, "//" + netloc)
    requires NetlocEnd("//" + netloc, 2) == |netloc| + 2 && ("//" + netloc)[2..|netloc| + 2] == netloc
    requires !UnbalancedBrackets(netloc)
    ensures UrlParse(url) == Some(ParsedUrl(scheme, netloc, "", "", "", ""))
  {
    assert ("//" + netloc)[|netloc| + 2..] == "";
    assert Partition("", '#') == ("", false, "");
    assert Partition("", '?') == ("", false, "");
  }

  /** The accessors on `userinfo@host:port`: the host lower-cased, the
      port's number and the user name (the user-info up to its first `:`). */
  lemma AuthorityParts(netloc: string, user: string, host: string, port: string)
    requires netloc == user + "@" + host + ":" + port
    requires forall k | 0 <= k < |user| :: UserChar(user[k])
    requires host != [] && forall k | 0 <= k < |host| :: PlainChar(host[k])
    requires IsDigits(port) && DigitsValue(port) <= 65535
    ensures Hostname(netloc) == Some(Lower(host))
    ensures Port(netloc) == PortNumber(DigitsValue(port))
    ensures Username(netloc) == Some(Partition(user, ':').0)
  {
    var hostinfo := host + ":" + port;
    assert netloc == user + ['@'] + hostinfo;
    UserAt(user, hostinfo, netloc);
    HostPortParts(host, port);
    HostInfoOf(netloc, user, hostinfo, host, port);
  }

  /** The user name in front of the last `@`. */
  lemma UserAt(user: string, hostinfo: string, netloc: string)
    requires '@' !in hostinfo && netloc == user + ['@'] + hostinfo
    ensures RPartition(netloc, '@') == (user, true, hostinfo)
    ensures Username(netloc) == Some(Partition(user, ':').0)
  {
    RPartitionLast(user, '@', hostinfo);
  }

  /** `_hostinfo` once the user name is split off. */
  lemma HostInfoOf(netloc: string, user: string, hostinfo: string, host: string, port: string)
    requires RPartition(netloc, '@') == (user, true, hostinfo)
    requires Partition(hostinfo, '[') == (hostinfo, false, "")
    requires Partition(hostinfo, ':') == (host, true, port)
    requires host != [] && Partition(host, '%') == (host, false, "")
    requires IsDigits(port) && DigitsValue(port) <= 65535
    ensures HostInfo(netloc) == (host, port)
    ensures Hostname(netloc) == Some(Lower(host))
    ensures Port(netloc) == PortNumber(DigitsValue(port))
  {
    assert Lower(host) + "" == Lower(host);
  }

  /** `_hostinfo` and `hostname` on `host:port` with a plain host. */
  lemma HostPortParts(host: string, port: string)
    requires host != [] && forall k | 0 <= k < |host| :: PlainChar(host[k])
    requires IsDigits(port)
    ensures '@' !in host + ":" + port
    ensures var hostinfo := host + ":" + port;
      && Partition(hostinfo, '[') == (hostinfo, false, "")
      && Partition(hostinfo, ':') == (host, true, port)
      && Partition(host, '%') == (host, false, "")
  {
    var hostinfo := host + ":" + port;
    forall k | 0 <= k < |hostinfo| ensures hostinfo[k] != '[' && hostinfo[k] != '@' {
      if k > |host| {
        assert hostinfo[k] == port[k - |host| - 1];
      }
    }
    assert ':' !in host && '%' !in host;
    PartitionFirst(host, ':', port);
  }
}
