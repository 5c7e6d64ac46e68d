/** `parse_wireguard_conf`: a line scan over `key = value` pairs in which
    each recognised key overwrites its field. */
module Wireguard {
  import opened Wrappers
  import opened Text
  import opened Url

  /** The parsed configuration. `serverPort` is `None` while the source's
      dict still holds its initial `""` (or after a port that `int()` rejects). */
  datatype WgConf = WgConf(
    privateKey: string, localAddress: seq<string>, peerPublicKey: string,
    server: string, serverPort: Option<int>)

  const Blank := WgConf("", [], "", "", None)

  // ---------------------------------------------------------------- Address

  /** The separators of `re.split(r"[,\s]+", ...)`. */
  predicate IsAddressSeparator(c: char) {
    c == ',' || IsSpace(c)
  }

  /** Length of the run of non-separators at the start of `s`. */
  function RunLength(s: string): (n: nat)
    ensures n <= |s|
    ensures forall k | 0 <= k < n :: !IsAddressSeparator(s[k])
    ensures n < |s| ==> IsAddressSeparator(s[n])
  {
    if s == [] || IsAddressSeparator(s[0]) then 0 else 1 + RunLength(s[1..])
  }

  /** `[a.strip() for a in re.split(r"[,\s]+", val) if a.strip()]`: the
      maximal runs of characters that are neither commas nor whitespace. */
  function AddressList(s: string): (r: seq<string>)
    ensures forall i | 0 <= i < |r| :: r[i] != ""
    ensures forall i, k | 0 <= i < |r| && 0 <= k < |r[i]| :: !IsAddressSeparator(r[i][k])
    decreases |s|
  {
    if s == [] then []
    else if IsAddressSeparator(s[0]) then AddressList(s[1..])
    else
      var n := RunLength(s);
      [s[..n]] + AddressList(s[n..])
  }

  /** A separator splits the list: what lies on each side is listed separately. */
  lemma {:induction false} AddressListSplits(a: string, c: char, b: string)
    requires IsAddressSeparator(c)
    ensures AddressList(a + [c] + b) == AddressList(a) + AddressList(b)
    decreases |a|
  {
    var s := a + [c] + b;
    if a == [] {
      assert s[1..] == b;
    } else if IsAddressSeparator(a[0]) {
      assert s[1..] == a[1..] + [c] + b;
      AddressListSplits(a[1..], c, b);
    } else {
      var n := RunLength(a);
      if n < |a| {
        AddressListSplits(a[n..], c, b);
      }
      RunThenSplit(a, c, b);
    }
  }

  /** The step of `AddressListSplits` for text that starts with an address:
      the first run is listed, then the rest splits at the separator. */
  lemma RunThenSplit(a: string, c: char, b: string)
    requires a != [] && !IsAddressSeparator(a[0]) && IsAddressSeparator(c)
    requires var n := RunLength(a);
      n < |a| ==> AddressList(a[n..] + [c] + b) == AddressList(a[n..]) + AddressList(b)
    ensures AddressList(a + [c] + b) == AddressList(a) + AddressList(b)
  {
    var s := a + [c] + b;
    var n := RunLength(a);
    var head, x, y := a[..n], AddressList(a[n..]), AddressList(b);
    assert AddressList(a) == [head] + x;
    assert AddressList(s) == [head] + AddressList(s[n..]) by {
      assert s == a + ([c] + b);
      RunLengthStops(a, [c] + b);
      assert s[0] == a[0] && s[..n] == head;
    }
    assert AddressList(s[n..]) == x + y by {
      assert s[n..] == a[n..] + [c] + b;
      if n == |a| {
        assert a[n..] == [];
        assert s[n..] == [c] + b;
        assert ([c] + b)[1..] == b;
      }
    }
    AppendAssoc([head], x, y);
  }

  lemma {:induction false} RunLengthStops(a: string, rest: string)
    requires rest != [] && IsAddressSeparator(rest[0])
    ensures RunLength(a + rest) == RunLength(a)
    decreases |a|
  {
    if a == [] {
      assert a + rest == rest;
    } else if !IsAddressSeparator(a[0]) {
      RunLengthStops(a[1..], rest);
      assert (a + rest)[1..] == a[1..] + rest;
    }
  }

  /** One address with no separator in it is listed as itself. */
  lemma {:induction false} AddressListSingle(a: string)
    requires a != [] && forall k | 0 <= k < |a| :: !IsAddressSeparator(a[k])
    ensures AddressList(a) == [a]
  {
    RunLengthAll(a);
    assert a[..|a|] == a && a[|a|..] == [];
  }

  lemma {:induction false} RunLengthAll(a: string)
    requires forall k | 0 <= k < |a| :: !IsAddressSeparator(a[k])
    ensures RunLength(a) == |a|
  {
    if a != [] {
      RunLengthAll(a[1..]);
    }
  }

  /** `Address = a, b` lists `a` and `b`. */
  lemma AddressPair(a: string, b: string)
    requires a != [] && forall k | 0 <= k < |a| :: !IsAddressSeparator(a[k])
    requires b != [] && forall k | 0 <= k < |b| :: !IsAddressSeparator(b[k])
    ensures AddressList(a + ", " + b) == [a, b]
  {
    assert a + ", " + b == a + [','] + (" " + b);
    AddressListSplits(a, ',', " " + b);
    assert AddressList(" " + b) == AddressList(b) by {
      assert (" " + b)[1..] == b;
    }
    AddressListSingle(a);
    AddressListSingle(b);
  }

  // ---------------------------------------------------------------- Endpoint

  /** Length of the run of digits at the start of `s`. */
  function DigitRun(s: string): (n: nat)
    ensures n <= |s|
    ensures forall k | 0 <= k < n :: IsDigit(s[k])
    ensures n < |s| ==> !IsDigit(s[n])
  {
    if s == [] || !IsDigit(s[0]) then 0 else 1 + DigitRun(s[1..])
  }

  /** `]:` followed by a digit starts at `j`. */
  predicate CloseColonDigit(val: string, j: int) {
    1 <= j && j + 2 < |val| && val[j] == ']' && val[j + 1] == ':' && IsDigit(val[j + 2])
  }

  /** The largest `j <= hi` at which `]:` and a digit start: where the greedy
      `.*` of the regex stops. */
  function LastCloseColonDigit(val: string, hi: int): (r: Option<nat>)
    decreases hi
    ensures r.Some? ==> r.value <= hi && CloseColonDigit(val, r.value)
    ensures r.Some? ==> forall j | r.value < j <= hi :: !CloseColonDigit(val, j)
    ensures r.None? ==> forall j | j <= hi :: !CloseColonDigit(val, j)
  {
    if hi < 1 then None
    else if CloseColonDigit(val, hi) then Some(hi)
    else LastCloseColonDigit(val, hi - 1)
  }

  /** `re.match(r'\[(.*)\]:(\d+)', val)`: the bracketed host and the port. */
  function BracketMatch(val: string): (r: Option<(string, nat)>)
  {
    if val == [] || val[0] != '[' then None
    else match LastCloseColonDigit(val, |val|)
      case None => None
      case Some(j) =>
        var digits := val[j + 2..][..DigitRun(val[j + 2..])];
        Some((val[1..j], DigitsValue(digits)))
  }

  /** `val.rsplit(']', 1)[-1]`: the text after the last `]`, or all of it. */
  function AfterLastBracket(val: string): string {
    RPartition(val, ']').2
  }

  /** What an `Endpoint` line does to the configuration. */
  function EndpointUpdate(c: WgConf, val: string): (r: WgConf)
    ensures r.privateKey == c.privateKey && r.peerPublicKey == c.peerPublicKey
    ensures r.localAddress == c.localAddress
  {
    match BracketMatch(val)
    case Some((host, port)) => c.(server := host, serverPort := Some(port))
    case None =>
      if ':' in AfterLastBracket(val) then
        var (host, _, port) := RPartition(val, ':');
        c.(server := Strip(host), serverPort := ParseInt(Strip(port)))
      else c.(server := val)
  }

  // ---------------------------------------------------------------- lines

  /** `L.split("=", 1)` with both halves stripped; `None` for a line without `=`. */
  function KeyValue(line: string): (r: Option<(string, string)>)
    ensures r.None? <==> '=' !in line
    ensures r.Some? ==> exists a, b | line == a + "=" + b && '=' !in a :: r.value == (Strip(a), Strip(b))
  {
    var (key, hasEquals, val) := Partition(line, '=');
    if hasEquals then
      assert line == key + "=" + val;
      Some((Strip(key), Strip(val)))
    else None
  }

  /** What one line does to the configuration. */
  function ApplyLine(c: WgConf, line: string): WgConf {
    match KeyValue(line)
    case None => c
    case Some((key, val)) => ApplyPair(c, key, val)
  }

  /** What one `key = val` pair does: each key sets only its own fields, an
      unrecognised key nothing. */
  function ApplyPair(c: WgConf, key: string, val: string): (r: WgConf)
    ensures key != "PrivateKey" ==> r.privateKey == c.privateKey
    ensures key != "PublicKey" ==> r.peerPublicKey == c.peerPublicKey
    ensures key != "Address" ==> r.localAddress == c.localAddress
    ensures key != "Endpoint" ==> r.server == c.server && r.serverPort == c.serverPort
    ensures key == "PrivateKey" ==> r.privateKey == val
    ensures key == "Address" ==> r.localAddress == AddressList(val)
    ensures key == "PublicKey" ==> r.peerPublicKey == val
    ensures key == "Endpoint" ==> r == EndpointUpdate(c, val)
  {
    if key == "PrivateKey" then c.(privateKey := val)
    else if key == "Address" then c.(localAddress := AddressList(val))
    else if key == "PublicKey" then c.(peerPublicKey := val)
    else if key == "Endpoint" then EndpointUpdate(c, val)
    else c
  }

  /** The lines applied in order. */
  function ApplyAll(c: WgConf, lines: seq<string>): (r: WgConf)
    ensures (forall i | 0 <= i < |c.localAddress| :: c.localAddress[i] != "") ==>
      forall i | 0 <= i < |r.localAddress| :: r.localAddress[i] != ""
    ensures (forall i | 0 <= i < |lines| :: '=' !in lines[i]) ==> r == c
    decreases |lines|
  {
    if lines == [] then c else ApplyLine(ApplyAll(c, lines[..|lines| - 1]), lines[|lines| - 1])
  }

  /** `parse_wireguard_conf(text)`. */
  method ParseWireguardConf(text: string) returns (out: WgConf)
    ensures out == ApplyAll(Blank, SplitLines(text))
  {
    out := Blank;
    var lines := SplitLines(text);
    for i := 0 to |lines|
      invariant out == ApplyAll(Blank, lines[..i])
    {
      assert lines[..i + 1][..i] == lines[..i];
      out := ReadLine(out, lines[i]);
    }
    assert lines[..|lines|] == lines;
  }

  /** The body of the loop of `parse_wireguard_conf` for one line. */
  method ReadLine(c: WgConf, line: string) returns (out: WgConf)
    ensures out == ApplyLine(c, line)
  {
    out := c;
    if '=' !in line {
      return;
    }
    var (k, _, v) := Partition(line, '=');
    var key, val := Strip(k), Strip(v);
    LineApplies(c, line);
    if key == "PrivateKey" {
      out := out.(privateKey := val);
    }
    if key == "Address" {
      out := out.(localAddress := AddressList(val));
    }
    if key == "PublicKey" {
      out := out.(peerPublicKey := val);
    }
    if key == "Endpoint" {
      var bracketed := BracketMatch(val);
      if bracketed.Some? {
        out := out.(server := bracketed.value.0, serverPort := Some(bracketed.value.1));
      } else if ':' in AfterLastBracket(val) {
        var (host, _, port) := RPartition(val, ':');
        out := out.(server := Strip(host), serverPort := ParseInt(Strip(port)));
      } else {
        out := out.(server := val);
      }
    }
  }

  /** A line with an `=` applies the pair around its first `=`. */
  lemma LineApplies(c: WgConf, line: string)
    requires '=' in line
    ensures var (k, _, v) := Partition(line, '=');
      ApplyLine(c, line) == ApplyPair(c, Strip(k), Strip(v))
  {
  }

  // ---------------------------------------------------------------- properties

  /** The key of a line that has one. */
  function KeyOf(line: string): Option<string> {
    match KeyValue(line)
    case None => None
    case Some((key, _)) => Some(key)
  }

  /** Reference definition: the value of the last line carrying `key`. */
  function LastValue(lines: seq<string>, key: string): Option<string>
    decreases |lines|
  {
    if lines == [] then None
    else match KeyValue(lines[|lines| - 1])
      case Some((k, v)) =>
        if k == key then Some(v) else LastValue(lines[..|lines| - 1], key)
      case None => LastValue(lines[..|lines| - 1], key)
  }

  /** Repeated `PrivateKey`, `PublicKey` and `Address` lines: the last one
      wins; with none, the field keeps its initial value. With no `Endpoint`
      line, server and port keep theirs. */
  lemma {:induction false} KeysLastWriteWins(c: WgConf, lines: seq<string>)
    ensures ApplyAll(c, lines).privateKey == LastValue(lines, "PrivateKey").GetOr(c.privateKey)
    ensures ApplyAll(c, lines).peerPublicKey == LastValue(lines, "PublicKey").GetOr(c.peerPublicKey)
    ensures ApplyAll(c, lines).localAddress ==
      match LastValue(lines, "Address")
      case None => c.localAddress
      case Some(v) => AddressList(v)
    ensures LastValue(lines, "Endpoint").None? ==>
      ApplyAll(c, lines).server == c.server && ApplyAll(c, lines).serverPort == c.serverPort
    decreases |lines|
  {
    if lines != [] {
      KeysLastWriteWins(c, lines[..|lines| - 1]);
    }
  }

  /** The lines that hold an `=`. */
  function WithEquals(lines: seq<string>): (r: seq<string>)
    ensures forall i | 0 <= i < |r| :: '=' in r[i]
    decreases |lines|
  {
    if lines == [] then []
    else
      var last := lines[|lines| - 1];
      WithEquals(lines[..|lines| - 1]) + (if '=' in last then [last] else [])
  }

  lemma {:induction false} ApplyAllAppend(c: WgConf, a: seq<string>, b: seq<string>)
    ensures ApplyAll(c, a + b) == ApplyAll(ApplyAll(c, a), b)
    decreases |b|
  {
    if b == [] {
      assert a + b == a;
    } else {
      ApplyAllAppend(c, a, b[..|b| - 1]);
      assert (a + b)[..|a + b| - 1] == a + b[..|b| - 1];
    }
  }

  lemma WithEqualsSkips(lines: seq<string>)
    requires lines != [] && '=' !in lines[|lines| - 1]
    ensures WithEquals(lines) == WithEquals(lines[..|lines| - 1])
  {
    assert WithEquals(lines) == WithEquals(lines[..|lines| - 1]) + [];
  }

  lemma LineWithoutEqualsIgnored(c: WgConf, line: string)
    requires '=' !in line
    ensures ApplyLine(c, line) == c
  {
    assert KeyValue(line).None?;
  }

  /** Lines without `=` are skipped: dropping them changes nothing. */
  lemma {:induction false} LinesWithoutEqualsSkipped(c: WgConf, lines: seq<string>)
    ensures ApplyAll(c, WithEquals(lines)) == ApplyAll(c, lines)
    decreases |lines|
  {
    if lines != [] {
      var init, last := lines[..|lines| - 1], lines[|lines| - 1];
      LinesWithoutEqualsSkipped(c, init);
      if '=' in last {
        calc {
          ApplyAll(c, WithEquals(lines));
          ApplyAll(c, WithEquals(init) + [last]);
          { ApplyAllAppend(c, WithEquals(init), [last]); }
          ApplyAll(ApplyAll(c, WithEquals(init)), [last]);
          { assert [last][..0] == []; }
          ApplyLine(ApplyAll(c, init), last);
        }
      } else {
        calc {
          ApplyAll(c, WithEquals(lines));
          { WithEqualsSkips(lines); }
          ApplyAll(c, WithEquals(init));
          ApplyAll(c, init);
          { LineWithoutEqualsIgnored(ApplyAll(c, init), last); }
          ApplyLine(ApplyAll(c, init), last);
        }
      }
    }
  }

  /** `Endpoint = [addr]:port` gives server `addr` without brackets and the
      integer port, whatever `addr` holds. */
  lemma BracketedEndpoint(c: WgConf, addr: string, port: string)
    requires IsDigits(port)
    ensures EndpointUpdate(c, "[" + addr + "]:" + port)
            == c.(server := addr, serverPort := Some(DigitsValue(port)))
  {
    var val := "[" + addr + "]:" + port;
    var j := |addr| + 1;
    assert val[j] == ']' && val[j + 1] == ':' && val[j + 2] == port[0];
    assert CloseColonDigit(val, j);
    assert forall i | j < i <= |val| :: !CloseColonDigit(val, i) by {
      forall i | j < i <= |val| ensures !CloseColonDigit(val, i) {
        if j + 2 <= i < |val| {
          assert val[i] == port[i - j - 2];
        }
      }
    }
    assert LastCloseColonDigit(val, |val|) == Some(j);
    assert val[j + 2..] == port;
    DigitRunAll(port);
    assert port[..|port|] == port;
    assert val[1..j] == addr;
  }

  lemma {:induction false} DigitRunAll(s: string)
    requires forall k | 0 <= k < |s| :: IsDigit(s[k])
    ensures DigitRun(s) == |s|
  {
    if s != [] {
      DigitRunAll(s[1..]);
    }
  }

  /** `Endpoint = host:port` (not bracketed) splits on the last colon: the
      server is the stripped host and the port whatever `int()` makes of it,
      `None` (the source's `""`) when it is not a number. */
  lemma HostPortEndpoint(c: WgConf, host: string, port: string)
    requires host == [] || host[0] != '['
    requires ':' !in port && ']' !in port
    ensures EndpointUpdate(c, host + ":" + port)
            == c.(server := Strip(host), serverPort := ParseInt(Strip(port)))
  {
    var val := host + ":" + port;
    assert val[0] != '[';
    assert BracketMatch(val).None?;
    assert ':' in AfterLastBracket(val) by {
      var (before, found, after) := RPartition(val, ']');
      if found {
        assert val == before + [']'] + after;
        assert val[|before|] == ']';
        assert |before| < |host|;
        assert after[|host| - |before| - 1] == val[|host|];
      }
    }
    assert val == host + [':'] + port;
    RPartitionLast(host, ':', port);
  }

  /** An endpoint with no colon sets only the server; the port is kept. */
  lemma NoColonEndpoint(c: WgConf, val: string)
    requires ':' !in val
    ensures EndpointUpdate(c, val) == c.(server := val)
  {
    assert BracketMatch(val).None?;
    assert ':' !in AfterLastBracket(val);
  }
}
