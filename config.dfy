/** The sing-box document `generate_config` assembles: the fixed log, DNS,
    inbound, route and clash-api sections around the outbounds of the
    selected descriptors, and a selector over them when there is any. */
module Generate {
  import opened Wrappers
  import opened Text
  import opened Values
  import opened Library
  import opened Outbounds

  datatype DnsServer = DnsServer(tag: string, address: string, detour: string)
  datatype Inbound = Inbound(kind: string, tag: string, listen: string, listenPort: int, sniff: bool)
  datatype RouteRule = RouteRule(protocol: string, outbound: string)

  /** The generated document, before `json.dumps`. */
  datatype Config = Config(
    logLevel: string,
    dnsServers: seq<DnsServer>,
    dnsStrategy: string,
    inbounds: seq<Inbound>,
    outbounds: seq<Outbound>,
    rules: seq<RouteRule>,
    final: string,
    clashController: string)

  const SelectorTag: string := "PROXY-SELECTOR"

  /** `[p for p in added_proxies if p.selected]`. */
  function Selected(recs: seq<ProxyRecord>): (r: seq<ProxyRecord>)
    ensures |r| <= |recs|
    ensures forall i | 0 <= i < |r| :: r[i].selected && r[i] in recs
  {
    if recs == [] then []
    else
      var last := recs[|recs| - 1];
      var init := Selected(recs[..|recs| - 1]);
      if last.selected then init + [last] else init
  }

  /** `_outbound_from_added` applied to each descriptor in turn. */
  function Synthesize(codec: Codec, recs: seq<ProxyRecord>): (r: seq<Synth>)
    ensures |r| == |recs|
    ensures forall i | 0 <= i < |recs| :: r[i] == OutboundFromAdded(codec, recs[i])
  {
    seq(|recs|, i requires 0 <= i < |recs| => OutboundFromAdded(codec, recs[i]))
  }

  /** The loop over the selected descriptors' results: the outbounds it
      appends in order, or `None` when one of them raised (the exception
      leaves `generate_config` before anything is stored). */
  function Collect(syn: seq<Synth>): (r: Option<seq<Outbound>>)
    ensures r.Some? ==> |r.value| <= |syn|
    ensures r.Some? ==> forall i | 0 <= i < |syn| :: !syn[i].Raised?
    ensures r.Some? && syn != [] && syn[|syn| - 1].Built? ==> r.value != [] && r.value[|r.value| - 1] == syn[|syn| - 1].ob
  {
    if syn == [] then Some([])
    else
      match Collect(syn[..|syn| - 1])
      case None => None
      case Some(obs) =>
        match syn[|syn| - 1]
        case Raised => None
        case Skipped => Some(obs)
        case Built(ob) => Some(obs + [ob])
  }

  /** `proxy_tags`: the tag of every appended outbound, in order. */
  function Tags(obs: seq<Outbound>): (r: seq<string>)
    ensures |r| == |obs|
    ensures forall i | 0 <= i < |obs| :: r[i] == obs[i].Tag()
  {
    seq(|obs|, i requires 0 <= i < |obs| => obs[i].Tag())
  }

  /** One more outbound adds its tag at the end. */
  lemma TagsAppend(obs: seq<Outbound>, ob: Outbound)
    ensures Tags(obs + [ob]) == Tags(obs) + [ob.Tag()]
  {
  }

  /** The document for the collected outbounds and the DNS-protection switch.
      The outbounds list is `direct`, `dns-out`, the collected outbounds in
      order, then one selector exactly when there is any proxy; the selector
      lists every proxy tag and `direct`, and defaults to the first proxy. */
  function BuildConfig(obs: seq<Outbound>, dnsProtection: bool): (r: Config)
    ensures |r.outbounds| == if obs == [] then 2 else 3 + |obs|
    ensures r.outbounds[..2] == [Direct, DnsOut] && r.outbounds[2..2 + |obs|] == obs
    ensures r.final == if obs == [] then "direct" else SelectorTag
    ensures obs != [] ==> r.outbounds[2 + |obs|] == Selector(SelectorTag, Tags(obs) + ["direct"], obs[0].Tag())
  {
    var tags := Tags(obs);
    var final := if tags != [] then SelectorTag else "direct";
    var selector := if tags != [] then [Selector(SelectorTag, tags + ["direct"], tags[0])] else [];
    Config(
      logLevel := "error",
      dnsServers := [DnsServer("cloudflare", "https://1.1.1.1/dns-query", if dnsProtection then final else "dns-out")],
      dnsStrategy := "prefer_ipv4",
      inbounds := [Inbound("tproxy", "tproxy-in", "::", 9898, true)],
      outbounds := [Direct, DnsOut] + obs + selector,
      rules := [RouteRule("dns", "dns-out")],
      final := final,
      clashController := "0.0.0.0:9090")
  }

  /** `generate_config` as a whole: `None` when it raises, which happens
      exactly when some selected descriptor's outbound raises; otherwise the
      document built from the outbounds of the selected descriptors that
      build, in order. */
  function ConfigFor(codec: Codec, recs: seq<ProxyRecord>, dnsProtection: bool): (r: Option<Config>)
    ensures r.None? <==>
      exists i | 0 <= i < |recs| :: recs[i].selected && OutboundFromAdded(codec, recs[i]).Raised?
    ensures r.Some? ==> r.value == BuildConfig(BuiltOf(Synthesize(codec, Selected(recs))), dnsProtection)
  {
    var syn := Synthesize(codec, Selected(recs));
    SelectedRaise(codec, recs);
    match Collect(syn)
    case None => None
    case Some(obs) =>
      CollectKeepsBuilt(syn);
      Some(BuildConfig(obs, dnsProtection))
  }

  /** The loop over the selected descriptors raises exactly when one of them
      raises. */
  lemma SelectedRaise(codec: Codec, recs: seq<ProxyRecord>)
    ensures Collect(Synthesize(codec, Selected(recs))).None? <==>
      exists i | 0 <= i < |recs| :: recs[i].selected && OutboundFromAdded(codec, recs[i]).Raised?
  {
    var selected := Selected(recs);
    var syn := Synthesize(codec, selected);
    CollectRaises(syn);
    if exists i | 0 <= i < |recs| :: recs[i].selected && OutboundFromAdded(codec, recs[i]).Raised? {
      var i :| 0 <= i < |recs| && recs[i].selected && OutboundFromAdded(codec, recs[i]).Raised?;
      SelectedKeeps(recs, i);
      var j :| 0 <= j < |selected| && selected[j] == recs[i];
      assert syn[j].Raised?;
    }
    if Collect(syn).None? {
      var j :| 0 <= j < |syn| && syn[j].Raised?;
      var i :| 0 <= i < |recs| && recs[i] == selected[j];
    }
  }

  /** The document stored for the outbounds the loop collected. */
  lemma ConfigFromCollected(codec: Codec, recs: seq<ProxyRecord>, obs: seq<Outbound>, dnsProtection: bool)
    requires Collect(Synthesize(codec, Selected(recs))) == Some(obs)
    ensures ConfigFor(codec, recs, dnsProtection) == Some(BuildConfig(obs, dnsProtection))
  {
  }

  // ---------------------------------------------------------------- the loop

  /** Collecting a longer list continues from the shorter one. */
  lemma {:induction false} CollectAppend(a: seq<Synth>, b: seq<Synth>)
    ensures Collect(a + b) ==
      match Collect(a)
      case None => None
      case Some(x) => match Collect(b) case None => None case Some(y) => Some(x + y)
    decreases |b|
  {
    if b == [] {
      assert a + b == a;
      if Collect(a).Some? {
        assert Collect(a).value + [] == Collect(a).value;
      }
    } else {
      var b' := b[..|b| - 1];
      assert (a + b)[..|a + b| - 1] == a + b';
      assert (a + b)[|a + b| - 1] == b[|b| - 1];
      CollectAppend(a, b');
      if Collect(a).Some? && Collect(b').Some? && b[|b| - 1].Built? {
        var x, y, ob := Collect(a).value, Collect(b').value, b[|b| - 1].ob;
        assert x + y + [ob] == x + (y + [ob]);
      }
    }
  }

  /** One more step of the loop. */
  lemma CollectStep(syn: seq<Synth>, i: nat)
    requires i < |syn| && Collect(syn[..i]).Some?
    ensures Collect(syn[..i + 1]) ==
      match syn[i]
      case Raised => None
      case Skipped => Collect(syn[..i])
      case Built(ob) => Some(Collect(syn[..i]).value + [ob])
  {
    assert syn[..i + 1][..i] == syn[..i];
  }

  /** `generate_config` raises exactly when one selected descriptor raises. */
  lemma {:induction false} CollectRaises(syn: seq<Synth>)
    ensures Collect(syn).None? <==> exists i | 0 <= i < |syn| :: syn[i].Raised?
  {
    if syn != [] {
      var init := syn[..|syn| - 1];
      CollectRaises(init);
      if exists i | 0 <= i < |init| :: init[i].Raised? {
        var i :| 0 <= i < |init| && init[i].Raised?;
        assert syn[i] == init[i];
      }
      if exists i | 0 <= i < |syn| :: syn[i].Raised? {
        var i :| 0 <= i < |syn| && syn[i].Raised?;
        if i < |init| {
          assert init[i] == syn[i];
        }
      }
    }
  }

  /** Every built outbound is kept, in order, and nothing else is: the
      collected outbounds are exactly the `Built` results. */
  function BuiltOf(syn: seq<Synth>): (r: seq<Outbound>)
  {
    if syn == [] then []
    else BuiltOf(syn[..|syn| - 1]) + (if syn[|syn| - 1].Built? then [syn[|syn| - 1].ob] else [])
  }

  lemma {:induction false} CollectKeepsBuilt(syn: seq<Synth>)
    requires forall i | 0 <= i < |syn| :: !syn[i].Raised?
    ensures Collect(syn) == Some(BuiltOf(syn))
  {
    if syn != [] {
      var init := syn[..|syn| - 1];
      CollectKeepsBuilt(init);
      assert !syn[|syn| - 1].Raised?;
      if !syn[|syn| - 1].Built? {
        assert BuiltOf(init) + [] == BuiltOf(init);
      }
    }
  }

  /** Each collected outbound comes from one of the results, and each result
      that built one has it collected. */
  lemma {:induction false} CollectOrigins(syn: seq<Synth>)
    requires Collect(syn).Some?
    ensures forall ob | ob in Collect(syn).value :: Built(ob) in syn
    ensures forall i | 0 <= i < |syn| && syn[i].Built? :: syn[i].ob in Collect(syn).value
  {
    if syn != [] {
      var init := syn[..|syn| - 1];
      CollectOrigins(init);
      var x := Collect(init).value;
      var obs := Collect(syn).value;
      forall ob | ob in obs
        ensures Built(ob) in syn
      {
        if ob in x {
          assert Built(ob) in init;
        } else {
          assert syn[|syn| - 1] == Built(ob);
        }
      }
      forall i | 0 <= i < |syn| && syn[i].Built?
        ensures syn[i].ob in obs
      {
        if i < |init| {
          assert syn[i] == init[i];
        }
      }
    }
  }

  // ---------------------------------------------------------------- the document

  /** The fixed sections: log level, the DNS-over-HTTPS server, the tproxy
      inbound and the DNS route rule. */
  lemma FixedSections(obs: seq<Outbound>, dnsProtection: bool)
    ensures var c := BuildConfig(obs, dnsProtection);
      && c.logLevel == "error" && c.dnsStrategy == "prefer_ipv4"
      && |c.dnsServers| == 1 && c.dnsServers[0].tag == "cloudflare"
      && c.dnsServers[0].address == "https://1.1.1.1/dns-query"
      && c.inbounds == [Inbound("tproxy", "tproxy-in", "::", 9898, true)]
      && c.rules == [RouteRule("dns", "dns-out")]
      && c.clashController == "0.0.0.0:9090"
  {
  }

  /** Traffic goes to the selector when there is a proxy and leaves directly
      otherwise; DNS queries follow that route only under DNS protection,
      and go out through `dns-out` without it. */
  lemma RoutingTargets(obs: seq<Outbound>, dnsProtection: bool)
    ensures var c := BuildConfig(obs, dnsProtection);
      && (c.final == SelectorTag <==> obs != [])
      && (c.final == "direct" <==> obs == [])
      && c.dnsServers[0].detour == (if dnsProtection then c.final else "dns-out")
  {
  }

  /** Some outbound of the document carries tag `t`. */
  predicate Names(c: Config, t: string) {
    exists k | 0 <= k < |c.outbounds| :: c.outbounds[k].Tag() == t
  }

  /** Every tag the document refers to (the route's final outbound, the DNS
      rule's and the DNS server's detour, the selector's members and
      default) is the tag of one of its outbounds. */
  predicate References(c: Config) {
    && Names(c, c.final)
    && (forall s | s in c.dnsServers :: Names(c, s.detour))
    && (forall r | r in c.rules :: Names(c, r.outbound))
    && (forall j | 0 <= j < |c.outbounds| && c.outbounds[j].Selector? ::
          (forall t | t in c.outbounds[j].outbounds :: Names(c, t)) && Names(c, c.outbounds[j].default))
  }

  /** The fixed outbounds and every collected one are named. */
  lemma CollectedNamed(obs: seq<Outbound>, dnsProtection: bool)
    ensures var c := BuildConfig(obs, dnsProtection);
      && Names(c, "direct") && Names(c, "dns-out")
      && forall t | t in Tags(obs) :: Names(c, t)
  {
    var c := BuildConfig(obs, dnsProtection);
    assert c.outbounds[0].Tag() == "direct";
    assert c.outbounds[1].Tag() == "dns-out";
    forall t | t in Tags(obs)
      ensures Names(c, t)
    {
      var i :| 0 <= i < |obs| && Tags(obs)[i] == t;
      assert c.outbounds[2 + i] == obs[i];
    }
  }

  /** With a proxy, the selector is the last outbound and the only one. */
  lemma SelectorLast(obs: seq<Outbound>, dnsProtection: bool)
    requires forall i | 0 <= i < |obs| :: !obs[i].Selector?
    requires obs != []
    ensures var c := BuildConfig(obs, dnsProtection);
      var last := |c.outbounds| - 1;
      && last == 2 + |obs|
      && c.outbounds[last] == Selector(SelectorTag, Tags(obs) + ["direct"], Tags(obs)[0])
      && c.final == SelectorTag
      && forall j | 0 <= j < last :: !c.outbounds[j].Selector?
  {
    var c := BuildConfig(obs, dnsProtection);
    forall j | 0 <= j < 2 + |obs|
      ensures !c.outbounds[j].Selector?
    {
      if j >= 2 {
        assert c.outbounds[j] == obs[j - 2];
      }
    }
  }

  /** Every tag the document refers to names one of its outbounds, when no
      collected outbound is itself a selector. */
  lemma ReferencesResolve(obs: seq<Outbound>, dnsProtection: bool)
    requires forall i | 0 <= i < |obs| :: !obs[i].Selector?
    ensures References(BuildConfig(obs, dnsProtection))
  {
    var c := BuildConfig(obs, dnsProtection);
    CollectedNamed(obs, dnsProtection);
    if obs != [] {
      SelectorLast(obs, dnsProtection);
      var last := |c.outbounds| - 1;
      assert Names(c, SelectorTag) by {
        assert c.outbounds[last].Tag() == SelectorTag;
      }
      assert Tags(obs)[0] in Tags(obs);
    } else {
      assert c.outbounds == [Direct, DnsOut];
    }
  }

  /** Every selected descriptor is kept by the selection. */
  lemma {:induction false} SelectedKeeps(recs: seq<ProxyRecord>, i: nat)
    requires i < |recs| && recs[i].selected
    ensures recs[i] in Selected(recs)
  {
    var init := recs[..|recs| - 1];
    if i < |init| {
      SelectedKeeps(init, i);
      assert init[i] == recs[i];
    }
  }

  /** One selected descriptor whose outbound raises makes the whole
      generation raise. */
  lemma RaisedBlocksConfig(codec: Codec, recs: seq<ProxyRecord>, i: nat, dnsProtection: bool)
    requires i < |recs| && recs[i].selected
    requires OutboundFromAdded(codec, recs[i]) == Raised
    ensures ConfigFor(codec, recs, dnsProtection).None?
  {
    var selected := Selected(recs);
    SelectedKeeps(recs, i);
    var j :| 0 <= j < |selected| && selected[j] == recs[i];
    var syn := Synthesize(codec, selected);
    assert syn[j].Raised?;
    CollectRaises(syn);
  }

  /** Nothing selected (or nothing that builds) gives the direct-only
      document. */
  lemma DirectOnly(codec: Codec, recs: seq<ProxyRecord>, dnsProtection: bool)
    requires forall i | 0 <= i < |recs| :: !recs[i].selected
    ensures ConfigFor(codec, recs, dnsProtection) ==
      Some(BuildConfig([], dnsProtection))
    ensures BuildConfig([], dnsProtection).outbounds == [Direct, DnsOut]
    ensures BuildConfig([], dnsProtection).final == "direct"
  {
    NoneSelected(recs);
  }

  lemma {:induction false} NoneSelected(recs: seq<ProxyRecord>)
    requires forall i | 0 <= i < |recs| :: !recs[i].selected
    ensures Selected(recs) == []
  {
    if recs != [] {
      NoneSelected(recs[..|recs| - 1]);
    }
  }

  lemma CollectPair(a: Outbound, b: Outbound)
    ensures Collect([Built(a), Built(b)]) == Some([a, b])
  {
    assert [Built(a), Built(b)][..1] == [Built(a)];
    assert [Built(a)][..0] == [];
    assert Collect([Built(a)]) == Some([] + [a]);
    assert [] + [a] + [b] == [a, b];
  }

  lemma SelectedPair(p: ProxyRecord, q: ProxyRecord)
    requires p.selected && q.selected
    ensures Selected([p, q]) == [p, q]
  {
    assert [p, q][..1] == [p];
    assert [p][..0] == [];
  }

  lemma SynthesizePair(codec: Codec, p: ProxyRecord, q: ProxyRecord, a: Outbound, b: Outbound)
    requires OutboundFromAdded(codec, p) == Built(a) && OutboundFromAdded(codec, q) == Built(b)
    ensures Synthesize(codec, [p, q]) == [Built(a), Built(b)]
  {
    var syn := Synthesize(codec, [p, q]);
    assert syn[0] == Built(a) && syn[1] == Built(b);
  }

  /** Two selected descriptors that both build: the document holds both
      outbounds in order. */
  lemma GeneratePair(codec: Codec, p: ProxyRecord, q: ProxyRecord, a: Outbound, b: Outbound, dnsProtection: bool)
    requires p.selected && q.selected
    requires OutboundFromAdded(codec, p) == Built(a) && OutboundFromAdded(codec, q) == Built(b)
    ensures ConfigFor(codec, [p, q], dnsProtection) == Some(BuildConfig([a, b], dnsProtection))
  {
    SelectedPair(p, q);
    SynthesizePair(codec, p, q, a, b);
    CollectPair(a, b);
    ConfigFromCollected(codec, [p, q], [a, b], dnsProtection);
  }

  /** Two pasted links of the same kind both get that kind's fixed tag, so the
      selector lists the same tag twice. */
  lemma DuplicateLinkTags(codec: Codec, p: ProxyRecord, q: ProxyRecord, dnsProtection: bool)
    requires p.selected && q.selected
    requires p.ptype == q.ptype && p.data == Dict(map[]) && q.data == Dict(map[])
    requires OutboundFromAdded(codec, p).Built? && OutboundFromAdded(codec, q).Built?
    ensures ConfigFor(codec, [p, q], dnsProtection).Some?
    ensures var c := ConfigFor(codec, [p, q], dnsProtection).value;
      && |c.outbounds| == 5
      && c.outbounds[2].Tag() == c.outbounds[3].Tag() == TagPrefix(p.ptype) + "-proxy"
      && c.outbounds[4].outbounds == [c.outbounds[2].Tag(), c.outbounds[2].Tag(), "direct"]
  {
    var a := OutboundFromAdded(codec, p).ob;
    var b := OutboundFromAdded(codec, q).ob;
    GeneratePair(codec, p, q, a, b, dnsProtection);
    assert a.Tag() == TagPrefix(p.ptype) + "-proxy" by { LinkTagIsFixed(codec, p); }
    assert b.Tag() == TagPrefix(p.ptype) + "-proxy" by { LinkTagIsFixed(codec, q); }
    SameTagSelector(a, b, dnsProtection);
  }

  /** Two outbounds with one tag: the selector names that tag twice. */
  lemma SameTagSelector(a: Outbound, b: Outbound, dnsProtection: bool)
    requires a.Tag() == b.Tag()
    ensures var c := BuildConfig([a, b], dnsProtection);
      && |c.outbounds| == 5
      && c.outbounds[2].Tag() == c.outbounds[3].Tag() == a.Tag()
      && c.outbounds[4].outbounds == [a.Tag(), a.Tag(), "direct"]
  {
    assert Tags([a, b]) == [a.Tag(), b.Tag()];
  }

  // ---------------------------------------------------------------- selection

  /** Selecting from two lists one after the other selects from each, in
      order. */
  lemma {:induction false} SelectedAppend(a: seq<ProxyRecord>, b: seq<ProxyRecord>)
    ensures Selected(a + b) == Selected(a) + Selected(b)
    decreases |b|
  {
    if b == [] {
      assert a + b == a;
    } else {
      var b' := b[..|b| - 1];
      assert (a + b)[..|a + b| - 1] == a + b';
      assert (a + b)[|a + b| - 1] == b[|b| - 1];
      SelectedAppend(a, b');
    }
  }

  /** One descriptor is selected exactly when its flag is set. */
  lemma SelectedOne(p: ProxyRecord)
    ensures Selected([p]) == if p.selected then [p] else []
  {
    assert [p][..0] == [];
  }

  /** The outbound of the first selected descriptor that builds one, looking
      from the front; `None` when there is none. */
  function FirstBuilt(codec: Codec, recs: seq<ProxyRecord>): (r: Option<Outbound>)
    ensures r.Some? ==> exists i | 0 <= i < |recs| :: recs[i].selected && OutboundFromAdded(codec, recs[i]) == Built(r.value)
    ensures r.None? ==> forall i | 0 <= i < |recs| && recs[i].selected :: !OutboundFromAdded(codec, recs[i]).Built?
  {
    if recs == [] then None
    else if recs[0].selected && OutboundFromAdded(codec, recs[0]).Built? then Some(OutboundFromAdded(codec, recs[0]).ob)
    else
      var r := FirstBuilt(codec, recs[1..]);
      assert forall i | 1 <= i < |recs| :: recs[i] == recs[1..][i - 1];
      r
  }

  /** `_outbound_from_added` over two lists one after the other. */
  lemma SynthesizeAppend(codec: Codec, a: seq<ProxyRecord>, b: seq<ProxyRecord>)
    ensures Synthesize(codec, a + b) == Synthesize(codec, a) + Synthesize(codec, b)
  {
    var l, r := Synthesize(codec, a + b), Synthesize(codec, a) + Synthesize(codec, b);
    forall i | 0 <= i < |l| ensures l[i] == r[i] {
      if i >= |a| {
        assert (a + b)[i] == b[i - |a|];
      }
    }
  }

  /** The loop over one result followed by the rest. */
  lemma CollectCons(h: Synth, rest: seq<Synth>)
    ensures Collect([h] + rest) ==
      if h.Raised? then None
      else match Collect(rest)
           case None => None
           case Some(y) => Some((if h.Built? then [h.ob] else []) + y)
  {
    CollectAppend([h], rest);
    assert [h][..0] == [];
    if h.Built? {
      assert [] + [h.ob] == [h.ob];
      assert Collect([h]) == Some([h.ob]);
    }
  }

  /** The results for the selected descriptors: the head's, when it is
      selected, then the rest's. */
  lemma SynthesizeSelectedHead(codec: Codec, recs: seq<ProxyRecord>)
    requires recs != []
    ensures Synthesize(codec, Selected(recs)) ==
      (if recs[0].selected then [OutboundFromAdded(codec, recs[0])] else []) + Synthesize(codec, Selected(recs[1..]))
  {
    var p := recs[0];
    assert recs == [p] + recs[1..];
    SelectedAppend([p], recs[1..]);
    SelectedOne(p);
    SynthesizeAppend(codec, Selected([p]), Selected(recs[1..]));
    assert Synthesize(codec, [p]) == [OutboundFromAdded(codec, p)];
    assert Synthesize(codec, []) == [];
  }

  /** The loop's first outbound is the first selected descriptor's that
      builds one, and it collects none exactly when no selected descriptor
      builds one. */
  lemma {:induction false} CollectFirst(codec: Codec, recs: seq<ProxyRecord>)
    requires Collect(Synthesize(codec, Selected(recs))).Some?
    ensures var obs := Collect(Synthesize(codec, Selected(recs))).value;
      && (obs == [] <==> FirstBuilt(codec, recs).None?)
      && (obs != [] ==> obs[0] == FirstBuilt(codec, recs).value)
    decreases |recs|
  {
    if recs != [] {
      var h := OutboundFromAdded(codec, recs[0]);
      var rest := Synthesize(codec, Selected(recs[1..]));
      SynthesizeSelectedHead(codec, recs);
      if recs[0].selected {
        CollectCons(h, rest);
      } else {
        assert [] + rest == rest;
      }
      CollectFirst(codec, recs[1..]);
    }
  }

  /** The generated document routes through the selector exactly when some
      selected descriptor builds an outbound, and the selector then defaults
      to the first such outbound's tag; otherwise traffic leaves directly. */
  lemma SelectorDefault(codec: Codec, recs: seq<ProxyRecord>, dnsProtection: bool)
    requires ConfigFor(codec, recs, dnsProtection).Some?
    ensures var c := ConfigFor(codec, recs, dnsProtection).value;
      && (c.final == "direct" <==> FirstBuilt(codec, recs).None?)
      && (FirstBuilt(codec, recs).Some? ==>
            && c.final == SelectorTag
            && c.outbounds[|c.outbounds| - 1].Selector?
            && c.outbounds[|c.outbounds| - 1].default == FirstBuilt(codec, recs).value.Tag())
  {
    CollectFirst(codec, recs);
  }

  /** Every tag a generated document refers to names one of its outbounds. */
  lemma GeneratedReferencesResolve(codec: Codec, recs: seq<ProxyRecord>, dnsProtection: bool)
    requires ConfigFor(codec, recs, dnsProtection).Some?
    ensures References(ConfigFor(codec, recs, dnsProtection).value)
  {
    var syn := Synthesize(codec, Selected(recs));
    var obs := Collect(syn).value;
    CollectOrigins(syn);
    NoSynthesizedSelector(codec, Selected(recs));
    forall i | 0 <= i < |obs| ensures !obs[i].Selector? {
      assert Built(obs[i]) in syn;
    }
    ReferencesResolve(obs, dnsProtection);
  }

  /** No descriptor turns into a selector. */
  lemma NoSynthesizedSelector(codec: Codec, recs: seq<ProxyRecord>)
    ensures forall ob | Built(ob) in Synthesize(codec, recs) :: !ob.Selector?
  {
    var syn := Synthesize(codec, recs);
    forall ob | Built(ob) in syn ensures !ob.Selector? {
      var i :| 0 <= i < |syn| && syn[i] == Built(ob);
      NotSelector(codec, recs[i]);
    }
  }

  /** A descriptor never turns into a selector. */
  lemma NotSelector(codec: Codec, p: ProxyRecord)
    ensures OutboundFromAdded(codec, p).Built? ==> !OutboundFromAdded(codec, p).ob.Selector?
  {
    if OutboundFromAdded(codec, p).Built? {
      assert OutboundFromAdded(codec, p).ob.Type() != "selector";
    }
  }
}
