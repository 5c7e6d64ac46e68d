/** The main screen: its list of descriptors and the operations on it. */
module Screen {
  import opened Wrappers
  import opened Text
  import opened Values
  import opened Library
  import opened Outbounds
  import opened Generate
  import opened Records
  import opened Store

  class MainScreen {
    /** The byte-level library calls the screen's decoders use. */
    const codec: Codec
    var addedProxies: seq<AddedProxy>
    var dnsProtectionOn: bool
    /** The last generated document; `None` for the initial empty text. */
    var generatedConfig: Option<Config>

    constructor (codec: Codec)
      ensures this.codec == codec
      ensures addedProxies == [] && !dnsProtectionOn && generatedConfig == None
    {
      this.codec := codec;
      addedProxies := [];
      dnsProtectionOn := false;
      generatedConfig := None;
    }

    /** `add_proxy_from_string`: the descriptor for the pasted text, if any,
        is appended; `Admitted` is that descriptor's record, or nothing. */
    method AddProxyFromString(text: string) returns (added: bool)
      modifies this
      ensures added <==> Pasted(codec, text).Some?
      ensures old(addedProxies) <= addedProxies
      ensures Snapshot(addedProxies) == old(Snapshot(addedProxies)) + Admitted(codec, text)
      ensures added ==> |addedProxies| == |old(addedProxies)| + 1 && fresh(addedProxies[|old(addedProxies)|])
      ensures !added ==> addedProxies == old(addedProxies)
      ensures dnsProtectionOn == old(dnsProtectionOn) && generatedConfig == old(generatedConfig)
    {
      var pasted := Pasted(codec, text);
      PastedAdmitted(codec, text);
      if pasted.None? {
        return false;
      }
      Append(pasted.value);
      added := true;
    }

    /** `self.added_proxies.append(AddedProxy(...))` for a selected record. */
    method Append(r: ProxyRecord)
      requires r.selected
      modifies this
      ensures |addedProxies| == |old(addedProxies)| + 1 && old(addedProxies) <= addedProxies
      ensures fresh(addedProxies[|old(addedProxies)|])
      ensures Snapshot(addedProxies) == old(Snapshot(addedProxies)) + [r]
      ensures dnsProtectionOn == old(dnsProtectionOn) && generatedConfig == old(generatedConfig)
    {
      var p := new AddedProxy(r.ptype, r.caption, r.data, r.raw);
      assert p.Record() == r;
      SnapshotAppend(addedProxies, p);
      addedProxies := addedProxies + [p];
    }

    /** `import_links`: every line of the stripped text is offered to
        `add_proxy_from_string`; the result is how many it accepted. */
    method ImportLinks(text: string) returns (count: nat)
      modifies this
      ensures var admitted := AdmitAll(codec, SplitLines(Strip(text)));
        && count == |admitted|
        && old(addedProxies) <= addedProxies
        && Snapshot(addedProxies) == old(Snapshot(addedProxies)) + admitted
      ensures dnsProtectionOn == old(dnsProtectionOn) && generatedConfig == old(generatedConfig)
    {
      var links := SplitLines(Strip(text));
      ghost var start := Snapshot(addedProxies);
      count := 0;
      for i := 0 to |links|
        invariant count == |AdmitAll(codec, links[..i])|
        invariant old(addedProxies) <= addedProxies
        invariant Snapshot(addedProxies) == start + AdmitAll(codec, links[..i])
        invariant dnsProtectionOn == old(dnsProtectionOn) && generatedConfig == old(generatedConfig)
      {
        AdmitAllStep(codec, links, i);
        ghost var admitted := AdmitAll(codec, links[..i]);
        var added := AddProxyFromString(links[i]);
        AdmittedCount(codec, links[i]);
        if added {
          count := count + 1;
        }
        AppendAssoc(start, admitted, Admitted(codec, links[i]));
      }
      assert links[..|links|] == links;
    }

    /** `remove_proxy`: `list.remove` drops the first element equal to the
        argument, and raises `ValueError` (here: `false`, nothing changes)
        when there is none. */
    method RemoveProxy(target: AddedProxy) returns (removed: bool)
      modifies this
      ensures removed <==> target in old(addedProxies)
      ensures !removed ==> addedProxies == old(addedProxies)
      ensures removed ==>
        exists i | 0 <= i < |old(addedProxies)| ::
          && old(addedProxies)[i] == target
          && target !in old(addedProxies)[..i]
          && addedProxies == old(addedProxies)[..i] + old(addedProxies)[i + 1..]
      ensures dnsProtectionOn == old(dnsProtectionOn) && generatedConfig == old(generatedConfig)
    {
      var i := 0;
      while i < |addedProxies| && addedProxies[i] != target
        invariant 0 <= i <= |addedProxies|
        invariant target !in addedProxies[..i]
      {
        i := i + 1;
      }
      if i == |addedProxies| {
        assert addedProxies[..i] == addedProxies;
        return false;
      }
      addedProxies := addedProxies[..i] + addedProxies[i + 1..];
      removed := true;
    }

    /** `save_proxy_edit`: a link descriptor takes the stripped text as its
        link; any other takes the parsed JSON as its `data`, which is stored
        before the check that it is a dict can raise. */
    method SaveProxyEdit(proxy: AddedProxy, text: string) returns (ok: bool)
      modifies proxy
      ensures (proxy.Record(), ok) == EditRecord(codec, old(proxy.Record()), text)
      ensures proxy.status == old(proxy.status) && proxy.latency == old(proxy.latency)
      ensures proxy.info == old(proxy.info)
    {
      var t := Lower(proxy.ptype);
      if proxy.raw != "" {
        proxy.raw := Strip(text);
        var server := EditedServer(codec, t, proxy.raw);
        if Truthy(server) {
          proxy.caption := Caption(t, server);
        }
        assert proxy.caption == EditedCaption(t, server, old(proxy.caption));
        return true;
      }
      var loaded := codec.jsonLoads(text);
      if loaded.None? {
        return false;
      }
      proxy.data := loaded.value;
      if loaded.value.NotDict? {
        return false;
      }
      var server := Get(loaded.value.fields, "server", Null);
      if Truthy(server) {
        proxy.caption := Caption(t, server);
      }
      assert proxy.caption == EditedCaption(t, server, old(proxy.caption));
      ok := true;
    }

    /** The loop of `generate_config` over the selected descriptors: the two
        fixed outbounds, then one per descriptor that builds one, and the tags
        of the latter; `raised` when `_outbound_from_added` raises for one. */
    static method CollectOutbounds(codec: Codec, selected: seq<ProxyRecord>)
      returns (raised: bool, outbounds: seq<Outbound>, proxyTags: seq<string>)
      ensures var collected := Collect(Synthesize(codec, selected));
        && (raised <==> collected.None?)
        && (!raised ==> outbounds == [Direct, DnsOut] + collected.value && proxyTags == Tags(collected.value))
    {
      ghost var syn := Synthesize(codec, selected);
      outbounds := [Direct, DnsOut];
      proxyTags := [];
      ghost var obs: seq<Outbound> := [];
      for i := 0 to |selected|
        invariant Collect(syn[..i]) == Some(obs)
        invariant outbounds == [Direct, DnsOut] + obs && proxyTags == Tags(obs)
      {
        var ob := OutboundFromAdded(codec, selected[i]);
        CollectStep(syn, i);
        if ob.Raised? {
          CollectRaises(syn);
          return true, outbounds, proxyTags;
        }
        if ob.Built? {
          TagsAppend(obs, ob.ob);
          outbounds := outbounds + [ob.ob];
          proxyTags := proxyTags + [ob.ob.Tag()];
          obs := obs + [ob.ob];
        }
      }
      assert syn[..|selected|] == syn;
      raised := false;
    }

    /** The document `generate_config` builds from the descriptors' records and
        the DNS-protection switch; `None` when `_outbound_from_added` raises. */
    static method BuildDocument(codec: Codec, recs: seq<ProxyRecord>, dnsProtection: bool)
      returns (config: Option<Config>)
      ensures config == ConfigFor(codec, recs, dnsProtection)
    {
      var selected := Selected(recs);
      var raised, outbounds, proxyTags := CollectOutbounds(codec, selected);
      if raised {
        return None;
      }
      ghost var obs := outbounds[2..];
      assert outbounds == [Direct, DnsOut] + obs;
      ConfigFromCollected(codec, recs, obs, dnsProtection);
      var final := "direct";
      if proxyTags != [] {
        outbounds := outbounds + [Selector(SelectorTag, proxyTags + ["direct"], proxyTags[0])];
        final := SelectorTag;
      }
      var detour := if dnsProtection then final else "dns-out";
      var document := Config(
        logLevel := "error",
        dnsServers := [DnsServer("cloudflare", "https://1.1.1.1/dns-query", detour)],
        dnsStrategy := "prefer_ipv4",
        inbounds := [Inbound("tproxy", "tproxy-in", "::", 9898, true)],
        outbounds := outbounds,
        rules := [RouteRule("dns", "dns-out")],
        final := final,
        clashController := "0.0.0.0:9090");
      assert document == BuildConfig(obs, dnsProtection);
      config := Some(document);
    }

    /** `generate_config`: `false` when `_outbound_from_added` raises, which
        leaves the previous document in place. */
    method GenerateConfig() returns (ok: bool)
      modifies this
      ensures addedProxies == old(addedProxies) && dnsProtectionOn == old(dnsProtectionOn)
      ensures ok <==> ConfigFor(codec, old(Snapshot(addedProxies)), dnsProtectionOn).Some?
      ensures ok ==> generatedConfig == ConfigFor(codec, old(Snapshot(addedProxies)), dnsProtectionOn)
      ensures !ok ==> generatedConfig == old(generatedConfig)
    {
      ghost var expected := ConfigFor(codec, Snapshot(addedProxies), dnsProtectionOn);
      var config := BuildDocument(codec, Snapshot(addedProxies), dnsProtectionOn);
      assert config == expected;
      if config.None? {
        return false;
      }
      generatedConfig := config;
      ok := true;
    }
  }

}
