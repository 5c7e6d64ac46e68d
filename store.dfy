/** The app's state: the `AddedProxy` descriptors and the main screen's list
    of them, which pasted links, batch imports, deletions and edits change
    in place, and from which `generate_config` builds the document. */
module Store {
  import opened Wrappers
  import opened Text
  import opened Values
  import opened Library
  import opened Outbounds
  import opened Generate
  import opened Records

  /** One added proxy (the dataclass `AddedProxy`; its `label` is `caption`
      here, because `label` is a Dafny keyword). */
  class AddedProxy {
    const ptype: string
    var caption: string
    var data: Data
    var raw: string
    var selected: bool
    var status: string
    var latency: string
    var info: string

    /** The dataclass constructor with its defaults. */
    constructor (ptype: string, caption: string, data: Data, raw: string)
      ensures this.ptype == ptype && this.caption == caption && this.data == data && this.raw == raw
      ensures selected && status == "Idle" && latency == "N/A" && info == "N/A"
    {
      this.ptype := ptype;
      this.caption := caption;
      this.data := data;
      this.raw := raw;
      selected := true;
      status := "Idle";
      latency := "N/A";
      info := "N/A";
    }

    /** The fields the configuration is built from. */
    function Record(): ProxyRecord
      reads this
    {
      ProxyRecord(ptype, caption, data, raw, selected)
    }
  }

  /** The records of a list of descriptors, in order. */
  function Snapshot(ps: seq<AddedProxy>): (r: seq<ProxyRecord>)
    reads set p | p in ps
    ensures |r| == |ps|
  {
    if ps == [] then [] else Snapshot(ps[..|ps| - 1]) + [ps[|ps| - 1].Record()]
  }

  /** The records of a list with one more descriptor. */
  lemma SnapshotAppend(ps: seq<AddedProxy>, p: AddedProxy)
    ensures Snapshot(ps + [p]) == Snapshot(ps) + [p.Record()]
  {
    assert (ps + [p])[..|ps|] == ps;
  }
}
