/** The container's configuration: config.json overridden by the extension file, and
    what the kernel is told in the end. */
module OciConfig {
  import opened Wrappers
  import opened Binary
  import JailParams

  // ----- config.json, as the objects that merge changes in place -----

  class JailSection {
    var host: GoString
    var ip4: GoString
    var ip4Addr: seq<GoString>
    var ip6: GoString
    var ip6Addr: seq<GoString>
    var vnet: GoString
    var vnetInterfaces: seq<GoString>
    var enforceStatfs: Option<int>

    ghost function Value(): Jail
      reads this
    {
      Jail(host, ip4, ip4Addr, ip6, ip6Addr, vnet, vnetInterfaces, enforceStatfs)
    }

    constructor ()
      ensures Value() == EMPTY
    {
      host, ip4, ip4Addr, ip6, ip6Addr, vnet, vnetInterfaces, enforceStatfs := "", "", [], "", [], "", [], None;
    }
  }

  class FreeBSDSection {
    var jail: JailSection?

    constructor ()
      ensures jail == null
    {
      jail := null;
    }
  }

  class Spec {
    var hostname: GoString
    var domainname: GoString
    var root: GoString // "" when root is missing, which create treats alike
    var process: bool
    var freebsd: FreeBSDSection?

    ghost function Repr(): set<object>
      reads this, freebsd
    {
      {this} + if freebsd == null then {} else {freebsd} + if freebsd.jail == null then {} else {freebsd.jail}
    }

    ghost function Value(): Config
      reads this, Repr()
    {
      Config(hostname, domainname, root, process,
             if freebsd == null then None
             else Some(if freebsd.jail == null then None else Some(freebsd.jail.Value())))
    }
  }

  // ----- the same, as values -----

  datatype Jail = Jail(
    host: GoString, ip4: GoString, ip4Addr: seq<GoString>, ip6: GoString, ip6Addr: seq<GoString>,
    vnet: GoString, vnetInterfaces: seq<GoString>, enforceStatfs: Option<int>)

  const EMPTY: Jail := Jail("", "", [], "", [], "", [], None)

  datatype Config = Config(
    hostname: GoString, domainname: GoString, root: GoString, process: bool, freebsd: Option<Option<Jail>>)
  {
    /** A missing section says the same as an empty one. */
    function JailOf(): Jail { freebsd.GetOr(None).GetOr(EMPTY) }
  }

  /** The extension file: for IPv4 and for vnet a mode and a list, each level optional. */
  datatype Ext = Ext(network: Option<Network>)
  {
    function Ip4(): Share {
      match network case None => NOTHING case Some(n) => n.ipv4.GetOr(NOTHING)
    }

    function Vnet(): Share {
      match network case None => NOTHING case Some(n) => n.vnet.GetOr(NOTHING)
    }
  }

  datatype Network = Network(ipv4: Option<Share>, vnet: Option<Share>)

  datatype Share = Share(mode: GoString, items: seq<GoString>)

  const NOTHING: Share := Share("", [])

  function Override(base: GoString, mode: GoString): GoString { if mode != "" then mode else base }

  /** What an extension makes of a configuration. */
  function Merged(c: Config, ext: Option<Ext>): Config {
    match ext
    case None => c
    case Some(e) =>
      c.(freebsd := Some(Some(Overlaid(c.JailOf(), e))))
  }

  /** A mode that the extension sets replaces the one there is, what it lists comes behind what is
      listed, and everything else stays. */
  predicate OverriddenBy(before: Jail, e: Ext, now: Jail) {
    && (if e.Ip4().mode == "" then now.ip4 == before.ip4 else now.ip4 == e.Ip4().mode)
    && (if e.Vnet().mode == "" then now.vnet == before.vnet else now.vnet == e.Vnet().mode)
    && before.ip4Addr <= now.ip4Addr && now.ip4Addr[|before.ip4Addr|..] == e.Ip4().items
    && before.vnetInterfaces <= now.vnetInterfaces
    && now.vnetInterfaces[|before.vnetInterfaces|..] == e.Vnet().items
    && now.host == before.host && now.ip6 == before.ip6 && now.ip6Addr == before.ip6Addr
    && now.enforceStatfs == before.enforceStatfs
  }

  // ----- oci/config.go -----

  method Merge(spec: Spec?, ext: Option<Ext>)
    modifies if spec == null then {} else spec.Repr()
    ensures spec != null ==> spec.Value() == Merged(old(spec.Value()), ext)
    ensures spec != null && ext.Some? ==> OverriddenBy(old(spec.Value()).JailOf(), ext.value, spec.Value().JailOf())
    ensures spec != null ==> fresh(spec.Repr() - old(spec.Repr()))
  {
    if spec == null || ext.None? { return; }
    var jail := EnsureJail(spec);
    Overlay(jail, ext.value);
  }

  /** The jail section, made where it is missing. */
  method EnsureJail(spec: Spec) returns (jail: JailSection)
    modifies spec.Repr()
    ensures spec.freebsd != null && spec.freebsd.jail == jail
    ensures spec.Value() == old(spec.Value()).(freebsd := Some(Some(old(spec.Value()).JailOf())))
    ensures fresh(spec.Repr() - old(spec.Repr()))
  {
    if spec.freebsd == null {
      spec.freebsd := new FreeBSDSection();
    }
    if spec.freebsd.jail == null {
      spec.freebsd.jail := new JailSection();
    }
    jail := spec.freebsd.jail;
  }

  function Overlaid(j: Jail, e: Ext): Jail {
    j.(ip4 := Override(j.ip4, e.Ip4().mode), ip4Addr := j.ip4Addr + e.Ip4().items,
       vnet := Override(j.vnet, e.Vnet().mode), vnetInterfaces := j.vnetInterfaces + e.Vnet().items)
  }

  method Overlay(jail: JailSection, e: Ext)
    modifies jail
    ensures jail.Value() == Overlaid(old(jail.Value()), e)
  {
    var network := e.network;
    if network.Some? {
      var ipv4 := network.value.ipv4;
      if ipv4.Some? {
        if ipv4.value.mode != "" { jail.ip4 := ipv4.value.mode; }
        if ipv4.value.items != [] { jail.ip4Addr := jail.ip4Addr + ipv4.value.items; }
      }
      assert jail.ip4Addr == old(jail.ip4Addr) + e.Ip4().items;
      var vnet := network.value.vnet;
      if vnet.Some? {
        if vnet.value.mode != "" { jail.vnet := vnet.value.mode; }
        if vnet.value.items != [] { jail.vnetInterfaces := jail.vnetInterfaces + vnet.value.items; }
      }
      assert jail.vnetInterfaces == old(jail.vnetInterfaces) + e.Vnet().items;
    }
    assert network.None? ==> jail.ip4Addr == old(jail.ip4Addr) + [];
    assert network.None? ==> jail.vnetInterfaces == old(jail.vnetInterfaces) + [];
  }

  // ----- extensions compose -----

  function CombineShares(a: Share, b: Share): Share { Share(Override(a.mode, b.mode), a.items + b.items) }

  /** One extension that does what two do in turn. */
  function Combine(a: Option<Ext>, b: Option<Ext>): Option<Ext> {
    match (a, b)
    case (None, _) => b
    case (_, None) => a
    case (Some(x), Some(y)) =>
      Some(Ext(Some(Network(Some(CombineShares(x.Ip4(), y.Ip4())), Some(CombineShares(x.Vnet(), y.Vnet()))))))
  }

  /** Merging two extensions in turn is merging their combination. */
  lemma MergeTwice(c: Config, a: Option<Ext>, b: Option<Ext>)
    ensures Merged(Merged(c, a), b) == Merged(c, Combine(a, b))
  {
    if a.Some? && b.Some? {
      var j := c.JailOf();
      assert j.ip4Addr + (a.value.Ip4().items + b.value.Ip4().items)
          == j.ip4Addr + a.value.Ip4().items + b.value.Ip4().items;
      assert j.vnetInterfaces + (a.value.Vnet().items + b.value.Vnet().items)
          == j.vnetInterfaces + a.value.Vnet().items + b.value.Vnet().items;
    }
  }

  /** The configuration stays as it is exactly when there is no extension, or the jail section
      is there and every mode repeats it or is empty and nothing is appended. */
  lemma MergeKeeps(c: Config, ext: Option<Ext>)
    ensures Merged(c, ext) == c <==>
            || ext.None?
            || (&& c.freebsd.GetOr(None).Some?
                && ext.value.Ip4().mode in ["", c.JailOf().ip4] && ext.value.Ip4().items == []
                && ext.value.Vnet().mode in ["", c.JailOf().vnet] && ext.value.Vnet().items == [])
  {
    if ext.Some? && Merged(c, ext) == c {
      var j, m := c.JailOf(), Merged(c, ext).JailOf();
      assert |m.ip4Addr| == |j.ip4Addr| + |ext.value.Ip4().items|;
      assert |m.vnetInterfaces| == |j.vnetInterfaces| + |ext.value.Vnet().items|;
    }
    assert c.JailOf().ip4Addr + [] == c.JailOf().ip4Addr && c.JailOf().vnetInterfaces + [] == c.JailOf().vnetInterfaces;
  }

  // ----- from the files to the kernel (cmd/runj/create.go) -----

  datatype Failure = NoProcess | BadParameter(key: JailParams.Key)

  /** The root file system: the bundle's "root" by default, below the bundle when relative. */
  function RootPath(bundle: GoString, root: GoString, join: (GoString, GoString) -> GoString): GoString {
    if root == "" then join(bundle, "root")
    else if root[0] == '/' then root
    else join(bundle, root)
  }

  function Params(id: GoString, root: GoString, c: Config): JailParams.CreateParams {
    var j := c.JailOf();
    JailParams.CreateParams(id, root, c.hostname, c.domainname, j.host,
                            j.ip4, j.ip4Addr, j.ip6, j.ip6Addr, j.vnet, j.enforceStatfs)
  }

  /** Every address is one of the family. */
  predicate AddrsOk(parse: JailParams.Parser, addrs: seq<GoString>, v6: bool) {
    forall a | a in addrs :: parse(a).Some? && JailParams.Family(parse(a).value, v6)
  }

  /** The two files, the id and the root path are acceptable together. */
  predicate Acceptable(c: Config, e: Ext, id: GoString, root: GoString, parse: JailParams.Parser) {
    var j := c.JailOf();
    && NoNul(id) && NoNul(root) && NoNul(c.hostname) && NoNul(c.domainname)
    && (j.host in ["", "new"] || (j.host == "inherit" && c.hostname == "" && c.domainname == ""))
    && Override(j.vnet, e.Vnet().mode) in ["", "new", "inherit"]
    && Override(j.ip4, e.Ip4().mode) in ["", "disable", "new", "inherit"]
    && j.ip6 in ["", "disable", "new", "inherit"]
    && AddrsOk(parse, j.ip4Addr, false) && AddrsOk(parse, e.Ip4().items, false) && AddrsOk(parse, j.ip6Addr, true)
    && (j.enforceStatfs.None? || 0 <= j.enforceStatfs.value <= 2)
  }

  /** The kernel's parameters: the base configuration, where a mode of the extension wins
      and its addresses follow those of the base. */
  function Intended(c: Config, e: Ext, id: GoString, root: GoString, parse: JailParams.Parser): JailParams.Decoded
    requires Acceptable(c, e, id, root, parse)
  {
    var j := c.JailOf();
    JailParams.Decoded(
      id, root, c.hostname, c.domainname, j.host,
      Override(j.ip4, e.Ip4().mode),
      JailParams.AddrBytes(parse, j.ip4Addr) + JailParams.AddrBytes(parse, e.Ip4().items),
      j.ip6, JailParams.AddrBytes(parse, j.ip6Addr),
      Override(j.vnet, e.Vnet().mode), j.enforceStatfs, true)
  }

  /** Acceptance, spelled out parameter by parameter. */
  predicate AllKeysOk(p: JailParams.CreateParams, parse: JailParams.Parser) {
    && NoNul(p.name) && NoNul(p.root) && NoNul(p.hostname) && NoNul(p.domainname)
    && (p.host in ["", "new"] || (p.host == "inherit" && p.hostname == "" && p.domainname == ""))
    && p.vnet in ["", "new", "inherit"]
    && p.ip4 in ["", "disable", "new", "inherit"] && p.ip6 in ["", "disable", "new", "inherit"]
    && AddrsOk(parse, p.ip4Addr, false) && AddrsOk(parse, p.ip6Addr, true)
    && (p.enforceStatfs.None? || 0 <= p.enforceStatfs.value <= 2)
  }

  lemma AcceptedKeys(p: JailParams.CreateParams, parse: JailParams.Parser)
    ensures JailParams.Accepted(p, parse) <==> AllKeysOk(p, parse)
  {
    if JailParams.Accepted(p, parse) {
      assert JailParams.KeyOk(p, parse, JailParams.Ip4Addr) && JailParams.KeyOk(p, parse, JailParams.Ip6Addr);
      assert JailParams.KeyOk(p, parse, JailParams.Name) && JailParams.KeyOk(p, parse, JailParams.Root);
      assert JailParams.KeyOk(p, parse, JailParams.Hostname) && JailParams.KeyOk(p, parse, JailParams.Domainname);
      assert JailParams.KeyOk(p, parse, JailParams.HostMode) && JailParams.KeyOk(p, parse, JailParams.VNet);
      assert JailParams.KeyOk(p, parse, JailParams.Ip4) && JailParams.KeyOk(p, parse, JailParams.Ip6);
      assert JailParams.KeyOk(p, parse, JailParams.Statfs);
    }
  }

  lemma AddrsOkAppended(parse: JailParams.Parser, a: seq<GoString>, b: seq<GoString>)
    ensures AddrsOk(parse, a + b, false) <==> AddrsOk(parse, a, false) && AddrsOk(parse, b, false)
  {
    assert forall x :: x in a + b <==> x in a || x in b;
  }

  /** Accepted after the merge means acceptable before it. */
  lemma AcceptedMerged(c: Config, ext: Option<Ext>, id: GoString, root: GoString, parse: JailParams.Parser)
    ensures JailParams.Accepted(Params(id, root, Merged(c, ext)), parse)
       <==> Acceptable(c, ext.GetOr(Ext(None)), id, root, parse)
  {
    var p, e := Params(id, root, Merged(c, ext)), ext.GetOr(Ext(None));
    AcceptedKeys(p, parse);
    assert p.ip4Addr == c.JailOf().ip4Addr + e.Ip4().items;
    AddrsOkAppended(parse, c.JailOf().ip4Addr, e.Ip4().items);
  }

  lemma MeaningMerged(c: Config, ext: Option<Ext>, id: GoString, root: GoString, parse: JailParams.Parser)
    requires Acceptable(c, ext.GetOr(Ext(None)), id, root, parse)
    ensures var p := Params(id, root, Merged(c, ext));
            && JailParams.Accepted(p, parse)
            && JailParams.Meaning(p, parse) == Intended(c, ext.GetOr(Ext(None)), id, root, parse)
  {
    AcceptedMerged(c, ext, id, root, parse);
    var p, e := Params(id, root, Merged(c, ext)), ext.GetOr(Ext(None));
    assert p.ip4Addr == c.JailOf().ip4Addr + e.Ip4().items;
    assert JailParams.KeyOk(p, parse, JailParams.Ip4Addr);
    assert JailParams.AddrBytes(parse, p.ip4Addr)
        == JailParams.AddrBytes(parse, c.JailOf().ip4Addr) + JailParams.AddrBytes(parse, e.Ip4().items);
  }

  /** The root path is settled in place, and the parameters are taken from the merged sections. */
  method Collect(spec: Spec, id: GoString, bundle: GoString, join: (GoString, GoString) -> GoString)
    returns (params: JailParams.CreateParams, interfaces: seq<GoString>)
    modifies spec
    ensures var c := old(spec.Value()); var root := RootPath(bundle, c.root, join);
            params == Params(id, root, c) && interfaces == c.JailOf().vnetInterfaces && spec.Value() == c.(root := root)
  {
    var rootPath := join(bundle, "root");
    if spec.root != "" {
      rootPath := spec.root;
      if rootPath[0] != '/' {
        rootPath := join(bundle, rootPath);
      }
    }
    spec.root := rootPath;
    params := JailParams.CreateParams(id, rootPath, spec.hostname, spec.domainname, "", "", [], "", [], "", None);
    interfaces := [];
    if spec.freebsd != null && spec.freebsd.jail != null {
      var j := spec.freebsd.jail;
      params := params.(host := j.host, ip4 := j.ip4, ip4Addr := j.ip4Addr, ip6 := j.ip6, ip6Addr := j.ip6Addr,
        vnet := j.vnet, enforceStatfs := j.enforceStatfs);
      interfaces := j.vnetInterfaces;
    }
  }

  /** The buffers of a merged configuration, in terms of the files it was merged from. */
  method EncodeMerged(params: JailParams.CreateParams, ghost c: Config, ghost ext: Option<Ext>, id: GoString,
                      root: GoString, parse: JailParams.Parser)
    returns (r: JailParams.Result<seq<JailParams.Iovec>>)
    requires params == Params(id, root, Merged(c, ext))
    ensures var e := ext.GetOr(Ext(None));
            && (r.Ok? <==> Acceptable(c, e, id, root, parse))
            && (r.Ok? ==> JailParams.Decode(r.value) == Some(Intended(c, e, id, root, parse)))
            && (r.Err? ==> !JailParams.KeyOk(params, parse, r.key))
  {
    AcceptedMerged(c, ext, id, root, parse);
    r := JailParams.Encode(params, parse);
    if r.Ok? { MeaningMerged(c, ext, id, root, parse); }
  }

  /** create, from the two files to the buffers for the kernel: it fails exactly when there is
      no process or something is not acceptable, and otherwise the buffers read back as
      config.json overridden by the extension. The interfaces to move come in the same order. */
  method Configure(spec: Spec, ext: Option<Ext>, id: GoString, bundle: GoString,
                   join: (GoString, GoString) -> GoString, parse: JailParams.Parser)
    returns (iov: seq<JailParams.Iovec>, interfaces: seq<GoString>, error: Option<Failure>)
    modifies spec.Repr()
    ensures old(!spec.process) <==> error == Some(NoProcess)
    ensures Configured(old(spec.Value()), spec.Value(), ext.GetOr(Ext(None)), Merged(old(spec.Value()), ext),
                       id, RootPath(bundle, old(spec.root), join), parse, iov, interfaces, error)
  {
    iov, interfaces := [], [];
    ghost var c := spec.Value();
    Merge(spec, ext);
    if !spec.process { error := Some(NoProcess); return; }
    var params, moved := Collect(spec, id, bundle, join);
    assert params.root == RootPath(bundle, c.root, join);
    MergedInterfaces(c, ext);
    var r := EncodeMerged(params, c, ext, id, params.root, parse);
    if r.Err? { error := Some(BadParameter(r.key)); return; }
    iov, interfaces, error := r.value, moved, None;
  }

  lemma MergedInterfaces(c: Config, ext: Option<Ext>)
    ensures Merged(c, ext).JailOf().vnetInterfaces == c.JailOf().vnetInterfaces + ext.GetOr(Ext(None)).Vnet().items
    ensures Merged(c, ext).root == c.root && Merged(c, ext).process == c.process
  {}

  /** How create's view of the configuration comes about. */
  predicate Configured(c: Config, after: Config, e: Ext, merged: Config, id: GoString, root: GoString,
                       parse: JailParams.Parser, iov: seq<JailParams.Iovec>, interfaces: seq<GoString>,
                       error: Option<Failure>) {
    && (error.None? <==> c.process && Acceptable(c, e, id, root, parse))
    && (error.None? ==>
          && JailParams.Decode(iov) == Some(Intended(c, e, id, root, parse))
          && interfaces == c.JailOf().vnetInterfaces + e.Vnet().items
          && after == merged.(root := root))
    && (error.Some? && error.value.BadParameter? ==>
          !JailParams.KeyOk(Params(id, root, merged), parse, error.value.key))
  }
}
