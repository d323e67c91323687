/** The parameters of a jail as name/value buffers for jail_set(2), and a decoder
    that reads them back the way the kernel does: pairs of buffers, each with the
    length that goes with its base address. */
module JailParams {
  import opened Wrappers
  import opened Binary

  datatype Result<+T> = Ok(value: T) | Err(key: Key)

  /** The kernel's parameter names that runj sets. */
  datatype Key =
    | Name | Root | Hostname | Domainname | HostMode | VNet
    | Ip4 | Ip4Addr | Ip6 | Ip6Addr | Statfs | Persist

  function KeyName(k: Key): GoString {
    match k
    case Name => "name"
    case Root => "path"
    case Hostname => "host.hostname"
    case Domainname => "host.domainname"
    case HostMode => "host"
    case VNet => "vnet"
    case Ip4 => "ip4"
    case Ip4Addr => "ip4.addr"
    case Ip6 => "ip6"
    case Ip6Addr => "ip6.addr"
    case Statfs => "enforce_statfs"
    case Persist => "persist"
  }

  /** The kernel's side of the names; any other name is unknown. */
  function KeyOfName(n: GoString): Option<Key> {
    if n == "name" then Some(Name)
    else if n == "path" then Some(Root)
    else if n == "host.hostname" then Some(Hostname)
    else if n == "host.domainname" then Some(Domainname)
    else if n == "host" then Some(HostMode)
    else if n == "vnet" then Some(VNet)
    else if n == "ip4" then Some(Ip4)
    else if n == "ip4.addr" then Some(Ip4Addr)
    else if n == "ip6" then Some(Ip6)
    else if n == "ip6.addr" then Some(Ip6Addr)
    else if n == "enforce_statfs" then Some(Statfs)
    else if n == "persist" then Some(Persist)
    else None
  }

  function ParseKey(name: Bytes): Option<Key> {
    match FromCString(name) case None => None case Some(n) => KeyOfName(n)
  }

  lemma KeyOfNameOfKey(k: Key)
    ensures KeyOfName(KeyName(k)) == Some(k) && NoNul(KeyName(k))
  {}

  /** The kernel knows every name that is passed, as the parameter it is meant for. */
  lemma ParseKeyOfKey(k: Key)
    ensures ParseKey(CString(KeyName(k))) == Some(k)
  {
    KeyOfNameOfKey(k);
    FromCStringOfCString(KeyName(k));
  }

  // ----- addresses (net/netip) -----

  /** A parsed address; `Addr6` keeps IPv4-mapped addresses and zones, too. */
  datatype Addr' = Addr4(b: Bytes) | Addr6(b: Bytes, zone: GoString)

  type Addr = a: Addr' | |a.b| == (if a.Addr4? then 4 else 16) witness Addr4([0, 0, 0, 0])

  predicate Is4In6(a: Addr) {
    a.Addr6? && a.b[..12] == [0, 0, 0, 0, 0, 0, 0, 0, 0, 0, 255, 255]
  }

  // ----- the parameters -----

  datatype CreateParams = CreateParams(
    name: GoString, root: GoString, hostname: GoString, domainname: GoString, host: GoString,
    ip4: GoString, ip4Addr: seq<GoString>, ip6: GoString, ip6Addr: seq<GoString>,
    vnet: GoString, enforceStatfs: Option<int>)

  type Parser = GoString -> Option<Addr>

  /** The numbers of the sharing modes. */
  function ModeCode(mode: GoString): Option<int> {
    if mode == "disable" then Some(0)
    else if mode == "new" then Some(1)
    else if mode == "inherit" then Some(2)
    else None
  }

  function ModeName(code: int): Option<GoString> {
    if code == 0 then Some("disable")
    else if code == 1 then Some("new")
    else if code == 2 then Some("inherit")
    else None
  }

  /** Which value of one parameter is accepted. */
  predicate KeyOk(c: CreateParams, parse: Parser, k: Key) {
    match k
    case Name => NoNul(c.name)
    case Root => NoNul(c.root)
    case Hostname => NoNul(c.hostname)
    case Domainname => NoNul(c.domainname)
    case HostMode => c.host in ["", "new"] || (c.host == "inherit" && c.hostname == "" && c.domainname == "")
    case VNet => c.vnet in ["", "new", "inherit"]
    case Ip4 => c.ip4 in ["", "disable", "new", "inherit"]
    case Ip4Addr => forall a | a in c.ip4Addr :: parse(a).Some? && parse(a).value.Addr4?
    case Ip6 => c.ip6 in ["", "disable", "new", "inherit"]
    case Ip6Addr => forall a | a in c.ip6Addr :: parse(a).Some? && parse(a).value.Addr6? && !Is4In6(parse(a).value)
    case Statfs => c.enforceStatfs.None? || 0 <= c.enforceStatfs.value <= 2
    case Persist => true
  }

  predicate Accepted(c: CreateParams, parse: Parser) { forall k :: KeyOk(c, parse, k) }

  /** The parameters that are passed at all. */
  predicate Present(c: CreateParams, k: Key) {
    match k
    case Name | Root | Persist => true
    case Hostname => c.hostname != ""
    case Domainname => c.domainname != ""
    case HostMode => c.host != ""
    case VNet => c.vnet != ""
    case Ip4 => c.ip4 != ""
    case Ip4Addr => c.ip4Addr != []
    case Ip6 => c.ip6 != ""
    case Ip6Addr => c.ip6Addr != []
    case Statfs => c.enforceStatfs.Some?
  }

  function AddrBytes(parse: Parser, addrs: seq<GoString>): (bs: seq<Bytes>)
    requires forall a | a in addrs :: parse(a).Some?
    ensures |bs| == |addrs|
    ensures forall i | 0 <= i < |bs| :: bs[i] == parse(addrs[i]).value.b
  {
    seq(|addrs|, i requires 0 <= i < |addrs| => parse(addrs[i]).value.b)
  }

  // ----- buffers (jail/syscall.go) -----

  /** A base address, as the buffer it points to, and a length. */
  datatype Iovec = Iovec(base: Bytes, len: nat)

  function View(v: Iovec): Option<Bytes> {
    if v.len <= |v.base| then Some(v.base[..v.len]) else None
  }

  function MakeIovec(name: Bytes, value: Bytes, size: nat): seq<Iovec>
    requires name != []
  {
    [Iovec(name, |name|), Iovec(value, size)]
  }

  function StringIovec(k: Key, value: GoString): Option<seq<Iovec>> {
    if NoNul(value) then Some(MakeIovec(CString(KeyName(k)), CString(value), |value| + 1)) else None
  }

  function Int32Iovec(k: Key, value: int): seq<Iovec>
    requires -0x8000_0000 <= value < 0x8000_0000
  {
    MakeIovec(CString(KeyName(k)), Le32(value), 4)
  }

  function NilIovec(k: Key): seq<Iovec> { MakeIovec(CString(KeyName(k)), [], 0) }

  /** All addresses in one buffer; a list of mixed families is refused. */
  method NetIPIovec(k: Key, value: seq<Addr>) returns (r: Option<seq<Iovec>>)
    requires value != [] // the code takes the address of the first byte
    ensures r.None? <==> exists i :: 0 <= i < |value| && value[i].Addr6? != value[0].Addr6?
    ensures r.Some? ==>
              var bytes := Concat(seq(|value|, i requires 0 <= i < |value| => value[i].b));
              r.value == MakeIovec(CString(KeyName(k)), bytes, |bytes|) && bytes != []
  {
    var bytes: Bytes := [];
    var is6 := false;
    ghost var all := seq(|value|, i requires 0 <= i < |value| => value[i].b);
    for i := 0 to |value|
      invariant i > 0 ==> is6 == value[0].Addr6? && bytes != []
      invariant forall j | 0 <= j < i :: value[j].Addr6? == value[0].Addr6?
      invariant bytes == Concat(all[..i])
    {
      var addr := value[i];
      if i == 0 {
        is6 := addr.Addr6?;
      } else if is6 != addr.Addr6? {
        return None;
      }
      assert all[..i + 1][..i] == all[..i];
      bytes := bytes + addr.b;
    }
    assert all[..|value|] == all;
    return Some(MakeIovec(CString(KeyName(k)), bytes, |bytes|));
  }

  // ----- the decoder -----

  /** First stage: pairs of buffers become a table; an odd count, a name that is not
      known, a repeated name or a length beyond the buffer is refused. */
  function Pairs(iov: seq<Iovec>, known: Bytes -> Option<Key>): Option<map<Key, Bytes>> {
    if iov == [] then Some(map[])
    else if |iov| == 1 then None
    else
      var n := |iov|;
      match (Pairs(iov[..n - 2], known), View(iov[n - 2]), View(iov[n - 1]))
      case (Some(m), Some(name), Some(value)) =>
        (match known(name)
         case None => None
         case Some(k) => if k in m then None else Some(m[k := value]))
      case _ => None
  }

  /** What the kernel is told, in the terms of the configuration; "" and [] mean
      that a parameter is not passed. */
  datatype Decoded = Decoded(
    name: GoString, root: GoString, hostname: GoString, domainname: GoString, host: GoString,
    ip4: GoString, ip4Addr: seq<Bytes>, ip6: GoString, ip6Addr: seq<Bytes>,
    vnet: GoString, enforceStatfs: Option<int>, persist: bool)

  function TextAt(m: map<Key, Bytes>, k: Key): GoString {
    if k in m then FromCString(m[k]).GetOr("") else ""
  }

  function IntAt(m: map<Key, Bytes>, k: Key): Option<int> {
    if k in m && |m[k]| == 4 then Some(FromLe32(m[k])) else None
  }

  function ModeAt(m: map<Key, Bytes>, k: Key): GoString {
    match IntAt(m, k) case None => "" case Some(code) => ModeName(code).GetOr("")
  }

  function AddrsAt(m: map<Key, Bytes>, k: Key, size: nat): seq<Bytes>
    requires 0 < size
  {
    if k in m then Pieces(m[k], size).GetOr([]) else []
  }

  /** A value has the form that the kernel asks for. */
  predicate Readable(k: Key, value: Bytes) {
    match k
    case Name | Root | Hostname | Domainname => FromCString(value).Some?
    case HostMode | VNet | Ip4 | Ip6 => |value| == 4 && ModeName(FromLe32(value)).Some?
    case Ip4Addr => value != [] && Pieces(value, 4).Some?
    case Ip6Addr => value != [] && Pieces(value, 16).Some?
    case Statfs => |value| == 4
    case Persist => value == []
  }

  /** Second stage: a parameter whose value has another form is refused. */
  function Decode(iov: seq<Iovec>): Option<Decoded> {
    match Pairs(iov, ParseKey)
    case None => None
    case Some(m) =>
      if Name !in m || Root !in m || exists k :: k in m && !Readable(k, m[k]) then None
      else Some(Decoded(
                  TextAt(m, Name), TextAt(m, Root), TextAt(m, Hostname), TextAt(m, Domainname), ModeAt(m, HostMode),
                  ModeAt(m, Ip4), AddrsAt(m, Ip4Addr, 4), ModeAt(m, Ip6), AddrsAt(m, Ip6Addr, 16),
                  ModeAt(m, VNet), IntAt(m, Statfs), Persist in m))
  }

  /** What the caller asked for. */
  function Meaning(c: CreateParams, parse: Parser): Decoded
    requires Accepted(c, parse)
  {
    assert KeyOk(c, parse, Ip4Addr) && KeyOk(c, parse, Ip6Addr);
    Decoded(c.name, c.root, c.hostname, c.domainname, c.host,
            c.ip4, AddrBytes(parse, c.ip4Addr), c.ip6, AddrBytes(parse, c.ip6Addr),
            c.vnet, c.enforceStatfs, true)
  }

  // ----- one parameter after the other -----

  function ValueOf(c: CreateParams, parse: Parser, k: Key): Bytes
    requires KeyOk(c, parse, k)
  {
    match k
    case Name => CString(c.name)
    case Root => CString(c.root)
    case Hostname => CString(c.hostname)
    case Domainname => CString(c.domainname)
    case HostMode => Le32(ModeCode(c.host).GetOr(0))
    case VNet => Le32(ModeCode(c.vnet).GetOr(0))
    case Ip4 => Le32(ModeCode(c.ip4).GetOr(0))
    case Ip4Addr => Concat(AddrBytes(parse, c.ip4Addr))
    case Ip6 => Le32(ModeCode(c.ip6).GetOr(0))
    case Ip6Addr => Concat(AddrBytes(parse, c.ip6Addr))
    case Statfs => Le32(c.enforceStatfs.GetOr(0))
    case Persist => []
  }

  predicate AllOk(c: CreateParams, parse: Parser, done: set<Key>) {
    forall k | k in done :: KeyOk(c, parse, k)
  }

  /** The table the kernel should read for some of the parameters. */
  function TableOf(c: CreateParams, parse: Parser, done: set<Key>): map<Key, Bytes>
    requires AllOk(c, parse, done)
  {
    map k | k in done && Present(c, k) :: ValueOf(c, parse, k)
  }

  predicate Encodes(iov: seq<Iovec>, c: CreateParams, parse: Parser, done: set<Key>) {
    EncodesFor(ParseKey, iov, c, parse, done)
  }

  /** The buffers read as the table of these parameters, by a reader that knows some names. */
  predicate EncodesFor(known: Bytes -> Option<Key>, iov: seq<Iovec>, c: CreateParams, parse: Parser, done: set<Key>) {
    AllOk(c, parse, done) && Pairs(iov, known) == Some(TableOf(c, parse, done)) && |iov| % 2 == 0
  }

  lemma PairsOfAppended(known: Bytes -> Option<Key>, iov: seq<Iovec>, name: Bytes, k: Key, value: Bytes)
    requires Pairs(iov, known).Some? && k !in Pairs(iov, known).value && known(name) == Some(k) && name != []
    ensures Pairs(iov + MakeIovec(name, value, |value|), known) == Some(Pairs(iov, known).value[k := value])
  {
    var all := iov + MakeIovec(name, value, |value|);
    assert all[..|all| - 2] == iov;
    assert name[..|name|] == name && value[..|value|] == value;
    assert View(all[|all| - 2]) == Some(name);
    assert View(all[|all| - 1]) == Some(value);
  }

  lemma TableNext(c: CreateParams, parse: Parser, done: set<Key>, k: Key)
    requires AllOk(c, parse, done) && KeyOk(c, parse, k)
    ensures AllOk(c, parse, done + {k})
    ensures TableOf(c, parse, done + {k}) ==
              if Present(c, k) then TableOf(c, parse, done)[k := ValueOf(c, parse, k)] else TableOf(c, parse, done)
  {}

  lemma EncodeNext(iov: seq<Iovec>, c: CreateParams, parse: Parser, done: set<Key>, k: Key, added: seq<Iovec>)
    requires Encodes(iov, c, parse, done) && k !in done && KeyOk(c, parse, k)
    requires added == if Present(c, k)
                      then MakeIovec(CString(KeyName(k)), ValueOf(c, parse, k), |ValueOf(c, parse, k)|)
                      else []
    ensures Encodes(iov + added, c, parse, done + {k})
  {
    ParseKeyOfKey(k);
    EncodeNamed(ParseKey, iov, c, parse, done, k, CString(KeyName(k)), added);
  }

  /** The same for any reader and name that it takes for the parameter. */
  lemma EncodeNamed(known: Bytes -> Option<Key>, iov: seq<Iovec>, c: CreateParams, parse: Parser, done: set<Key>,
                    k: Key, name: Bytes, added: seq<Iovec>)
    requires EncodesFor(known, iov, c, parse, done) && k !in done && KeyOk(c, parse, k)
    requires known(name) == Some(k) && name != []
    requires added == if Present(c, k) then MakeIovec(name, ValueOf(c, parse, k), |ValueOf(c, parse, k)|) else []
    ensures EncodesFor(known, iov + added, c, parse, done + {k})
  {
    TableNext(c, parse, done, k);
    if Present(c, k) {
      PairsOfAppended(known, iov, name, k, ValueOf(c, parse, k));
    } else {
      assert iov + added == iov;
    }
  }

  const ALL: set<Key> := {Name, Root, Hostname, Domainname, HostMode, VNet, Ip4, Ip4Addr, Ip6, Ip6Addr, Statfs, Persist}

  lemma AllKeys(k: Key)
    ensures k in ALL
  {}

  lemma DecodeMode(c: CreateParams, parse: Parser, k: Key, mode: GoString)
    requires Accepted(c, parse) && mode in ["", "disable", "new", "inherit"] && (mode != "" <==> Present(c, k))
    requires ValueOf(c, parse, k) == Le32(ModeCode(mode).GetOr(0))
    ensures ModeAt(TableOf(c, parse, ALL), k) == mode
  {
    AllKeys(k);
    FromLe32OfLe32(ModeCode(mode).GetOr(0));
  }

  lemma DecodeText(c: CreateParams, parse: Parser, k: Key, text: GoString)
    requires Accepted(c, parse) && (text != "" ==> Present(c, k)) && NoNul(text)
    requires ValueOf(c, parse, k) == CString(text)
    ensures TextAt(TableOf(c, parse, ALL), k) == text
  {
    AllKeys(k);
    FromCStringOfCString(text);
  }

  lemma DecodeAddrs(c: CreateParams, parse: Parser, k: Key, addrs: seq<GoString>, size: nat)
    requires Accepted(c, parse) && (addrs != [] <==> Present(c, k)) && 0 < size
    requires forall a | a in addrs :: parse(a).Some? && |parse(a).value.b| == size
    requires ValueOf(c, parse, k) == Concat(AddrBytes(parse, addrs))
    ensures AddrsAt(TableOf(c, parse, ALL), k, size) == AddrBytes(parse, addrs)
  {
    AllKeys(k);
    PiecesOfConcat(AddrBytes(parse, addrs), size);
  }

  lemma DecodeStrings(c: CreateParams, parse: Parser)
    requires Accepted(c, parse)
    ensures var m := TableOf(c, parse, ALL);
            TextAt(m, Name) == c.name && TextAt(m, Root) == c.root
            && TextAt(m, Hostname) == c.hostname && TextAt(m, Domainname) == c.domainname
  {
    assert KeyOk(c, parse, Name) && KeyOk(c, parse, Root) && KeyOk(c, parse, Hostname) && KeyOk(c, parse, Domainname);
    DecodeText(c, parse, Name, c.name);
    DecodeText(c, parse, Root, c.root);
    DecodeText(c, parse, Hostname, c.hostname);
    DecodeText(c, parse, Domainname, c.domainname);
  }

  lemma DecodeModes(c: CreateParams, parse: Parser)
    requires Accepted(c, parse)
    ensures var m := TableOf(c, parse, ALL);
            && ModeAt(m, HostMode) == c.host && ModeAt(m, VNet) == c.vnet
            && ModeAt(m, Ip4) == c.ip4 && ModeAt(m, Ip6) == c.ip6
  {
    assert KeyOk(c, parse, HostMode) && KeyOk(c, parse, VNet) && KeyOk(c, parse, Ip4) && KeyOk(c, parse, Ip6);
    DecodeMode(c, parse, HostMode, c.host);
    DecodeMode(c, parse, VNet, c.vnet);
    DecodeMode(c, parse, Ip4, c.ip4);
    DecodeMode(c, parse, Ip6, c.ip6);
  }

  lemma DecodeAddresses(c: CreateParams, parse: Parser)
    requires Accepted(c, parse)
    ensures KeyOk(c, parse, Ip4Addr) && KeyOk(c, parse, Ip6Addr)
    ensures var m := TableOf(c, parse, ALL);
            && AddrsAt(m, Ip4Addr, 4) == AddrBytes(parse, c.ip4Addr)
            && AddrsAt(m, Ip6Addr, 16) == AddrBytes(parse, c.ip6Addr)
  {
    assert KeyOk(c, parse, Ip4Addr) && KeyOk(c, parse, Ip6Addr);
    DecodeAddrs(c, parse, Ip4Addr, c.ip4Addr, 4);
    DecodeAddrs(c, parse, Ip6Addr, c.ip6Addr, 16);
  }

  lemma DecodeStatfs(c: CreateParams, parse: Parser)
    requires Accepted(c, parse)
    ensures var m := TableOf(c, parse, ALL);
            IntAt(m, Statfs) == c.enforceStatfs && Name in m && Root in m && Persist in m
  {
    assert KeyOk(c, parse, Statfs);
    AllKeys(Statfs);
    if c.enforceStatfs.Some? { FromLe32OfLe32(c.enforceStatfs.value); }
  }

  /** Reading back what was written. */
  lemma DecodeOfEncoded(iov: seq<Iovec>, c: CreateParams, parse: Parser)
    requires Accepted(c, parse) && Pairs(iov, ParseKey) == Some(TableOf(c, parse, ALL))
    ensures Decode(iov) == Some(Meaning(c, parse))
  {
    DecodeStrings(c, parse);
    DecodeModes(c, parse);
    DecodeAddresses(c, parse);
    DecodeStatfs(c, parse);
    forall k | k in TableOf(c, parse, ALL) ensures Readable(k, TableOf(c, parse, ALL)[k]) {
      ReadableValue(c, parse, k);
    }
  }

  /** Every value that is passed has its form. */
  lemma ReadableValue(c: CreateParams, parse: Parser, k: Key)
    requires Accepted(c, parse) && Present(c, k) && KeyOk(c, parse, k)
    ensures Readable(k, ValueOf(c, parse, k))
  {
    match k
    case Name | Root | Hostname | Domainname => ReadableText(c, parse, k);
    case HostMode | VNet | Ip4 | Ip6 => ReadableMode(c, parse, k);
    case Ip4Addr => ReadableAddrs(parse, c.ip4Addr, 4);
    case Ip6Addr => ReadableAddrs(parse, c.ip6Addr, 16);
    case _ =>
  }

  lemma ReadableText(c: CreateParams, parse: Parser, k: Key)
    requires KeyOk(c, parse, k) && (k == Name || k == Root || k == Hostname || k == Domainname)
    ensures Readable(k, ValueOf(c, parse, k))
  {
    FromCStringOfCString(c.name);
    FromCStringOfCString(c.root);
    FromCStringOfCString(c.hostname);
    FromCStringOfCString(c.domainname);
  }

  lemma ReadableMode(c: CreateParams, parse: Parser, k: Key)
    requires KeyOk(c, parse, k) && (k == HostMode || k == VNet || k == Ip4 || k == Ip6)
    ensures Readable(k, ValueOf(c, parse, k))
  {
    FromLe32OfLe32(0);
    FromLe32OfLe32(1);
    FromLe32OfLe32(2);
  }

  lemma ReadableAddrs(parse: Parser, addrs: seq<GoString>, size: nat)
    requires addrs != [] && 0 < size && forall a | a in addrs :: parse(a).Some? && |parse(a).value.b| == size
    ensures Concat(AddrBytes(parse, addrs)) != [] && Pieces(Concat(AddrBytes(parse, addrs)), size).Some?
  {
    PiecesOfConcat(AddrBytes(parse, addrs), size);
    assert |AddrBytes(parse, addrs)| > 0;
  }

  // ----- CreateParams.iovec (jail/params.go) -----

  /** The addresses of one family, parsed in order; None at the first that is not one. */
  method ParseAddrs(parse: Parser, addrs: seq<GoString>, v6: bool) returns (r: Option<seq<Addr>>)
    ensures r.Some? <==> forall a | a in addrs :: parse(a).Some? && Family(parse(a).value, v6)
    ensures r.Some? ==> |r.value| == |addrs| && forall i | 0 <= i < |addrs| :: Some(r.value[i]) == parse(addrs[i])
  {
    var parsed: seq<Addr> := [];
    for i := 0 to |addrs|
      invariant |parsed| == i
      invariant forall j | 0 <= j < i :: Some(parsed[j]) == parse(addrs[j]) && Family(parsed[j], v6)
    {
      var a := parse(addrs[i]);
      if a.None? || !Family(a.value, v6) {
        assert addrs[i] in addrs;
        return None;
      }
      parsed := parsed + [a.value];
    }
    return Some(parsed);
  }

  predicate Family(a: Addr, v6: bool) {
    if v6 then a.Addr6? && !Is4In6(a) else a.Addr4?
  }

  method AddrIovec(k: Key, parse: Parser, addrs: seq<GoString>, v6: bool) returns (r: Option<seq<Iovec>>)
    requires addrs != []
    ensures r.Some? <==> forall a | a in addrs :: parse(a).Some? && Family(parse(a).value, v6)
    ensures r.Some? ==>
              var bytes := Concat(AddrBytes(parse, addrs)); r.value == MakeIovec(CString(KeyName(k)), bytes, |bytes|)
  {
    var parsed := ParseAddrs(parse, addrs, v6);
    if parsed.None? { return None; }
    r := NetIPIovec(k, parsed.value);
    assert forall i | 0 <= i < |addrs| :: addrs[i] in addrs;
    assert AddrBytes(parse, addrs) == seq(|parsed.value|, i requires 0 <= i < |parsed.value| => parsed.value[i].b);
  }

  /** A sharing mode, if one is given; "disable" exists for the address families only. */
  method AppendMode(iov: seq<Iovec>, c: CreateParams, parse: Parser, ghost done: set<Key>, k: Key, mode: GoString)
    returns (r: Result<seq<Iovec>>)
    requires Encodes(iov, c, parse, done) && k !in done
    requires (k == VNet && mode == c.vnet) || (k == Ip4 && mode == c.ip4) || (k == Ip6 && mode == c.ip6)
    ensures if KeyOk(c, parse, k) then r.Ok? && Encodes(r.value, c, parse, done + {k}) else r == Err(k)
  {
    var added: seq<Iovec> := [];
    if mode != "" {
      if mode == "new" {
        added := Int32Iovec(k, 1);
      } else if mode == "inherit" {
        added := Int32Iovec(k, 2);
      } else if mode == "disable" && k != VNet {
        added := Int32Iovec(k, 0);
      } else {
        return Err(k);
      }
    }
    EncodeNext(iov, c, parse, done, k, added);
    return Ok(iov + added);
  }

  method AppendAddrs(iov: seq<Iovec>, c: CreateParams, parse: Parser, ghost done: set<Key>, k: Key,
                     addrs: seq<GoString>)
    returns (r: Result<seq<Iovec>>)
    requires Encodes(iov, c, parse, done) && k !in done
    requires (k == Ip4Addr && addrs == c.ip4Addr) || (k == Ip6Addr && addrs == c.ip6Addr)
    ensures if KeyOk(c, parse, k) then r.Ok? && Encodes(r.value, c, parse, done + {k}) else r == Err(k)
  {
    if addrs == [] {
      EncodeNext(iov, c, parse, done, k, []);
      assert iov + [] == iov;
      return Ok(iov);
    }
    var added := AddrIovec(k, parse, addrs, k == Ip6Addr);
    if added.None? { return Err(k); }
    EncodeNext(iov, c, parse, done, k, added.value);
    return Ok(iov + added.value);
  }

  /** A string; the host and domain names are passed only when they are not empty. */
  method AppendString(iov: seq<Iovec>, c: CreateParams, parse: Parser, ghost done: set<Key>, k: Key, value: GoString)
    returns (r: Result<seq<Iovec>>)
    requires Encodes(iov, c, parse, done) && k !in done
    requires || (k == Name && value == c.name) || (k == Root && value == c.root)
             || (k == Hostname && value == c.hostname) || (k == Domainname && value == c.domainname)
    ensures if KeyOk(c, parse, k) then r.Ok? && Encodes(r.value, c, parse, done + {k}) else r == Err(k)
  {
    if (k == Hostname || k == Domainname) && value == "" {
      EncodeNext(iov, c, parse, done, k, []);
      assert iov + [] == iov;
      return Ok(iov);
    }
    var added := StringIovec(k, value);
    if added.None? { return Err(k); }
    EncodeNext(iov, c, parse, done, k, added.value);
    return Ok(iov + added.value);
  }

  /** A shared host cannot have names of its own. */
  method AppendHost(iov: seq<Iovec>, c: CreateParams, parse: Parser, ghost done: set<Key>)
    returns (r: Result<seq<Iovec>>)
    requires Encodes(iov, c, parse, done) && HostMode !in done
    ensures if KeyOk(c, parse, HostMode) then r.Ok? && Encodes(r.value, c, parse, done + {HostMode})
            else r == Err(HostMode)
  {
    var added: seq<Iovec> := [];
    if c.host != "" {
      if c.host == "new" {
        added := Int32Iovec(HostMode, 1);
      } else if c.host == "inherit" {
        if c.hostname != "" { return Err(HostMode); }
        if c.domainname != "" { return Err(HostMode); }
        added := Int32Iovec(HostMode, 2);
      } else {
        return Err(HostMode);
      }
    }
    EncodeNext(iov, c, parse, done, HostMode, added);
    return Ok(iov + added);
  }

  method AppendStatfs(iov: seq<Iovec>, c: CreateParams, parse: Parser, ghost done: set<Key>)
    returns (r: Result<seq<Iovec>>)
    requires Encodes(iov, c, parse, done) && Statfs !in done
    ensures if KeyOk(c, parse, Statfs) then r.Ok? && Encodes(r.value, c, parse, done + {Statfs}) else r == Err(Statfs)
  {
    var added: seq<Iovec> := [];
    if c.enforceStatfs.Some? {
      var v := c.enforceStatfs.value;
      if v < 0 || v > 2 { return Err(Statfs); }
      added := Int32Iovec(Statfs, v);
    }
    EncodeNext(iov, c, parse, done, Statfs, added);
    return Ok(iov + added);
  }

  /** Mode and addresses of one address family. */
  method AppendFamily(iov: seq<Iovec>, c: CreateParams, parse: Parser, ghost done: set<Key>, v6: bool)
    returns (r: Result<seq<Iovec>>)
    requires Encodes(iov, c, parse, done)
    requires done !! FamilyKeys(v6)
    ensures r.Ok? ==> Encodes(r.value, c, parse, done + FamilyKeys(v6))
    ensures r.Err? ==> !KeyOk(c, parse, r.key)
  {
    var mode, addr := if v6 then Ip6 else Ip4, if v6 then Ip6Addr else Ip4Addr;
    r := AppendMode(iov, c, parse, done, mode, if v6 then c.ip6 else c.ip4);
    if r.Err? { return; }
    r := AppendAddrs(r.value, c, parse, done + {mode}, addr, if v6 then c.ip6Addr else c.ip4Addr);
    assert done + {mode} + {addr} == done + FamilyKeys(v6);
  }

  function FamilyKeys(v6: bool): set<Key> { if v6 then {Ip6, Ip6Addr} else {Ip4, Ip4Addr} }

  const UTS: set<Key> := PATHS + {Hostname, Domainname} + {HostMode}

  method EncodeUts(c: CreateParams, parse: Parser) returns (r: Result<seq<Iovec>>)
    ensures r.Ok? ==> Encodes(r.value, c, parse, UTS)
    ensures r.Err? ==> !KeyOk(c, parse, r.key)
  {
    r := EncodePaths(c, parse);
    if r.Err? { return; }
    r := EncodeNames(r.value, c, parse, PATHS);
  }

  const PATHS: set<Key> := {Name, Root}

  /** The jail's name and root. */
  method EncodePaths(c: CreateParams, parse: Parser) returns (r: Result<seq<Iovec>>)
    ensures r.Ok? ==> Encodes(r.value, c, parse, PATHS)
    ensures r.Err? ==> !KeyOk(c, parse, r.key)
  {
    ghost var none: set<Key> := {};
    assert TableOf(c, parse, none) == map[];
    r := AppendStrings([], c, parse, none, Name, c.name, Root, c.root);
    assert none + {Name, Root} == PATHS;
  }

  /** The names of the host, and how they are shared. */
  method EncodeNames(iov: seq<Iovec>, c: CreateParams, parse: Parser, ghost done: set<Key>)
    returns (r: Result<seq<Iovec>>)
    requires Encodes(iov, c, parse, done) && Hostname !in done && Domainname !in done && HostMode !in done
    ensures r.Ok? ==> Encodes(r.value, c, parse, done + {Hostname, Domainname} + {HostMode})
    ensures r.Err? ==> !KeyOk(c, parse, r.key)
  {
    r := AppendStrings(iov, c, parse, done, Hostname, c.hostname, Domainname, c.domainname);
    if r.Err? { return; }
    r := AppendHost(r.value, c, parse, done + {Hostname, Domainname});
  }

  /** Two strings, one after the other. */
  method AppendStrings(iov: seq<Iovec>, c: CreateParams, parse: Parser, ghost done: set<Key>,
                       k: Key, value: GoString, l: Key, other: GoString)
    returns (r: Result<seq<Iovec>>)
    requires Encodes(iov, c, parse, done) && k !in done && l !in done
    requires || (k == Name && value == c.name && l == Root && other == c.root)
             || (k == Hostname && value == c.hostname && l == Domainname && other == c.domainname)
    ensures r.Ok? ==> Encodes(r.value, c, parse, done + {k, l})
    ensures r.Err? ==> !KeyOk(c, parse, r.key)
  {
    r := AppendString(iov, c, parse, done, k, value);
    if r.Err? { return; }
    r := AppendString(r.value, c, parse, done + {k}, l, other);
    assert done + {k} + {l} == done + {k, l};
  }

  /** The network: vnet and both address families. */
  method EncodeNetwork(iov: seq<Iovec>, c: CreateParams, parse: Parser, ghost done: set<Key>)
    returns (r: Result<seq<Iovec>>)
    requires Encodes(iov, c, parse, done) && VNet !in done && done !! FamilyKeys(false) && done !! FamilyKeys(true)
    ensures r.Ok? ==> Encodes(r.value, c, parse, done + {VNet} + FamilyKeys(false) + FamilyKeys(true))
    ensures r.Err? ==> !KeyOk(c, parse, r.key)
  {
    r := AppendMode(iov, c, parse, done, VNet, c.vnet);
    if r.Err? { return; }
    r := EncodeFamilies(r.value, c, parse, done + {VNet});
  }

  method EncodeFamilies(iov: seq<Iovec>, c: CreateParams, parse: Parser, ghost done: set<Key>)
    returns (r: Result<seq<Iovec>>)
    requires Encodes(iov, c, parse, done) && done !! FamilyKeys(false) && done !! FamilyKeys(true)
    ensures r.Ok? ==> Encodes(r.value, c, parse, done + FamilyKeys(false) + FamilyKeys(true))
    ensures r.Err? ==> !KeyOk(c, parse, r.key)
  {
    r := AppendFamily(iov, c, parse, done, false);
    if r.Err? { return; }
    r := AppendFamily(r.value, c, parse, done + FamilyKeys(false), true);
  }

  const NETWORKED: set<Key> := UTS + {VNet} + FamilyKeys(false) + FamilyKeys(true)

  lemma AllDone()
    ensures NETWORKED + {Statfs} + {Persist} == ALL && Statfs !in NETWORKED && Persist !in NETWORKED
  {}

  /** The file system visibility and the flag that keeps an empty jail alive. */
  method EncodeRest(iov: seq<Iovec>, c: CreateParams, parse: Parser, ghost done: set<Key>)
    returns (r: Result<seq<Iovec>>)
    requires Encodes(iov, c, parse, done) && Statfs !in done && Persist !in done
    ensures r.Ok? ==> Encodes(r.value, c, parse, done + {Statfs} + {Persist})
    ensures r.Err? ==> !KeyOk(c, parse, r.key)
  {
    r := AppendStatfs(iov, c, parse, done);
    if r.Err? { return; }
    EncodeNext(r.value, c, parse, done + {Statfs}, Persist, NilIovec(Persist));
    r := Ok(r.value + NilIovec(Persist));
  }

  /** Validation and encoding: exactly the acceptable parameters are encoded, an error
      names a parameter that is at fault, and decoding gives back every parameter. */
  method Encode(c: CreateParams, parse: Parser) returns (r: Result<seq<Iovec>>)
    ensures r.Ok? <==> Accepted(c, parse)
    ensures r.Err? ==> !KeyOk(c, parse, r.key)
    ensures r.Ok? ==> Decode(r.value) == Some(Meaning(c, parse)) && |r.value| % 2 == 0
  {
    r := EncodeUts(c, parse);
    if r.Err? { return; }
    r := EncodeNetwork(r.value, c, parse, UTS);
    if r.Err? { return; }
    AllDone();
    r := EncodeRest(r.value, c, parse, NETWORKED);
    if r.Err? { return; }
    EncodedAll(r.value, c, parse);
  }

  lemma EncodedAll(iov: seq<Iovec>, c: CreateParams, parse: Parser)
    requires Encodes(iov, c, parse, ALL)
    ensures Accepted(c, parse) && Decode(iov) == Some(Meaning(c, parse)) && |iov| % 2 == 0
  {
    forall k ensures KeyOk(c, parse, k) { AllKeys(k); }
    DecodeOfEncoded(iov, c, parse);
  }
}
