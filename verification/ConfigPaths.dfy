/** The two views of one configuration agree: the strings of `OciConfig`, from which the
    kernel's parameters come, and the paths of `HostCalls`, where the mounts go. */
module ConfigPaths {
  import opened Wrappers
  import opened Binary
  import opened Mounts
  import HostCalls
  import OciConfig

  /** The components between the slashes; empty ones and `.` name nothing. */
  function Components(s: string): seq<string> {
    if s == "" then []
    else
      var rest := Components(s[1..]);
      if s[0] == '/' then rest
      else
        var n := WordLength(s);
        var word := s[..n];
        if word == "." then Components(s[n..]) else [word] + Components(s[n..])
  }

  /** How far the first component reaches. */
  function WordLength(s: string): (n: nat)
    requires s != "" && s[0] != '/'
    ensures 0 < n <= |s|
  {
    if |s| == 1 || s[1] == '/' then 1 else 1 + WordLength(s[1..])
  }

  function ParsePath(s: string): Path { Path(s != "" && s[0] == '/', Components(s)) }

  /** No component leads upwards. */
  predicate Plain(s: string) { ".." !in Components(s) }

  /** filepath.Join of paths that do not lead upwards: the names of both, from the first. */
  ghost predicate Joins(join: (GoString, GoString) -> GoString) {
    forall a: GoString, b: GoString | a != "" && Plain(a) && Plain(b) ::
      ParsePath(join(a, b)) == Join(ParsePath(a), ParsePath(b))
  }

  // ----- joining with a slash is such a join -----

  function SlashJoin(a: GoString, b: GoString): GoString { a + "/" + b }

  lemma {:induction false} WordOfJoined(a: string, b: string)
    requires a != "" && a[0] != '/'
    ensures WordLength(a + "/" + b) == WordLength(a)
  {
    var all := a + "/" + b;
    assert all[0] == a[0] && all[1..] == a[1..] + "/" + b;
    if |a| == 1 {
      assert all[1] == '/';
    } else {
      assert all[1] == a[1];
      if a[1] != '/' { WordOfJoined(a[1..], b); }
    }
  }

  lemma {:induction false} ComponentsOfJoined(a: string, b: string)
    ensures Components(a + "/" + b) == Components(a) + Components(b)
    decreases |a|
  {
    var all := a + "/" + b;
    if a == "" {
      assert all == "/" + b && all[1..] == b;
    } else if a[0] == '/' {
      assert all[1..] == a[1..] + "/" + b;
      ComponentsOfJoined(a[1..], b);
    } else {
      var n := WordLength(a);
      WordOfJoined(a, b);
      assert all[..n] == a[..n] && all[n..] == a[n..] + "/" + b;
      ComponentsOfJoined(a[n..], b);
    }
  }

  lemma SlashJoins()
    ensures Joins(SlashJoin)
  {
    forall a: GoString, b: GoString | a != ""
      ensures ParsePath(SlashJoin(a, b)) == Join(ParsePath(a), ParsePath(b))
    {
      ComponentsOfJoined(a, b);
      assert SlashJoin(a, b)[0] == a[0];
    }
  }

  /** `root` as delete finds it in the file; an absent section and an absent path are kept apart there. */
  function RootOf(present: bool, root: GoString): HostCalls.Root {
    if !present then HostCalls.NoRoot
    else if root == "" then HostCalls.EmptyRoot
    else HostCalls.RootPath(ParsePath(root))
  }

  /** The root path that goes to the kernel is the one below which create mounts. */
  lemma SameRootPath(bundle: GoString, present: bool, root: GoString, join: (GoString, GoString) -> GoString)
    requires Joins(join) && bundle != "" && Plain(bundle) && Plain(root) && (present || root == "")
    ensures ParsePath(OciConfig.RootPath(bundle, root, join))
            == HostCalls.CreateRoot(ParsePath(bundle), RootOf(present, root))
  {
    RootComponents();
    assert ParsePath("root") == Path(false, ["root"]) && Plain("root");
  }

  lemma RootComponents()
    ensures Components("root") == ["root"]
  {
    assert WordLength("t") == 1 && WordLength("ot") == 2 && WordLength("oot") == 3 && WordLength("root") == 4;
    assert "root"[..4] == "root" && "root"[4..] == "";
  }

  /** What create does on the host for a configuration that says this of mounts and hooks. */
  function HostConfig(c: OciConfig.Config, present: bool, terminal: bool, version: string,
                      mounts: seq<HostCalls.OciMount>,
                      createHooks: nat, poststopHooks: nat): HostCalls.Config
  {
    HostCalls.Config(c.process, terminal, version, RootOf(present, c.root), mounts, c.JailOf().vnetInterfaces,
                     createHooks, poststopHooks)
  }

  /** An extension adds its interfaces behind those of the base, for the host as for the
      kernel, and changes nothing else there. */
  lemma HostSeesTheExtension(c: OciConfig.Config, ext: Option<OciConfig.Ext>, present: bool, terminal: bool,
                             version: string,
                             mounts: seq<HostCalls.OciMount>, createHooks: nat, poststopHooks: nat)
    ensures HostConfig(OciConfig.Merged(c, ext), present, terminal, version, mounts, createHooks, poststopHooks)
            == HostConfig(c, present, terminal, version, mounts, createHooks, poststopHooks).(
                 vnet := c.JailOf().vnetInterfaces + ext.GetOr(OciConfig.Ext(None)).Vnet().items)
  {
    OciConfig.MergedInterfaces(c, ext);
  }
}
