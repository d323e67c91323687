/** The kernel's mount table, and mounting and unmounting the mounts of a container. */
module Mounts {
  import opened Wrappers

  /** A path as its components; `abs` if it starts at the root directory. */
  datatype Path = Path(abs: bool, comps: seq<string>)

  type Dir = seq<string> // an absolute directory

  function Join(a: Path, b: Path): Path { Path(a.abs, a.comps + b.comps) }

  function Resolve(cwd: Dir, p: Path): Dir { if p.abs then p.comps else cwd + p.comps }

  datatype Entry = Entry(at: Dir, source: string, fstype: string)

  type Table = seq<Entry> // in mount order: a later entry covers an earlier one at the same place

  // ----- unmount(2) -----

  /** The topmost mount at a directory. */
  function Top(table: Table, at: Dir): (i: Option<nat>)
    ensures i.Some? ==> i.value < |table| && table[i.value].at == at
    ensures i.Some? ==> forall j | i.value < j < |table| :: table[j].at != at
    ensures i.None? ==> forall j | 0 <= j < |table| :: table[j].at != at
  {
    if table == [] then None
    else if table[|table| - 1].at == at then Some(|table| - 1)
    else Top(table[..|table| - 1], at)
  }

  /** A mount is busy while something is mounted below it. */
  predicate Busy(table: Table, i: nat)
    requires i < |table|
  {
    exists j :: i < j < |table| && table[i].at < table[j].at
  }

  function Unmounted(table: Table, at: Dir): Option<Table> {
    match Top(table, at)
    case None => None
    case Some(i) => if Busy(table, i) then None else Some(table[..i] + table[i + 1..])
  }

  /** The last mount can always be undone. */
  lemma UnmountLast(table: Table, e: Entry)
    ensures Unmounted(table + [e], e.at) == Some(table)
  {
    var t := table + [e];
    assert t[|t| - 1] == e;
    assert t[..|table|] + t[|table| + 1..] == table;
  }

  // ----- jail.Unmount: from the last target to the first, keeping the first error -----

  /** One unmount, if it is allowed to work. */
  function Attempted(table: Table, at: Dir, allowed: bool): Option<Table> {
    if allowed then Unmounted(table, at) else None
  }

  /** The table and the position of the first target, counted from the end, whose
      unmount failed; `ok(k)` says whether the k-th call is allowed to work. */
  function UnmountAll(table: Table, targets: seq<Dir>, ok: nat -> bool, k: nat): (Table, Option<nat>) {
    if targets == [] then (table, None)
    else
      var n := |targets| - 1;
      var now := Attempted(table, targets[n], ok(k));
      var rest := UnmountAll(now.GetOr(table), targets[..n], ok, k + 1);
      (rest.0, if now.None? then Some(n) else rest.1)
  }

  /** The end of unmounting the first targets, when err is the first error met before. */
  function Rest(table: Table, err: Option<nat>, targets: seq<Dir>, ok: nat -> bool, k: nat): (Table, Option<nat>) {
    var (t, e) := UnmountAll(table, targets, ok, k);
    (t, if err.Some? then err else e)
  }

  lemma RestNext(table: Table, err: Option<nat>, targets: seq<Dir>, i: nat, ok: nat -> bool, k: nat)
    requires i < |targets|
    ensures var now := Attempted(table, targets[i], ok(k));
            Rest(table, err, targets[..i + 1], ok, k)
            == Rest(now.GetOr(table), if err.None? && now.None? then Some(i) else err, targets[..i], ok, k + 1)
  {
    assert targets[..i + 1][..i] == targets[..i];
  }

  function Places(entries: seq<Entry>): (ts: seq<Dir>)
    ensures |ts| == |entries|
    ensures forall i | 0 <= i < |ts| :: ts[i] == entries[i].at
  {
    seq(|entries|, i requires 0 <= i < |entries| => entries[i].at)
  }

  /** Unmounting in reverse what was mounted gives the table back, however the
      destinations nest or repeat, and reports no error. */
  lemma {:induction false} MountThenUnmount(table: Table, entries: seq<Entry>, ok: nat -> bool, k: nat)
    requires forall j: nat :: ok(j)
    ensures UnmountAll(table + entries, Places(entries), ok, k) == (table, None)
  {
    if entries == [] {
      assert table + entries == table;
    } else {
      var n := |entries| - 1;
      var front := entries[..n];
      assert table + entries == (table + front) + [entries[n]];
      UnmountLast(table + front, entries[n]);
      assert Places(entries)[..n] == Places(front);
      MountThenUnmount(table, front, ok, k + 1);
    }
  }

  /** The table after every target behind the first i was unmounted, if all that worked. */
  function Behind(table: Table, targets: seq<Dir>, ok: nat -> bool, k: nat, i: nat): Option<Table>
    requires i <= |targets|
  {
    if |targets| == i then Some(table)
    else
      var n := |targets| - 1;
      var now := Attempted(table, targets[n], ok(k));
      if now.None? then None else Behind(now.value, targets[..n], ok, k + 1, i)
  }

  /** Every target was unmounted, or the i-th was refused when all those behind it were. */
  predicate Reported(table: Table, targets: seq<Dir>, ok: nat -> bool, k: nat, after: Table, err: Option<nat>) {
    match err
    case None => Behind(table, targets, ok, k, 0) == Some(after)
    case Some(i) =>
      && i < |targets|
      && Behind(table, targets, ok, k, i + 1).Some?
      && Attempted(Behind(table, targets, ok, k, i + 1).value, targets[i], ok(k + |targets| - 1 - i)).None?
  }

  /** The error that is reported is the first one met: everything behind it worked,
      and that target was refused.  No error means that every target was unmounted. */
  lemma {:induction false} UnmountKeepsFirstError(table: Table, targets: seq<Dir>, ok: nat -> bool, k: nat)
    ensures var (t, err) := UnmountAll(table, targets, ok, k);
            Reported(table, targets, ok, k, t, err)
  {
    if targets != [] {
      var n := |targets| - 1;
      var now := Attempted(table, targets[n], ok(k));
      if now.Some? {
        var front := targets[..n];
        UnmountKeepsFirstError(now.value, front, ok, k + 1);
        var (t, err) := UnmountAll(now.value, front, ok, k + 1);
        ReportedMore(table, targets, ok, k, now.value, t, err);
      } else {
        assert Behind(table, targets, ok, k, n + 1) == Some(table);
      }
    }
  }

  lemma ReportedMore(table: Table, targets: seq<Dir>, ok: nat -> bool, k: nat, now: Table, t: Table, err: Option<nat>)
    requires targets != [] && Attempted(table, targets[|targets| - 1], ok(k)) == Some(now)
    requires Reported(now, targets[..|targets| - 1], ok, k + 1, t, err)
    ensures Reported(table, targets, ok, k, t, err)
  {
    if err.Some? {
      assert Behind(table, targets, ok, k, err.value + 1)
          == Behind(now, targets[..|targets| - 1], ok, k + 1, err.value + 1);
    }
  }

  /** Each table is the next one with its target unmounted, or the same where that is refused. */
  predicate Tries(ts: seq<Table>, targets: seq<Dir>, ok: nat -> bool, k: nat) {
    && |ts| == |targets| + 1
    && forall i | 0 <= i < |targets| ::
         ts[i] == Attempted(ts[i + 1], targets[i], ok(k + |targets| - 1 - i)).GetOr(ts[i + 1])
  }

  lemma TriesMore(ts: seq<Table>, table: Table, targets: seq<Dir>, ok: nat -> bool, k: nat)
    requires targets != [] && Tries(ts, targets[..|targets| - 1], ok, k + 1)
    requires ts[|targets| - 1] == Attempted(table, targets[|targets| - 1], ok(k)).GetOr(table)
    ensures Tries(ts + [table], targets, ok, k)
  {}

  /** Every target is tried, from the last to the first, on the table the ones behind it left;
      one that is refused changes nothing. */
  lemma {:induction false} UnmountTriesEach(table: Table, targets: seq<Dir>, ok: nat -> bool, k: nat)
    returns (ts: seq<Table>)
    ensures Tries(ts, targets, ok, k) && ts[|targets|] == table && ts[0] == UnmountAll(table, targets, ok, k).0
  {
    if targets == [] {
      ts := [table];
    } else {
      var n := |targets| - 1;
      ts := UnmountTriesEach(Attempted(table, targets[n], ok(k)).GetOr(table), targets[..n], ok, k + 1);
      TriesMore(ts, table, targets, ok, k);
      ts := ts + [table];
    }
  }

  /** An unmount takes one mount at its target away and no other. */
  lemma UnmountedPlace(table: Table, at: Dir)
    requires Unmounted(table, at).Some?
    ensures multiset(Places(table)) == multiset(Places(Unmounted(table, at).value)) + multiset{at}
  {
    var i := Top(table, at).value;
    var ps := Places(table);
    assert ps == ps[..i] + [at] + ps[i + 1..];
    assert Places(Unmounted(table, at).value) == ps[..i] + ps[i + 1..];
  }

  /** When no unmount is refused, the last target goes first and the others follow. */
  lemma LastTargetFirst(table: Table, targets: seq<Dir>, ok: nat -> bool, k: nat)
    requires targets != [] && UnmountAll(table, targets, ok, k).1.None?
    ensures var now := Unmounted(table, targets[|targets| - 1]);
            now.Some? && UnmountAll(table, targets, ok, k) == UnmountAll(now.value, targets[..|targets| - 1], ok, k + 1)
  {}

  /** When no unmount is refused, the places that are gone are the targets, each as often as it was one. */
  lemma {:induction false} UnmountedPlaces(table: Table, targets: seq<Dir>, ok: nat -> bool, k: nat)
    requires UnmountAll(table, targets, ok, k).1.None?
    ensures multiset(Places(table)) == multiset(Places(UnmountAll(table, targets, ok, k).0)) + multiset(targets)
  {
    if targets != [] {
      var n := |targets| - 1;
      LastTargetFirst(table, targets, ok, k);
      UnmountedPlace(table, targets[n]);
      var now := Unmounted(table, targets[n]).value;
      UnmountedPlaces(now, targets[..n], ok, k + 1);
      OneMorePlace(table, now, UnmountAll(now, targets[..n], ok, k + 1).0, targets);
    }
  }

  lemma OneMorePlace(table: Table, now: Table, after: Table, targets: seq<Dir>)
    requires targets != [] && multiset(Places(table)) == multiset(Places(now)) + multiset{targets[|targets| - 1]}
    requires multiset(Places(now)) == multiset(Places(after)) + multiset(targets[..|targets| - 1])
    ensures multiset(Places(table)) == multiset(Places(after)) + multiset(targets)
  {
    assert targets == targets[..|targets| - 1] + [targets[|targets| - 1]];
  }

  /** If unmounting gives the table back, then the targets are the places that were mounted. */
  lemma RestoredMeansSamePlaces(table: Table, entries: seq<Entry>, targets: seq<Dir>, ok: nat -> bool, k: nat)
    requires UnmountAll(table + entries, targets, ok, k) == (table, None)
    ensures multiset(targets) == multiset(Places(entries))
  {
    UnmountedPlaces(table + entries, targets, ok, k);
    PlacesOfBoth(table, entries);
    Cancel(multiset(Places(table)), multiset(Places(entries)), multiset(targets));
  }

  lemma PlacesOfBoth(table: Table, entries: seq<Entry>)
    ensures multiset(Places(table + entries)) == multiset(Places(table)) + multiset(Places(entries))
  {
    assert Places(table + entries) == Places(table) + Places(entries);
  }

  lemma Cancel(a: multiset<Dir>, b: multiset<Dir>, c: multiset<Dir>)
    requires a + b == a + c
    ensures b == c
  {
    forall t ensures b[t] == c[t] { assert (a + b)[t] == (a + c)[t]; }
  }

  // ----- a container's own mounts, whatever was mounted before -----

  /** A place among the later entries is found there, and only they can keep it busy. */
  lemma UnmountAbove(table: Table, entries: Table, at: Dir)
    requires at in Places(entries)
    ensures Unmounted(table + entries, at).Some? <==> Unmounted(entries, at).Some?
    ensures Unmounted(entries, at).Some? ==>
              Unmounted(table + entries, at) == Some(table + Unmounted(entries, at).value)
  {
    var all, n := table + entries, |table|;
    var p :| 0 <= p < |entries| && Places(entries)[p] == at;
    assert entries[p].at == at && all[n + p].at == at;
    var i := Top(entries, at).value;
    TopIs(all, at, n + i);
    BusyAbove(table, entries, i);
    RestAbove(table, entries, i);
  }

  lemma BusyAbove(table: Table, entries: Table, i: nat)
    requires i < |entries|
    ensures Busy(table + entries, |table| + i) <==> Busy(entries, i)
  {
    var all, n := table + entries, |table|;
    if j :| n + i < j < |all| && all[n + i].at < all[j].at {
      assert entries[i].at < entries[j - n].at;
    }
    if j :| i < j < |entries| && entries[i].at < entries[j].at {
      assert all[n + i].at < all[n + j].at;
    }
  }

  lemma RestAbove(table: Table, entries: Table, i: nat)
    requires i < |entries|
    ensures var all := table + entries;
            all[..|table| + i] + all[|table| + i + 1..] == table + (entries[..i] + entries[i + 1..])
  {}

  lemma TopIs(table: Table, at: Dir, i: nat)
    requires i < |table| && table[i].at == at && forall j | i < j < |table| :: table[j].at != at
    ensures Top(table, at) == Some(i)
  {}

  /** What unmounts the container's mounts alone does so on top of every table. */
  lemma {:induction false} UnmountAllAbove(table: Table, entries: Table, targets: seq<Dir>, ok: nat -> bool, k: nat)
    requires UnmountAll(entries, targets, ok, k) == ([], None)
    ensures UnmountAll(table + entries, targets, ok, k) == (table, None)
  {
    if targets == [] {
      assert table + [] == table;
    } else {
      var at := targets[|targets| - 1];
      LastTargetFirst(entries, targets, ok, k);
      UnmountedThere(entries, at);
      UnmountAbove(table, entries, at);
      UnmountAllAbove(table, Unmounted(entries, at).value, targets[..|targets| - 1], ok, k + 1);
    }
  }

  lemma UnmountedThere(table: Table, at: Dir)
    requires Unmounted(table, at).Some?
    ensures at in Places(table)
  {
    assert Places(table)[Top(table, at).value] == at;
  }

  /** And nothing else does: the table before comes back only if the container's mounts alone
      would have been unmounted. */
  lemma UnmountAllWithin(table: Table, entries: Table, targets: seq<Dir>, ok: nat -> bool, k: nat)
    requires UnmountAll(table + entries, targets, ok, k) == (table, None)
    ensures UnmountAll(entries, targets, ok, k) == ([], None)
  {
    RestoredMeansSamePlaces(table, entries, targets, ok, k);
    SamePlacesUnmounted(table, entries, targets, ok, k);
  }

  lemma {:induction false} SamePlacesUnmounted(table: Table, entries: Table, targets: seq<Dir>, ok: nat -> bool, k: nat)
    requires multiset(targets) == multiset(Places(entries)) && UnmountAll(table + entries, targets, ok, k).1.None?
    ensures UnmountAll(entries, targets, ok, k) == ([], None)
  {
    if targets == [] {
      assert |multiset(Places(entries))| == |entries|;
    } else {
      var at, front := targets[|targets| - 1], targets[..|targets| - 1];
      assert at in multiset(targets);
      LastTargetFirst(table + entries, targets, ok, k);
      UnmountAbove(table, entries, at);
      var now := Unmounted(entries, at).value;
      UnmountedPlace(entries, at);
      FrontPlaces(targets, multiset(Places(entries)), multiset(Places(now)));
      SamePlacesUnmounted(table, now, front, ok, k + 1);
    }
  }

  lemma FrontPlaces(targets: seq<Dir>, all: multiset<Dir>, now: multiset<Dir>)
    requires targets != [] && multiset(targets) == all && all == now + multiset{targets[|targets| - 1]}
    ensures multiset(targets[..|targets| - 1]) == now
  {
    var front, at := targets[..|targets| - 1], targets[|targets| - 1];
    assert targets == front + [at];
    assert multiset(targets) == multiset(front) + multiset{at};
    forall t ensures multiset(front)[t] == now[t] {
      assert multiset(targets)[t] == multiset(front)[t] + multiset{at}[t];
      assert all[t] == now[t] + multiset{at}[t];
    }
  }

  /** When no unmount is refused, it does not matter which calls would have been allowed. */
  lemma {:induction false} SameWhenWorking(table: Table, targets: seq<Dir>, ok: nat -> bool, k: nat, all: nat -> bool,
                                           l: nat)
    requires UnmountAll(table, targets, ok, k).1.None? && forall n: nat :: all(n)
    ensures UnmountAll(table, targets, all, l) == UnmountAll(table, targets, ok, k)
  {
    if targets != [] {
      var at := targets[|targets| - 1];
      LastTargetFirst(table, targets, ok, k);
      SameWhenWorking(Unmounted(table, at).value, targets[..|targets| - 1], ok, k + 1, all, l + 1);
    }
  }
}
