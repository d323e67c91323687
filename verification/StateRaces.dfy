/** Why `StateFile.CreateRemovesItsOwn` has a condition: a create whose state was deleted
    under it takes the state of the next create away when it fails. */
module StateRaces {
  import opened Wrappers
  import opened RunjState
  import opened Binary
  import opened StateFile

  ghost predicate Reachable(k: Codec, s: State) { exists ss, steps :: IsRun(k, ss, steps) && ss[|steps|] == s }

  lemma Reach(k: Codec, s: State, step: Step, s': State)
    requires Reachable(k, s) && Next(k, s, step, s')
    ensures Reachable(k, s')
  {
    var ss, steps :| IsRun(k, ss, steps) && ss[|steps|] == s;
    var ss', steps' := ss + [s'], steps + [step];
    forall i | 0 <= i < |steps'| ensures Next(k, ss'[i], steps'[i], ss'[i + 1]) {}
    assert IsRun(k, ss', steps') && ss'[|steps'|] == s';
  }

  /** The first create, the delete and the second create. */
  const FIRST: Tid := 1
  const DELETE: Tid := 2
  const SECOND: Tid := 3

  /** A create has passed O_EXCL: its state file is inode 0 and its temporary file inode 1. */
  function Claimed(pc: Pc, v: Record, document: Bytes): State {
    State(true, map[StateJson := 0, Temp(1) := 1], [[], document], map[FIRST := pc], {v}, Some(FIRST), {})
  }

  lemma ClaimId(k: Codec, v: Record)
    ensures Reachable(k, Claimed(SaveWrite(v, Initializing, 1), v, []))
  {
    var none: seq<Step> := [];
    assert IsRun(k, [INITIAL], none) && [INITIAL][|none|] == INITIAL;
    var s1 := INITIAL.(threads := map[FIRST := CreateMkdir(v)]);
    Reach(k, INITIAL, Arrive(FIRST, CreateMkdir(v)), s1);
    var s2 := State(true, map[], [], map[FIRST := CreateOpen(v)], {}, None, {});
    Reach(k, s1, Op(FIRST, Ok), s2);
    var s3 := State(true, map[StateJson := 0], [[]], map[FIRST := SaveTemp(v, Initializing)], {}, Some(FIRST), {});
    Reach(k, s2, Op(FIRST, Ok), s3);
    var s4 := Claimed(SaveWrite(v, Initializing, 1), v, []);
    assert s3.inodes + [[]] == s4.inodes;
    Reach(k, s3, Op(FIRST, Ok), s4);
  }

  /** The first create has saved its state, and its body runs. */
  function Saved(k: Codec, v: Record, pc: Pc): State {
    State(true, map[StateJson := 1], [[], k.enc(v)], map[FIRST := pc], {v}, Some(FIRST), {})
  }

  lemma SaveFirst(k: Codec, v: Record)
    requires CodecOk(k)
    ensures Reachable(k, Saved(k, v, CreateBody))
  {
    ClaimId(k, v);
    var doc := k.enc(v);
    assert doc != [] by { assert k.dec(k.enc(v)) == Some(v); }
    var s4 := Claimed(SaveWrite(v, Initializing, 1), v, []);
    var s5 := Claimed(SaveWrite(v, Initializing, 1), v, doc);
    assert [] + doc[0..0 + |doc|] == doc;
    assert s4.inodes[1 := doc] == s5.inodes;
    Reach(k, s4, Op(FIRST, Count(|doc|)), s5);
    var s6 := Claimed(SaveRename(v, Initializing, 1), v, doc);
    Reach(k, s5, Op(FIRST, Ok), s6);
    assert (s6.names - {Temp(1)})[StateJson := 1] == map[StateJson := 1];
    Reach(k, s6, Op(FIRST, Ok), Saved(k, v, CreateBody));
  }

  /** The state of the first create is deleted, and its own failure is under way. */
  function Deleted(k: Codec, v: Record): State {
    State(false, map[], [[], k.enc(v)], map[FIRST := CreateRemove, DELETE := Done(true)], {v}, None, {FIRST})
  }

  lemma DeleteFirst(k: Codec, v: Record)
    requires CodecOk(k)
    ensures Reachable(k, Deleted(k, v))
  {
    SaveFirst(k, v);
    var s7 := Saved(k, v, CreateBody);
    var s8 := Saved(k, v, CreateRemove);
    Reach(k, s7, Op(FIRST, Fail), s8);
    var s9 := s8.(threads := map[FIRST := CreateRemove, DELETE := DeleteRemove]);
    assert s8.threads[DELETE := DeleteRemove] == s9.threads;
    Reach(k, s8, Arrive(DELETE, DeleteRemove), s9);
    assert s9.threads[DELETE := Done(true)] == Deleted(k, v).threads;
    Reach(k, s9, Op(DELETE, Ok), Deleted(k, v));
  }

  /** The second create owns the id. */
  function Overtaken(k: Codec, v: Record): State {
    State(true, map[StateJson := 2], [[], k.enc(v), []],
          map[FIRST := CreateRemove, DELETE := Done(true), SECOND := SaveTemp(v, Initializing)],
          {v}, Some(SECOND), {FIRST})
  }

  lemma SecondWins(k: Codec, v: Record)
    requires CodecOk(k)
    ensures Reachable(k, Overtaken(k, v))
  {
    DeleteFirst(k, v);
    var s10 := Deleted(k, v);
    var s11 := s10.(threads := s10.threads[SECOND := CreateMkdir(v)]);
    Reach(k, s10, Arrive(SECOND, CreateMkdir(v)), s11);
    var s12 := s10.(dir := true, threads := s10.threads[SECOND := CreateOpen(v)]);
    assert s11.threads[SECOND := CreateOpen(v)] == s12.threads;
    Reach(k, s11, Op(SECOND, Ok), s12);
    assert s12.inodes + [[]] == Overtaken(k, v).inodes;
    assert s12.threads[SECOND := SaveTemp(v, Initializing)] == Overtaken(k, v).threads;
    Reach(k, s12, Op(SECOND, Ok), Overtaken(k, v));
  }

  /** With a delete in between, a failing create can remove the directory of a create that owns
      the id and still runs. */
  lemma FailureRemovesTheNextState(k: Codec, v: Record)
    requires CodecOk(k)
    ensures exists s, s' :: && Reachable(k, s) && Next(k, s, Op(FIRST, Ok), s') && s.threads[FIRST].CreateRemove?
                            && SECOND in s.threads && Won(s.threads[SECOND]) && s.owner == Some(SECOND)
                            && StateJson in s.names && !s'.dir && s'.names == map[]
  {
    SecondWins(k, v);
    var s := Overtaken(k, v);
    var s' := Removed(s).(threads := s.threads[FIRST := Done(false)]);
    assert Next(k, s, Op(FIRST, Ok), s');
  }
}
