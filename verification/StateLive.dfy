/** What Save, Load and create do when nothing fails, and why they fail when they do. */
module StateLive {
  import opened Wrappers
  import opened RunjState
  import opened Binary
  import opened StateFile
  import opened StateRaces

  // ----- what a Load returns -----

  /** What state.json says, if it is there. */
  function Content(k: Codec, s: State): Option<Record> {
    if StateJson in s.names && s.names[StateJson] < |s.inodes| then k.dec(s.inodes[s.names[StateJson]]) else None
  }

  /** The step in which t opens state.json. */
  predicate OpensAt(s: State, step: Step, t: Tid) {
    t in s.threads && s.threads[t].LoadOpen? && step.Op? && step.t == t
  }

  /** A file operation of t's Load fails. */
  predicate LoadFailsAt(s: State, step: Step, t: Tid) {
    t in s.threads && (s.threads[t].LoadOpen? || s.threads[t].LoadRead?) && step == Op(t, Fail)
  }

  lemma SealedForever(k: Codec, ss: seq<State>, steps: seq<Step>, m: nat, n: nat, ino: Ino)
    requires CodecOk(k) && IsRun(k, ss, steps) && m <= n < |ss| && Sealed(k, ss[m], ino)
    ensures Sealed(k, ss[n], ino) && ss[n].inodes[ino] == ss[m].inodes[ino]
  {
    if m < n {
      SealedForever(k, ss, steps, m, n - 1, ino);
      RunFilesOk(k, ss, steps, n - 1);
      var s, step, s' := ss[n - 1], steps[n - 1], ss[n];
      assert Next(k, s, step, s');
      if step.Op? { SealedStays(k, s, step.t, step.c, s', ino); }
    }
  }

  /** A reader has opened state.json at some point, and has what was in it then. */
  lemma {:induction false} ReaderOpened(k: Codec, ss: seq<State>, steps: seq<Step>, n: nat, t: Tid)
    requires CodecOk(k) && IsRun(k, ss, steps) && n < |ss|
    requires t in ss[n].threads && ss[n].threads[t].LoadRead?
    ensures exists i ::
              && 0 <= i < n && OpensAt(ss[i], steps[i], t)
              && StateJson in ss[i].names && ss[i].names[StateJson] == ss[n].threads[t].ino
  {
    if n > 0 {
      var s, step, s' := ss[n - 1], steps[n - 1], ss[n];
      assert Next(k, s, step, s');
      ReaderFrom(k, s, step, s', t);
      if t in s.threads && s.threads[t].LoadRead? {
        ReaderOpened(k, ss, steps, n - 1, t);
      } else {
        assert OpensAt(ss[n - 1], steps[n - 1], t);
      }
    }
  }

  lemma ReaderFrom(k: Codec, s: State, step: Step, s': State, t: Tid)
    requires Next(k, s, step, s') && t in s'.threads && s'.threads[t].LoadRead?
    ensures || (t in s.threads && s.threads[t].LoadRead? && s.threads[t].ino == s'.threads[t].ino)
            || (OpensAt(s, step, t) && StateJson in s.names && s.names[StateJson] == s'.threads[t].ino)
  {}

  /** The step in which a Load returns. */
  lemma ReturnFrom(k: Codec, s: State, step: Step, s': State, t: Tid)
    requires FilesOk(k, s) && Next(k, s, step, s') && t in s'.threads && s'.threads[t].Loaded?
    ensures || (t in s.threads && s.threads[t] == s'.threads[t])
            || LoadFailsAt(s, step, t)
            || (OpensAt(s, step, t) && StateJson !in s.names && s'.threads[t].result == None)
            || (&& t in s.threads && s.threads[t].LoadRead? && s.threads[t].ino < |s.inodes|
                && s'.threads[t].result == k.dec(s.inodes[s.threads[t].ino]))
  {
    if t in s.threads {
      assert PcOk(k, s, s.threads[t]);
      if s.threads[t].LoadRead? && |s.threads[t].buf| == |s.inodes[s.threads[t].ino]| {
        assert s.threads[t].buf == s.inodes[s.threads[t].ino];
      }
    }
  }

  /** A Load returns what state.json said at the moment in which it opened the file, unless
      one of its own file operations failed. */
  lemma {:induction false} LoadReadsStateJson(k: Codec, ss: seq<State>, steps: seq<Step>, n: nat, t: Tid)
    requires CodecOk(k) && IsRun(k, ss, steps) && n < |ss|
    requires t in ss[n].threads && ss[n].threads[t].Loaded?
    ensures || (exists i :: 0 <= i < n && LoadFailsAt(ss[i], steps[i], t))
            || (exists i :: 0 <= i < n && OpensAt(ss[i], steps[i], t) && ss[n].threads[t].result == Content(k, ss[i]))
  {
    if n > 0 {
      var s, step, s' := ss[n - 1], steps[n - 1], ss[n];
      assert Next(k, s, step, s');
      RunFilesOk(k, ss, steps, n - 1);
      ReturnFrom(k, s, step, s', t);
      if t in s.threads && s.threads[t] == s'.threads[t] {
        LoadReadsStateJson(k, ss, steps, n - 1, t);
      } else if t in s.threads && s.threads[t].LoadRead? && !LoadFailsAt(s, step, t) {
        ReaderOpened(k, ss, steps, n - 1, t);
        var i :| 0 <= i < n - 1 && OpensAt(ss[i], steps[i], t)
                 && StateJson in ss[i].names && ss[i].names[StateJson] == s.threads[t].ino;
        RunFilesOk(k, ss, steps, i);
        SealedForever(k, ss, steps, i, n - 1, s.threads[t].ino);
        assert ss[n].threads[t].result == Content(k, ss[i]);
      }
    }
  }

  // ----- commands whose operations all work -----

  predicate Holds(k: Codec, s: State, v: Record) {
    StateJson in s.names && s.names[StateJson] < |s.inodes| && s.inodes[s.names[StateJson]] == k.enc(v)
  }

  /** From every reachable state whose state.json holds v, a new Load can return v. */
  lemma LoadReadsBack(k: Codec, s: State, t: Tid, v: Record)
    requires CodecOk(k) && Reachable(k, s) && t !in s.threads && Holds(k, s, v)
    ensures Reachable(k, s.(threads := s.threads[t := Loaded(Some(v))]))
  {
    var doc, ino := k.enc(v), s.names[StateJson];
    assert k.dec(doc) == Some(v) && doc != [];
    var s1 := s.(threads := s.threads[t := LoadOpen]);
    Reach(k, s, Arrive(t, LoadOpen), s1);
    var s2 := s.(threads := s.threads[t := LoadRead(ino, [])]);
    assert s1.threads[t := LoadRead(ino, [])] == s2.threads;
    Reach(k, s1, Op(t, Ok), s2);
    var s3 := s.(threads := s.threads[t := LoadRead(ino, doc)]);
    assert [] + doc[0..0 + |doc|] == doc && s2.threads[t := LoadRead(ino, doc)] == s3.threads;
    Reach(k, s2, Op(t, Count(|doc|)), s3);
    assert s3.threads[t := Loaded(Some(v))] == s.threads[t := Loaded(Some(v))];
    Reach(k, s3, Op(t, Ok), s.(threads := s.threads[t := Loaded(Some(v))]));
  }

  /** What a Save that works leaves: state.json is the new file. */
  function SavedTo(k: Codec, s: State, v: Record): State {
    s.(inodes := s.inodes + [k.enc(v)], names := s.names[StateJson := |s.inodes|], saved := s.saved + {v})
  }

  /** From every reachable state in which a thread is about to save and the directory is there,
      it can get to the end, and then state.json holds what it saved. */
  lemma SaveWrites(k: Codec, s: State, t: Tid, v: Record, who: Caller)
    requires CodecOk(k) && Reachable(k, s) && t in s.threads && s.threads[t] == SaveTemp(v, who) && s.dir
    requires Temp(|s.inodes|) !in s.names
    ensures var s' := SavedTo(k, s, v).(threads := s.threads[t := Resume(who, true)]);
            Reachable(k, s') && Holds(k, s', v)
  {
    var ino, doc := |s.inodes|, k.enc(v);
    assert k.dec(doc) == Some(v) && doc != [];
    var named := s.(names := s.names[Temp(ino) := ino], saved := s.saved + {v});
    var s1 := named.(inodes := s.inodes + [[]], threads := s.threads[t := SaveWrite(v, who, ino)]);
    Reach(k, s, Op(t, Ok), s1);
    var s2 := named.(inodes := s.inodes + [doc], threads := s.threads[t := SaveWrite(v, who, ino)]);
    assert [] + doc[0..0 + |doc|] == doc && s1.inodes[ino := doc] == s2.inodes;
    assert s1.threads[t := SaveWrite(v, who, ino)] == s2.threads;
    Reach(k, s1, Op(t, Count(|doc|)), s2);
    var s3 := s2.(threads := s.threads[t := SaveRename(v, who, ino)]);
    assert s2.threads[t := SaveRename(v, who, ino)] == s3.threads;
    Reach(k, s2, Op(t, Ok), s3);
    var s4 := SavedTo(k, s, v).(threads := s.threads[t := Resume(who, true)]);
    assert (s3.names - {Temp(ino)})[StateJson := ino] == s4.names;
    assert s3.threads[t := Resume(who, true)] == s4.threads;
    Reach(k, s3, Op(t, Ok), s4);
  }

  /** No temporary file has a number that is still to come. */
  lemma FreshName(k: Codec, s: State)
    requires CodecOk(k) && Reachable(k, s)
    ensures Temp(|s.inodes|) !in s.names && FilesOk(k, s)
  {
    var ss, steps :| IsRun(k, ss, steps) && ss[|steps|] == s;
    RunFilesOk(k, ss, steps, |steps|);
  }

  /** start, state and kill can save a new state wherever the directory is there. */
  lemma UpdateWorks(k: Codec, s: State, t: Tid, v: Record)
    requires CodecOk(k) && Reachable(k, s) && t !in s.threads && s.dir
    ensures exists s' :: Reachable(k, s') && Holds(k, s', v) && t in s'.threads && s'.threads[t] == Done(true)
                         && s'.owner == s.owner
  {
    var s1 := s.(threads := s.threads[t := SaveTemp(v, Updating)]);
    Reach(k, s, Arrive(t, SaveTemp(v, Updating)), s1);
    FreshName(k, s1);
    SaveWrites(k, s1, t, v, Updating);
  }

  /** A create that finds no state file can claim the id, save its first state and get to its body. */
  lemma CreateClaims(k: Codec, s: State, t: Tid, v: Record)
    requires CodecOk(k) && Reachable(k, s) && t !in s.threads && StateJson !in s.names
    ensures exists s' :: Reachable(k, s') && Holds(k, s', v) && t in s'.threads && s'.threads[t] == CreateBody
                         && s'.owner == Some(t) && s'.dir
  {
    var s1 := s.(threads := s.threads[t := CreateMkdir(v)]);
    Reach(k, s, Arrive(t, CreateMkdir(v)), s1);
    var s2 := s.(dir := true, threads := s.threads[t := CreateOpen(v)]);
    assert s1.threads[t := CreateOpen(v)] == s2.threads;
    Reach(k, s1, Op(t, Ok), s2);
    var s3 := s.(dir := true, inodes := s.inodes + [[]], names := s.names[StateJson := |s.inodes|], owner := Some(t),
                 threads := s.threads[t := SaveTemp(v, Initializing)]);
    assert s2.threads[t := SaveTemp(v, Initializing)] == s3.threads;
    Reach(k, s2, Op(t, Ok), s3);
    FreshName(k, s3);
    SaveWrites(k, s3, t, v, Initializing);
  }

  /** And from its body it can save its last state and succeed. */
  lemma CreateFinishes(k: Codec, s: State, t: Tid, v: Record)
    requires CodecOk(k) && Reachable(k, s) && t in s.threads && s.threads[t] == CreateBody && s.dir
    ensures exists s' :: Reachable(k, s') && Holds(k, s', v) && t in s'.threads && s'.threads[t] == Done(true)
                         && s'.owner == s.owner
  {
    var s1 := s.(threads := s.threads[t := SaveTemp(v, Finalizing)]);
    Reach(k, s, Op(t, Value(v)), s1);
    FreshName(k, s1);
    SaveWrites(k, s1, t, v, Finalizing);
  }

  /** A delete can remove what is there, so that the id is free. */
  lemma DeleteFrees(k: Codec, s: State, t: Tid)
    requires CodecOk(k) && Reachable(k, s) && t !in s.threads
    ensures exists s' :: Reachable(k, s') && t in s'.threads && s'.threads[t] == Done(true)
                         && !s'.dir && s'.names == map[] && s'.owner == None
  {
    var s1 := s.(threads := s.threads[t := DeleteRemove]);
    Reach(k, s, Arrive(t, DeleteRemove), s1);
    var s2 := Removed(s1).(threads := s1.threads[t := Done(true)]);
    Reach(k, s1, Op(t, Ok), s2);
  }

  // ----- why a command fails -----

  /** The step in which a command that does not load ends without success: one of its operations
      fails, create finds a state file, the directory is gone, or a create has undone itself. */
  predicate FailsAt(s: State, step: Step, t: Tid) {
    && t in s.threads && step.Op? && step.t == t
    && match s.threads[t]
       case CreateMkdir(_) => step.c.Fail?
       case CreateOpen(_) => step.c.Fail? || !s.dir || StateJson in s.names
       case SaveTemp(_, _) => step.c.Fail? || !s.dir
       case SaveUnlink(_, _) => true // after a write that failed
       case CreateRemove => true     // after a body that failed
       case _ => false
  }

  lemma EndsFrom(k: Codec, s: State, step: Step, s': State, t: Tid)
    requires Next(k, s, step, s') && t in s'.threads && s'.threads[t] == Done(false)
    ensures (t in s.threads && s.threads[t] == Done(false)) || FailsAt(s, step, t)
  {}

  /** Every command that ends without success has such a step behind it. */
  lemma {:induction false} FailureHasACause(k: Codec, ss: seq<State>, steps: seq<Step>, n: nat, t: Tid)
    requires IsRun(k, ss, steps) && n < |ss| && t in ss[n].threads && ss[n].threads[t] == Done(false)
    ensures exists i :: 0 <= i < n && FailsAt(ss[i], steps[i], t)
  {
    if n > 0 {
      assert Next(k, ss[n - 1], steps[n - 1], ss[n]);
      EndsFrom(k, ss[n - 1], steps[n - 1], ss[n], t);
      if !FailsAt(ss[n - 1], steps[n - 1], t) { FailureHasACause(k, ss, steps, n - 1, t); }
    }
  }
}
