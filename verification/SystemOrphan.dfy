// The run in which an orphan is overtaken: a process dies between taking a file off the path and
// setting its RETIRED bit, and a reader of that file goes on returning its last value.
module SystemOrphan {
  import opened Bytes
  import opened Layout
  import opened Ring
  import opened RingInvariant
  import opened RingReader
  import opened System
  import opened SystemInvariant
  import opened SystemSafety
  import opened SystemChannel
  import opened SystemQuiet
  import opened SystemReading
  import opened SystemPublishing

  // ---- one process and one reader ---------------------------------------------------------------------------

  ghost predicate Reach(s: Sys) {
    exists acts :: Run(Init(1, 1), acts) == s
  }

  lemma ReachStep(s: Sys, a: Act)
    requires Reach(s)
    ensures Reach(Apply(s, a))
  {
    hide Apply;
    var acts :| Run(Init(1, 1), acts) == s;
    RunAppend(Init(1, 1), acts, [a]);
    assert Run(s, [a]) == Run(Apply(s, a), []) == Apply(s, a);
  }

  lemma ReachSafe(s: Sys)
    requires Reach(s)
    ensures SysInv(s)
  {
    hide SysInv, Run, Init;
    var acts :| Run(Init(1, 1), acts) == s;
    AllRunsSafe(1, 1, acts);
  }

  lemma {:induction false} ReachAlone(s: Sys, p: nat, random: u32, k: nat)
    requires Reach(s)
    ensures Reach(Alone(s, p, random, k))
    decreases k
  {
    hide Reach, Apply;
    if k > 0 {
      ReachStep(s, Advance(p, random));
      ReachAlone(Apply(s, Advance(p, random)), p, random, k - 1);
    }
  }

  lemma {:induction false} ReachLoads(s: Sys, j: nat, k: nat)
    requires Reach(s)
    ensures Reach(LoadsAlone(s, j, k))
    decreases k
  {
    hide Reach, Apply;
    if k > 0 {
      ReachStep(s, Load(j));
      ReachLoads(Apply(s, Load(j)), j, k - 1);
    }
  }

  lemma {:induction false} ReachStores(s: Sys, p: nat, t: u64, k: nat)
    requires Reach(s)
    ensures Reach(StoresAlone(s, p, t, k))
    decreases k
  {
    hide Reach, Apply;
    if k > 0 && p < |s.procs| {
      ReachStep(s, Publish(p, NextAct(s.procs[p].pc, t)));
      ReachStores(Apply(s, Publish(p, NextAct(s.procs[p].pc, t))), p, t, k - 1);
    }
  }

  // ---- its calls ---------------------------------------------------------------------------------------------

  const OLD := Opts(0, 2, 0, false, true, 0)
  const NEW := Opts(0, 2, 1, false, true, 0)

  /** The process is out of the channel, the lock file exists and is free, and the clock stands at 0. */
  predicate Idling(s: Sys) {
    && |s.procs| == 1 && s.procs[0].pc.Out? && |s.readers| == 1 && s.clock == 0
    && s.lockPath.Some? && s.lockPath.value < |s.holders| && s.holders[s.lockPath.value].None?
  }

  /** A small file without notifications that has been published to `n` times. */
  predicate Small(f: File, payloadType: u32, n: nat) {
    f.cap == 0 && |f.slots| == 2 && f.payloadType == payloadType && !f.notifyOn && f.minor == 0 && !f.retired && |f.log| == n && f.clock == 0
  }

  lemma NewIsSmall(o: Opts)
    requires o == OLD || o == NEW
    ensures Small(NewFile(o).f, o.payloadType, 0)
  {
    NewFileFits(o);
  }

  /** A publish of an empty value by a process that is done with opening, and its death. */
  lemma PublishesAndDies(s: Sys, fid: nat) returns (t: Sys)
    requires Reach(s) && |s.procs| == 1 && s.procs[0].pc.Write? && s.procs[0].pc.w.pc.Idle? && s.procs[0].pc.fid == fid
    requires fid < |s.files| && s.clock == 0 && s.files[fid].f.clock == 0 && !s.files[fid].f.notifyOn
    requires s.lockPath.Some? && s.procs[0].pc.ino == s.lockPath.value < |s.holders| && |s.readers| == 1
    ensures Reach(t) && Idling(t) && t.readers == s.readers && t.pubs == s.pubs + [Pub(fid, |s.files[fid].f.log|)]
    ensures t.dataPath == s.dataPath && t.orphans == s.orphans && |t.files| == |s.files|
    ensures t.files == s.files[fid := s.files[fid].(f := t.files[fid].f)]
    ensures var f, g := s.files[fid].f, t.files[fid].f;
            |g.log| == |f.log| + 1 && SameShape(f, g) && !g.retired && g.clock == 0
  {
    hide SysInv, Apply, StoresAlone, Reach;
    var s1, a := s, Begin(FromCaller([]));
    ReachSafe(s);
    PublishAlone(s, 0, [], 0);
    ReachStep(s, Publish(0, a));
    s1 := StoresAlone(Apply(s, Publish(0, a)), 0, 0, 7);
    ReachStores(Apply(s, Publish(0, a)), 0, 0, 7);
    ReachStep(s1, Crash(0));
    t := Apply(s1, Crash(0));
    DiesIdle(s1);
    assert t.files == s1.files;
  }

  lemma DiesIdle(s: Sys)
    requires |s.procs| == 1 && s.procs[0].pc.Write? && s.procs[0].pc.w.pc.Idle? && s.procs[0].pc.ino < |s.holders| && s.procs[0].pc.fid < |s.files|
    ensures Apply(s, Crash(0)) == s.(holders := s.holders[s.procs[0].pc.ino := None], procs := [s.procs[0].(pc := Out)])
  {
    var pc := s.procs[0].pc;
    assert s.files[pc.fid := s.files[pc.fid].(f := CrashFile(s.files[pc.fid].f, Writing(pc.w)))] == s.files;
  }

  lemma Nowhere()
    ensures Reach(Init(1, 1))
  {
    assert Run(Init(1, 1), []) == Init(1, 1);
  }

  /** The channel is created, attached to and published to, and its writer dies. */
  lemma Begins() returns (t: Sys)
    ensures Reach(t) && Holds(t, [Pub(0, 0)], {}) && |t.files| == 1 && t.dataPath == Some(0)
  {
    hide SysInv, Apply, Alone, LoadsAlone, Reach, Tmp, NewFile, HeaderValid;
    var s := Init(1, 1);
    Nowhere();
    NewIsSmall(OLD);
    OpenCreates(s, 0, OLD, 1);
    ReachStep(s, Start(0, OpenWriter(OLD)));
    ReachAlone(Apply(s, Start(0, OpenWriter(OLD))), 0, 1, OPEN_STEPS);
    var s1 := Alone(Apply(s, Start(0, OpenWriter(OLD))), 0, 1, OPEN_STEPS);
    ReachSafe(s1);
    AliveFollows(s1, 0, 0);
    ReachStep(s1, WriterAlive(0));
    ReachLoads(Apply(s1, WriterAlive(0)), 0, 4);
    var s2 := LoadsAlone(Apply(s1, WriterAlive(0)), 0, 4);
    t := PublishesAndDies(s2, 0);
  }

  /** File 0 holds one value and the reader is attached to it. */
  ghost predicate Holds(s: Sys, pubs: seq<Pub>, orphans: set<nat>) {
    && Idling(s) && |s.files| > 0 && Small(s.files[0].f, 0, 1)
    && s.readers[0].pc.Resting? && s.readers[0].att == Some(0) && s.readers[0].results == []
    && s.pubs == pubs && s.orphans == orphans
  }

  /** Another process replaces file 0 and dies before it sets its RETIRED bit. */
  lemma Drops(s: Sys) returns (t: Sys)
    requires Reach(s) && Holds(s, [Pub(0, 0)], {}) && |s.files| == 1 && s.dataPath == Some(0)
    ensures Reach(t) && Holds(t, [Pub(0, 0)], {0}) && |t.files| == 2 && t.files[1] == NewFile(NEW) && t.dataPath == Some(1)
  {
    hide SysInv, Apply, Alone, Reach, Tmp, NewFile, CarriedGen, At, Reopen;
    ReachSafe(s);
    AtDecision(s, 0, NEW, 0, 1);
    var f, u, ino, b, goal := s.files[0].f, s.unlinks, s.lockPath.value, Locked(s, 0), OpenWriter(NEW);
    var d := At(b, 0, goal, u, DataDecide(ino, 0, f.latest));
    ReachStep(s, Start(0, goal));
    ReachAlone(Apply(s, Start(0, goal)), 0, 1, LockSteps(s) + 2);
    Decided(b, 0, NEW, u, ino, 0, 1);
    ReachStep(d, Advance(0, 1));
    var gen := CarriedGen(f, f.latest, 1);
    Builds(b, 0, NEW, u, ino, Some(0), gen, 1);
    ReachAlone(At(b, 0, goal, u, TmpMake(ino, Some(0), gen)), 0, 1, HEADER_STORES + 2);
    var b' := b.(files := b.files + [NewFile(NEW)], dataPath := Some(1));
    var s1 := At(b', 0, goal, u, NewRetire(ino, 0, gen, 1, SetRetired));
    ReachStep(s1, Crash(0));
    t := Apply(s1, Crash(0));
    DiesOffPath(b', goal, u, ino, gen);
  }

  lemma DiesOffPath(b: Sys, goal: Goal, u: nat, ino: nat, gen: u32)
    requires |b.procs| == 1 && ino < |b.holders| && |b.files| > 0
    ensures Apply(At(b, 0, goal, u, NewRetire(ino, 0, gen, 1, SetRetired)), Crash(0))
         == b.(holders := b.holders[ino := None], orphans := b.orphans + {0}, procs := [Proc(Out, goal, u, u, 0, None)])
  {
    assert b.files[0 := b.files[0].(f := CrashFile(b.files[0].f, Retiring(SetRetired)))] == b.files;
  }

  /** A writer opens the new file and publishes. */
  lemma Overtakes(s: Sys) returns (t: Sys)
    requires Reach(s) && Holds(s, [Pub(0, 0)], {0}) && |s.files| == 2 && s.files[1] == NewFile(NEW) && s.dataPath == Some(1)
    ensures Reach(t) && Holds(t, [Pub(0, 0), Pub(1, 0)], {0})
  {
    hide SysInv, Apply, Alone, Reach, Tmp, NewFile, CarriedGen;
    ReachSafe(s);
    NewIsSmall(NEW);
    var goal := OpenWriter(NEW);
    OpenReuses(s, 0, NEW, 1, 1);
    ReachStep(s, Start(0, goal));
    ReachAlone(Apply(s, Start(0, goal)), 0, 1, OPEN_STEPS);
    t := PublishesAndDies(Alone(Apply(s, Start(0, goal)), 0, 1, OPEN_STEPS), 1);
  }

  /**
   * A death between rename and retire leaves a reader behind: its call begins after the publish to
   * the new file and returns the old file's value, with no counter wrapped.
   */
  lemma StaleRead() returns (acts: seq<Act>)
    ensures var s := Run(Init(1, 1), acts);
            && |s.readers| == 1 && |s.readers[0].results| == 1
            && var res := s.readers[0].results[0];
               res.ok && res.o.Value? && res.fid == 0 && s.pubs == [Pub(0, 0), Pub(1, 0)]
               && res.pubs <= |s.pubs| && Overtaken(s.pubs, res.at, res.fid) && !LatestDuring(s.pubs, res)
  {
    hide SysInv, ChanInv, Apply, Run, LoadsAlone, Init, LatestDuring, FileInv;
    var s := Begins();
    s := Drops(s);
    s := Overtakes(s);
    ReachSafe(s);
    QuietCall(s, 0, Peek);
    var n := SyncLoads(s, s.readers[0]) + QuietLoads(s.files[0].f, Peek) + 1;
    var t := LoadsAlone(Apply(s, Call(0, Peek)), 0, n);
    ReachStep(s, Call(0, Peek));
    ReachLoads(Apply(s, Call(0, Peek)), 0, n);
    acts :| Run(Init(1, 1), acts) == t;
    var res := t.readers[0].results[0];
    AllRunsOrdered(1, 1, acts);
    Judged(t, res);
  }

  lemma Judged(s: Sys, res: Result)
    requires ChanInv(s) && |s.readers| == 1 && s.readers[0].results == [res] && Counts(res.o)
    ensures res.pubs <= |s.pubs| && (LatestDuring(s.pubs, res) <==> !Overtaken(s.pubs, res.at, res.fid))
  {
    hide PubsInv, Heads, OwnerPlaced, CallInv, ReturnInv;
    assert HandleInv(s.files, s.pubs, s.orphans, s.readers[0]);
    assert ReturnInv(s.pubs, s.orphans, s.readers[0].results[0]);
    LatestExactly(s.pubs, s.orphans, res);
    Bounded(s.pubs, s.orphans, res);
  }

  lemma Bounded(pubs: seq<Pub>, orphans: set<nat>, res: Result)
    requires ReturnInv(pubs, orphans, res)
    ensures res.pubs <= |pubs|
  {}
}
