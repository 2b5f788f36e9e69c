// The promises of whole calls, over every run: what opening, unlinking, publishing, reading and waiting
// leave behind, and what a reader may have seen since it was last at rest.
module SystemCalls {
  import opened Bytes
  import opened Layout
  import opened Ring
  import opened RingInvariant
  import opened RingReader
  import opened RingReading
  import opened System
  import opened SystemInvariant
  import opened SystemSafety
  import opened SystemChannel
  import opened SystemClock
  import opened SystemQuiet
  import opened SystemReading
  import opened SystemPublishing
  import opened SystemFresh
  import opened SystemTheorems

  // ---- opening the channel for writing --------------------------------------------------------------------

  /**
   * open_data's decision, in every run: the file on the path is reused if and only if its capacity,
   * slot count, payload type, notification flag and minor version are the caller's; refused if and only if
   * one of the first four is not and RECREATE is clear; replaced otherwise. No file, path or reader changes.
   */
  lemma DecidesByFields(np: nat, nr: nat, acts: seq<Act>, p: nat, o: Opts, random: u32)
    requires var s := Reached(np, nr, acts);
             p < |s.procs| && s.procs[p].pc.DataDecide? && s.procs[p].goal == OpenWriter(o)
    requires random != 0
    ensures var s := Reached(np, nr, acts);
            var t, pc := Apply(s, Advance(p, random)), s.procs[p].pc;
            && pc.fid < |s.files| && s.dataPath == Some(pc.fid)
            && var f := s.files[pc.fid].f;
               && t == s.(procs := s.procs[p := s.procs[p].(pc := t.procs[p].pc)]) && |t.procs| == |s.procs|
               && (t.procs[p].pc == Write(pc.ino, pc.fid, Reopen(f, random), None) <==> SameGeometry(f, o) && f.minor == o.minor)
               && (t.procs[p].pc == Closing(pc.ino) <==> !SameGeometry(f, o) && !o.recreate)
               && (t.procs[p].pc == TmpMake(pc.ino, Some(pc.fid), CarriedGen(f, f.latest, random)) <==>
                     (SameGeometry(f, o) && f.minor != o.minor) || (!SameGeometry(f, o) && o.recreate))
  {
    hide SysInv, Apply, CarriedGen, Reopen, SameGeometry, Run;
    AllRunsSafe(np, nr, acts);
    var s := Reached(np, nr, acts);
    OpenDecides(s, p, o, random);
    DecideMoves(s, p, o, random);
    DecideOnPath(s, p);
  }

  lemma DecideOnPath(s: Sys, p: nat)
    requires SysInv(s) && p < |s.procs| && s.procs[p].pc.DataDecide?
    ensures s.dataPath == Some(s.procs[p].pc.fid)
  {
    hide LockInv, ReadersInv, FileOk;
    assert FilesInv(s.files, s.dataPath, s.procs[p].goal, s.procs[p].pc);
  }

  /**
   * In every reachable state a process in lock_channel, going on alone, is through within 7 system calls:
   * refused exactly if another process holds the lock the path names, or held it at the attempt that failed
   * just now, and else in the section; the lock file being unlinked under it never makes it fail.
   */
  lemma LockLoopEnds(np: nat, nr: nat, acts: seq<Act>, p: nat, random: u32) returns (n: nat)
    requires var s := Reached(np, nr, acts);
             p < |s.procs| && InLockLoop(s.procs[p].pc)
    requires random != 0
    ensures n <= 7
    ensures var s := Reached(np, nr, acts);
            var t, pc := Alone(s, p, random, n), s.procs[p].pc;
            if pc.LockRefused? && s.lockPath == Some(pc.ino)
            then t == s.(procs := s.procs[p := s.procs[p].(pc := Out, refusal := Some((pc.current, pc.holder)))])
            else LockOutcome(s, t, p)
  {
    hide Run, Init, Alone, LockInv, OwnerInv, ReadersInv;
    AllRunsSafe(np, nr, acts);
    n := LoopEnds(Reached(np, nr, acts), p, random);
  }

  /** The state an undisturbed psmsgr_state_writer_open leaves when the lock was free. */
  ghost function Opened(s: Sys, p: nat, o: Opts, random: u32): Sys
    requires p < |s.procs| && LockFree(s) && OptsValid(o) && (s.dataPath.Some? ==> s.dataPath.value < |s.files|)
  {
    var b, u, goal, ino := Locked(s, p), s.unlinks, OpenWriter(o), LockIno(s);
    match s.dataPath
    case None =>
      At(b.(files := s.files + [NewFile(o)], dataPath := Some(|s.files|)), p, goal, u,
         Write(ino, |s.files|, Writer(None, random, Idle), None))
    case Some(fid) =>
      var f := s.files[fid].f;
      if SameGeometry(f, o) && f.minor == o.minor then At(b, p, goal, u, Write(ino, fid, Reopen(f, random), None))
      else if !SameGeometry(f, o) && !o.recreate then At(Released(s, p), p, goal, u, Out)
      else At(Replaced(b, fid, o), p, goal, u, Write(ino, |s.files|, Writer(None, CarriedGen(f, f.latest, random), Idle), Some(fid)))
  }

  /**
   * From any reachable state with the lock free, an open that nobody disturbs creates, reuses, replaces
   * or refuses the file on the path, and leaves exactly that state.
   */
  lemma OpensChannel(np: nat, nr: nat, acts: seq<Act>, p: nat, o: Opts, random: u32)
    requires var s := Reached(np, nr, acts);
             p < |s.procs| && s.procs[p].pc.Out? && LockFree(s)
    requires OptsValid(o) && random != 0
    ensures var s := Reached(np, nr, acts);
            && (s.dataPath.Some? ==> s.dataPath.value < |s.files|)
            && Alone(Apply(s, Start(p, OpenWriter(o))), p, random, OPEN_STEPS) == Opened(s, p, o, random)
  {
    hide SysInv, Apply, Alone, CarriedGen, Reopen, SameGeometry, Run, At, NewFile, Replaced, Locked;
    AllRunsSafe(np, nr, acts);
    var s := Reached(np, nr, acts);
    PathExists(s);
    if s.dataPath.None? {
      OpenCreates(s, p, o, random);
    } else {
      var fid := s.dataPath.value;
      if SameGeometry(s.files[fid].f, o) && s.files[fid].f.minor == o.minor { OpenReuses(s, p, o, fid, random); }
      else if !SameGeometry(s.files[fid].f, o) && !o.recreate { OpenRefuses(s, p, o, fid, random); }
      else { OpenReplaces(s, p, o, fid, random); }
    }
  }

  // ---- unlinking the channel -----------------------------------------------------------------------------

  /**
   * When an unlink is through its section, in any run, neither path names anything, and every file that
   * ever was on the path is retired or an orphan.
   */
  lemma UnlinkEmpties(np: nat, nr: nat, acts: seq<Act>, p: nat, random: u32)
    requires var s := Reached(np, nr, acts);
             p < |s.procs| && s.procs[p].goal.UnlinkChannel? && Section(s.procs[p].pc).Some?
    requires var t := Apply(Reached(np, nr, acts), Advance(p, random));
             p < |t.procs| && t.procs[p].pc.Closing?
    ensures var t := Apply(Reached(np, nr, acts), Advance(p, random));
            && t.lockPath.None? && t.dataPath.None?
            && forall fid: nat :: Ready(t, fid) ==> t.files[fid].f.retired || fid in t.orphans
  {
    hide SysInv, ChanInv, Run, Init;
    AllRunsOrdered(np, nr, acts);
    var s := Reached(np, nr, acts);
    UnlinkEnds(s, p, random);
    OffThePath(s, p);
  }

  /** Only the unlink of the lock file ends the section. */
  lemma UnlinkEnds(s: Sys, p: nat, random: u32)
    requires p < |s.procs| && s.procs[p].goal.UnlinkChannel? && Section(s.procs[p].pc).Some?
    requires p < |Apply(s, Advance(p, random)).procs| && Apply(s, Advance(p, random)).procs[p].pc.Closing?
    ensures s.procs[p].pc.UnlinkLock?
    ensures var t := Apply(s, Advance(p, random));
            t.files == s.files && t.orphans == s.orphans && t.dataPath == s.dataPath && t.lockPath.None?
  {
    hide RetireFile, WakeReaders;
  }

  lemma OffThePath(s: Sys, p: nat)
    requires SysInv(s) && ChanInv(s) && p < |s.procs| && s.procs[p].pc.UnlinkLock?
    ensures s.dataPath.None? && forall fid: nat :: fid < |s.files| && s.files[fid].ready ==> s.files[fid].f.retired || fid in s.orphans
  {
    hide LockInv, ReadersInv, FileOk, PubsInv, Heads, HandlesInv;
    assert FilesInv(s.files, s.dataPath, s.procs[p].goal, s.procs[p].pc);
    assert Placed(s.files, s.dataPath, s.orphans, s.procs[p].pc);
    forall fid: nat | fid < |s.files| && s.files[fid].ready
      ensures s.files[fid].f.retired || fid in s.orphans
    {
      assert Exists(s.files, fid);
    }
  }

  /**
   * From any reachable state with the lock free, an unlink that nobody disturbs leaves both paths empty,
   * the file that was on the path retired and announced, its sleepers woken, and the lock released.
   */
  lemma UnlinksChannel(np: nat, nr: nat, acts: seq<Act>, p: nat, random: u32)
    requires var s := Reached(np, nr, acts);
             p < |s.procs| && s.procs[p].pc.Out? && LockFree(s)
    requires random != 0
    ensures var s := Reached(np, nr, acts);
            var t := Alone(Apply(s, Start(p, UnlinkChannel)), p, random, UNLINK_STEPS);
            && t.lockPath.None? && t.dataPath.None? && |t.procs| == |s.procs| && t.procs[p].pc.Out?
            && LockIno(s) < |t.holders| && t.holders[LockIno(s)].None? && |t.files| == |s.files|
            && (s.dataPath.None? ==> t.files == s.files && t.readers == s.readers)
            && (s.dataPath.Some? ==>
                  var fid := s.dataPath.value;
                  && fid < |s.files| && t.files == s.files[fid := s.files[fid].(f := t.files[fid].f)]
                  && t.files[fid].f.retired && t.files[fid].f.notify == (s.files[fid].f.notify + 1) % U32
                  && t.readers == WakeReaders(s.readers, fid))
  {
    hide SysInv, Apply, Alone, Run, Init, WakeReaders;
    AllRunsSafe(np, nr, acts);
    var s := Reached(np, nr, acts);
    Unlinks(s, p, random);
    if s.dataPath.Some? { RetiredIs(s.files[s.dataPath.value].f); }
    hide RetiredFile;
  }

  // ---- readers ---------------------------------------------------------------------------------------------

  /**
   * reader_sync in any reachable state: a reader that is not attached, or attached to a retired file, is
   * three loads later inside the file on the path, or gives up two loads later if there is none; a reader
   * of an unretired file goes on in it.
   */
  lemma FollowsPath(np: nat, nr: nat, acts: seq<Act>, j: nat)
    requires var s := Reached(np, nr, acts);
             j < |s.readers| && s.readers[j].pc.Sync?
    ensures var s := Reached(np, nr, acts);
            var rp := s.readers[j];
            && (Usable(s, rp) ==> LoadsAlone(s, j, 1) == SetReader(s, j, Enter(rp, s.files[rp.att.value].f)))
            && (!Usable(s, rp) && s.dataPath.Some? ==>
                  var fid := s.dataPath.value;
                  fid < |s.files| && LoadsAlone(s, j, 3) == SetReader(s, j, Enter(rp.(att := Some(fid)), s.files[fid].f)))
            && (!Usable(s, rp) && s.dataPath.None? ==> LoadsAlone(s, j, 2) == SetReader(s, j, Unattached(rp)))
  {
    hide SysInv, Run, Init, LoadsAlone;
    AllRunsSafe(np, nr, acts);
    var s := Reached(np, nr, acts);
    if Target(s, s.readers[j]).Some? { ReaderFollows(s, j); } else { ReaderFindsNone(s, j); }
  }

  /**
   * A read, peek or wait that nobody disturbs ends after a bounded number of loads: with the last value
   * of the file reader_sync settles on, with NODATA or NOTSUP, or asleep exactly if there is nothing new.
   */
  lemma CallEnds(np: nat, nr: nat, acts: seq<Act>, j: nat, op: Op)
    requires var s := Reached(np, nr, acts);
             j < |s.readers| && s.readers[j].pc.Resting? && Target(s, s.readers[j]).Some?
    ensures var s := Reached(np, nr, acts);
            var fid := Target(s, s.readers[j]).value;
            fid < |s.files| && FileInv(s.files[fid].f)
            && var n := SyncLoads(s, s.readers[j]) + QuietLoads(s.files[fid].f, op) + 1;
               Ends(s, LoadsAlone(Apply(s, Call(j, op)), j, n), j, fid, op, EntryOf(s))
  {
    hide SysInv, Run, Init, LoadsAlone, Apply, FileInv, Ends;
    AllRunsSafe(np, nr, acts);
    QuietCall(Reached(np, nr, acts), j, op);
  }

  /** A sleeper whose slice is over ends up in the file on the path, whatever happened to the one it slept on. */
  lemma SleeperLeaves(np: nat, nr: nat, acts: seq<Act>, j: nat, fid: nat)
    requires var s := Reached(np, nr, acts);
             j < |s.readers| && s.readers[j].pc.InRing? && s.readers[j].r.pc.Asleep? && s.dataPath == Some(fid)
    ensures var s := Reached(np, nr, acts);
            fid < |s.files| && FileInv(s.files[fid].f)
            && var rp := s.readers[j];
               var n := 1 + (if rp.att == Some(fid) then 1 else 3) + QuietLoads(s.files[fid].f, rp.r.op) + 1;
               Ends(s, LoadsAlone(Apply(s, Slice(j)), j, n), j, fid, rp.r.op, rp.at)
  {
    hide SysInv, Run, Init, LoadsAlone, Apply, FileInv, Ends;
    AllRunsSafe(np, nr, acts);
    SliceFollows(Reached(np, nr, acts), j, fid);
  }

  // ---- publishing --------------------------------------------------------------------------------------------

  lemma ClockBehind(np: nat, nr: nat, acts: seq<Act>, fid: nat)
    requires fid < |Reached(np, nr, acts).files|
    ensures Reached(np, nr, acts).files[fid].f.clock <= Reached(np, nr, acts).clock
  {
    AllRunsTimed(np, nr, acts);
  }

  /**
   * End to end: in any reachable state a publish that runs through wakes a waiter asleep on its file, and
   * the waiter's next loads return exactly the published value, unless its generation is the one the
   * waiter was told to ignore.
   */
  lemma PublishReachesSleeper(np: nat, nr: nat, acts: seq<Act>, p: nat, data: seq<byte>, t: u64, j: nat)
    requires var s := Reached(np, nr, acts);
             && p < |s.procs| && s.procs[p].pc.Write? && s.procs[p].pc.w.pc.Idle? && s.clock <= t
             && AsleepOn(s, j, s.procs[p].pc.fid) && |data| <= s.files[s.procs[p].pc.fid].f.cap
             && s.readers[j].r.op.last != s.procs[p].pc.w.gen
    ensures |data| < U32
    ensures var s := Reached(np, nr, acts);
            var fid, gen, op := s.procs[p].pc.fid, s.procs[p].pc.w.gen, s.readers[j].r.op;
            var u := StoresAlone(Apply(s, Publish(p, Begin(FromCaller(data)))), p, t, |data| + 9);
            && |u.readers| == |s.readers| && fid < |u.files| && u.files[fid].f.log == s.files[fid].f.log + [Record(gen, t, data)]
            && u.pubs == s.pubs + [Pub(fid, |s.files[fid].f.log|)]
            && ReturnedFrom(u, LoadsAlone(u, j, META + 9), j, fid, op, Value(gen, t, |data|, []), s.readers[j].at)
  {
    hide SysInv, Run, Init, LoadsAlone, Apply, FileInv, ReturnedFrom, StoresAlone;
    AllRunsSafe(np, nr, acts);
    var s := Reached(np, nr, acts);
    var pc := s.procs[p].pc;
    SleeperFacts(s, j, pc.fid);
    ClockBehind(np, nr, acts, pc.fid);
    PublishAlone(s, p, data, t);
    var s1 := Apply(s, Publish(p, Begin(FromCaller(data))));
    StepSafe(s, Publish(p, Begin(FromCaller(data))));
    StoresSafe(s1, p, t, |data| + 9);
    var u := StoresAlone(s1, p, t, |data| + 9);
    assert u.readers[j] == WakeReader(s.readers[j], pc.fid);
    WokenFollows(u, j);
    assert u.files[pc.fid].f.log[|s.files[pc.fid].f.log|] == Record(pc.w.gen, t, data);
  }

  lemma SleeperFacts(s: Sys, j: nat, fid: nat)
    requires SysInv(s) && AsleepOn(s, j, fid)
    ensures s.files[fid].f.notifyOn && s.files[fid].f.cap < U32
  {
    hide LockInv, OwnerInv;
    assert ReaderInv(s.files, s.readers[j]);
  }

  lemma {:induction false} StoresSafe(s: Sys, p: nat, t: u64, k: nat)
    requires SysInv(s)
    ensures SysInv(StoresAlone(s, p, t, k))
    decreases k
  {
    hide SysInv, Apply;
    if k > 0 && p < |s.procs| {
      StepSafe(s, Publish(p, NextAct(s.procs[p].pc, t)));
      StoresSafe(Apply(s, Publish(p, NextAct(s.procs[p].pc, t))), p, t, k - 1);
    }
  }

  // ---- since the reader was at rest -----------------------------------------------------------------------------

  /** The commits of slot `i` of file `fid`, its publishes and its increments; none if it does not exist yet. */
  function CommitsOf(s: Sys, fid: nat, i: nat): nat {
    if fid < |s.files| && i < |s.files[fid].f.commits| then s.files[fid].f.commits[i] else 0
  }

  function IncsOf(s: Sys, fid: nat): nat {
    if fid < |s.files| then s.files[fid].f.incs else 0
  }

  function PublishesOf(s: Sys, fid: nat): nat {
    if fid < |s.files| then |s.files[fid].f.log| else 0
  }

  /** No slot of the file was committed 2^27 times between `s` and `t`. */
  ghost predicate NoneWrapped(s: Sys, t: Sys, fid: nat) {
    forall i :: 0 <= i && fid < |t.files| && i < |t.files[fid].f.commits| ==>
      t.files[fid].f.commits[i] < CommitsOf(s, fid, i) + TAGS
  }

  lemma NotWrapped(s: Sys, t: Sys, fid: nat, at: Entry)
    requires Newer(s, at) && fid < |t.files| && NoneWrapped(s, t, fid) && Grew(s, t)
    ensures !Wrapped(t.files[fid].f, at, fid) && PublishesOf(s, fid) <= PubsSince(at, fid) && IncsOf(s, fid) <= IncsSince(at, fid)
  {
    forall i | 0 <= i < |t.files[fid].f.commits|
      ensures t.files[fid].f.commits[i] < Since(at, fid, i) + TAGS
    {
      if fid < |s.files| {
        assert MarkGrew(s.files[fid].f, at.marks[fid]) && FileGrew(s.files[fid].f, t.files[fid].f);
        assert CommitsOf(s, fid, i) <= Since(at, fid, i);
      }
    }
    if fid < |s.files| { assert MarkGrew(s.files[fid].f, at.marks[fid]); }
  }

  /** What holds at the end of a run that continues `before`. */
  lemma Later(np: nat, nr: nat, before: seq<Act>, more: seq<Act>, j: nat)
    requires var s := Reached(np, nr, before);
             j < |s.readers| && s.readers[j].pc.Resting?
    ensures var s, t := Reached(np, nr, before), Reached(np, nr, before + more);
            && t == Run(s, more) && Grew(s, t) && |t.readers| == |s.readers|
            && FreshInv(s, |s.readers[j].results|, t.readers[j]) && WrapInv(t.files, t.readers[j])
  {
    hide Grew, FreshInv, WrapInv, Apply, Init;
    RunAppend(Init(np, nr), before, more);
    AllRunsWrap(np, nr, before + more);
    var s := Reached(np, nr, before);
    Starts0(s, j);
    FreshRun(s, |s.readers[j].results|, s, more, j);
  }

  lemma Starts0(s: Sys, j: nat)
    requires j < |s.readers| && s.readers[j].pc.Resting?
    ensures Grew(s, s) && FreshInv(s, |s.readers[j].results|, s.readers[j])
  {}

  /**
   * Reads are fresh, sound and linearizable in terms of the channel alone. Take any reachable state `s` with
   * the reader at rest and any continuation to `t`: a result it has returned since is from a file
   * that was not retired in `s`, and not older than the last publish of its file in `s`. If no slot
   * of the file was committed 2^27 times in between, a value is exactly one publish, whole, and FORMAT is
   * never returned. If the file is no orphan, the value was the channel's latest at some moment from `s` to `t`.
   */
  lemma ReadsAreFresh(np: nat, nr: nat, before: seq<Act>, more: seq<Act>, j: nat, k: nat)
    requires var s := Reached(np, nr, before);
             j < |s.readers| && s.readers[j].pc.Resting? && |s.readers[j].results| <= k
    requires HasResult(Reached(np, nr, before + more), j, k)
    ensures var s, t := Reached(np, nr, before), Reached(np, nr, before + more);
            var res := t.readers[j].results[k];
            && t == Run(s, more)
            && res.fid < |t.files| && res.fid !in Retired(s)
            && (Counts(res.o) || res.o.NoData? ==> PublishesOf(s, res.fid) <= res.base <= |t.files[res.fid].f.log|)
            && (res.o.NoData? ==> PublishesOf(s, res.fid) == 0)
            && (res.o.Busy? ==>
                  |t.files[res.fid].f.log| - PublishesOf(s, res.fid) >= READ_RETRIES * (|t.files[res.fid].f.slots| - 1))
            && (NoneWrapped(s, t, res.fid) ==>
                  && !res.o.Format?
                  && (res.o.Value? ==>
                        && 0 < res.base
                        && var rec := t.files[res.fid].f.log[res.base - 1];
                           && res.o.gen == rec.gen && res.o.ts == rec.ts && res.o.len == |rec.bytes|
                           && (res.op.Read? ==> res.o.bytes == rec.bytes))
                  && (res.o.TooSmall? ==>
                        && 0 < res.base
                        && var rec := t.files[res.fid].f.log[res.base - 1];
                           res.op.Read? && res.o.gen == rec.gen && res.o.len == |rec.bytes| > res.op.size))
            && (Counts(res.o) && res.fid !in t.orphans ==>
                  exists h: nat :: |s.pubs| <= h <= |t.pubs| && LatestAt(t.pubs, h, res.fid, res.base))
  {
    hide Grew, WrapsInv, Retired, FileInv, ReaderInv, HandleInv, Run, Init, Overtaken, LatestAt;
    Later(np, nr, before, more, j);
    ResultOf(np, nr, before + more, j, k);
    ReturnOf(np, nr, before + more, j, k);
    var s, t := Reached(np, nr, before), Reached(np, nr, before + more);
    var res := t.readers[j].results[k];
    assert ResultWrap(t.files, res) && Newer(s, res.at);
    FreshResult(s, t, res);
    if Counts(res.o) && res.fid !in t.orphans {
      LatestExactly(t.pubs, t.orphans, res);
      NotOvertaken(t, res);
    }
  }

  lemma FreshResult(s: Sys, t: Sys, res: Result)
    requires Grew(s, t) && Newer(s, res.at) && ResultWrap(t.files, res) && ResultInv(t.files, res)
    ensures res.fid < |t.files| && res.fid !in Retired(s) && PublishesOf(s, res.fid) <= res.first
    ensures NoneWrapped(s, t, res.fid) ==> res.ok
  {
    hide Explained, Retired;
    if NoneWrapped(s, t, res.fid) { NotWrapped(s, t, res.fid, res.at); }
    if res.fid < |s.files| { assert MarkGrew(s.files[res.fid].f, res.at.marks[res.fid]); }
  }

  lemma NotOvertaken(t: Sys, res: Result)
    requires ReturnInv(t.pubs, t.orphans, res) && res.fid !in t.orphans
    ensures !Overtaken(t.pubs, res.at, res.fid)
  {}

  /**
   * No lost wake-up, in terms of the channel alone: if the reader was at rest in `s`, no slot of the file was
   * committed 2^27 times and its futex word not incremented 2^32 times since, and no process died owing
   * the file a wake-up, then a reader asleep on a changed or retired file has one coming.
   */
  lemma WakeupsAreFresh(np: nat, nr: nat, before: seq<Act>, more: seq<Act>, j: nat, fid: nat)
    requires var s := Reached(np, nr, before);
             j < |s.readers| && s.readers[j].pc.Resting?
    requires var s, t := Reached(np, nr, before), Reached(np, nr, before + more);
             && AsleepOn(t, j, fid) && Changed(t.files[fid].f, t.readers[j].r.op.last) && !t.files[fid].f.lost
             && NoneWrapped(s, t, fid) && t.files[fid].f.incs < IncsOf(s, fid) + U32
    ensures var t := Reached(np, nr, before + more);
            exists p :: 0 <= p < |t.procs| && Owes(AgentOf(t.procs[p].pc, fid))
  {
    hide Grew, Run, Init, Newer, Wrapped, NoneWrapped;
    Later(np, nr, before, more, j);
    var s, t := Reached(np, nr, before), Reached(np, nr, before + more);
    assert Newer(s, t.readers[j].at) && Counted(t.files[fid].f, t.readers[j].at, fid, t.readers[j].r);
    NotWrapped(s, t, fid, t.readers[j].at);
    NoLostWakeup(np, nr, before + more, j, fid);
  }

  // ---- what only a death can do ---------------------------------------------------------------------------------

  /** A wake-up is lost only by the death of the process that owed it. */
  lemma LostByDeath(np: nat, nr: nat, acts: seq<Act>, a: Act, fid: nat)
    requires var s := Reached(np, nr, acts);
             fid < |s.files| && !s.files[fid].f.lost
    ensures var s, t := Reached(np, nr, acts), Apply(Reached(np, nr, acts), a);
            && fid < |t.files|
            && (t.files[fid].f.lost ==> a.Crash? && a.p < |s.procs| && Owes(AgentOf(s.procs[a.p].pc, fid)))
  {
    hide Run, Init, Apply;
    var s := Reached(np, nr, acts);
    StepGrew(s, a);
    if Apply(s, a).files[fid].f.lost { LostStep(s, a, fid); }
  }

  lemma LostStep(s: Sys, a: Act, fid: nat)
    requires fid < |s.files| && !s.files[fid].f.lost && fid < |Apply(s, a).files| && Apply(s, a).files[fid].f.lost
    ensures a.Crash? && a.p < |s.procs| && Owes(AgentOf(s.procs[a.p].pc, fid))
  {
    hide LockStep, OpenStep, UnlinkStep, UnlinkUnmapped, PublishStep, Crashed, LoadStep, Owes, AgentOf;
    match a
    case Crash(p) => if p < |s.procs| { CrashParts(s, p); }
    case Publish(p, wa) => if p < |s.procs| { PublishKeepsLost(s, p, wa, fid); }
    case Advance(p, random) => if p < |s.procs| && random != 0 { AdvanceKeepsLost(s, p, random, fid); }
    case MapFail(p) => if p < |s.procs| && s.procs[p].pc.UnlinkData? { UnmappedStoresNothing(s, p); }
    case _ => FilesStay(s, a);
  }

  lemma WriterKeepsLost(f: File, w: Writer, a: WAct)
    requires WEnabled(f, w, a) && !f.lost
    ensures !WFile(f, w, a).lost
  {
    hide SetBody, FillFile, Stamped;
    match a
    case AppStore(k, b) => BodyTouches(f, w.pc.i, META + k, [b]);
    case Stamp(t) => StampTouches(f, w.pc.i, t);
    case Store => if w.pc.Filling? { FillKeepsLost(f, w.gen, w.pc.i, w.pc.q, w.pc.st); }
    case _ =>
  }

  lemma FillKeepsLost(f: File, gen: u32, i: nat, q: u32, st: Stage)
    requires PcFits(f, Filling(i, q, st)) && !f.lost
    ensures !FillFile(f, gen, i, q, st).lost
  {
    hide SetBody;
    if !st.PutLatest? {
      hide FillFile;
      StageTouches(f, gen, i, q, st);
    }
  }

  lemma PublishKeepsLost(s: Sys, p: nat, a: WAct, fid: nat)
    requires p < |s.procs| && fid < |s.files| && !s.files[fid].f.lost
    ensures fid < |PublishStep(s, p, a).files| && !PublishStep(s, p, a).files[fid].f.lost
  {
    hide WFile, WHandle, WEnabled, WakeReaders;
    var pc := s.procs[p].pc;
    if pc.Write? && pc.fid == fid && WEnabled(s.files[fid].f, pc.w, a) { WriterKeepsLost(s.files[fid].f, pc.w, a); }
  }

  lemma RetireKeepsLost(f: File, st: RetireStage)
    requires !f.lost
    ensures !RetireFile(f, st).lost
  {}

  lemma FillTmpKeepsLost(ob: Obj, o: Opts, k: nat)
    requires OptsValid(o)
    ensures FillTmp(ob, o, k).f.lost == ob.f.lost
  {
    hide StoreField;
  }

  lemma OpenKeepsLost(s: Sys, p: nat, o: Opts, random: u32, fid: nat)
    requires p < |s.procs| && OptsValid(o) && random != 0 && fid < |s.files| && !s.files[fid].f.lost
    ensures fid < |OpenStep(s, p, o, random).files| && !OpenStep(s, p, o, random).files[fid].f.lost
  {
    hide FillTmp, RetireFile, Decide, Blank, WakeReaders;
    match s.procs[p].pc
    case TmpFill(_, _, _, tmp, k) => if tmp < |s.files| { FillTmpKeepsLost(s.files[tmp], o, k); }
    case NewRetire(_, prev, _, _, st) => if prev == fid { RetireKeepsLost(s.files[fid].f, st); }
    case DataDecide(_, f, _) => if f < |s.files| { DecideKeepsFiles(s, p, o, random); }
    case _ =>
  }

  lemma UnlinkKeepsLost(s: Sys, p: nat, fid: nat)
    requires p < |s.procs| && fid < |s.files| && !s.files[fid].f.lost
    ensures fid < |UnlinkStep(s, p).files| && !UnlinkStep(s, p).files[fid].f.lost
  {
    hide RetireFile, WakeReaders;
    if s.procs[p].pc.UnlinkRetire? && s.procs[p].pc.fid == fid { RetireKeepsLost(s.files[fid].f, s.procs[p].pc.st); }
  }

  lemma AdvanceKeepsLost(s: Sys, p: nat, random: u32, fid: nat)
    requires p < |s.procs| && random != 0 && fid < |s.files| && !s.files[fid].f.lost && fid < |Apply(s, Advance(p, random)).files|
    ensures !Apply(s, Advance(p, random)).files[fid].f.lost
  {
    hide OpenStep, UnlinkStep, LockStep;
    if Section(s.procs[p].pc).None? { LockShape(s, p); }
    else if s.procs[p].goal.OpenWriter? {
      if OptsValid(s.procs[p].goal.o) { OpenKeepsLost(s, p, s.procs[p].goal.o, random, fid); }
    } else { UnlinkKeepsLost(s, p, fid); }
  }

  /** A file becomes an orphan only by the death of the process that took it off the path, or if unlink cannot map it. */
  lemma OrphanedByDeath(np: nat, nr: nat, acts: seq<Act>, a: Act, fid: nat)
    requires var s := Reached(np, nr, acts);
             fid !in s.orphans && fid in Apply(s, a).orphans
    ensures var s, t := Reached(np, nr, acts), Apply(Reached(np, nr, acts), a);
            && (a.Crash? || a.MapFail?) && a.p < |s.procs| && Ready(s, fid) && t.dataPath != Some(fid)
            && var pc := s.procs[a.p].pc;
               || (a.Crash? && ((pc.NewRetire? && pc.st.SetRetired?) || (pc.UnlinkRetire? && pc.st.SetRetired?)) && pc.fid == fid)
               || (a.MapFail? && pc.UnlinkData? && pc.fid == fid)
  {
    hide Run, Init, SysInv, ChanInv;
    AllRunsOrdered(np, nr, acts);
    var s := Reached(np, nr, acts);
    if !a.Crash? && !a.MapFail? {
      if a.Publish? { if a.p < |s.procs| { PublishKeepsOrphans(s, a.p, a.a); } } else { StepHistory(s, a); }
    }
    OrphanCase(s, a, fid);
  }

  lemma PublishKeepsOrphans(s: Sys, p: nat, a: WAct)
    requires p < |s.procs|
    ensures PublishStep(s, p, a).orphans == s.orphans
  {
    hide WFile, WHandle, WEnabled, WakeReaders;
  }

  lemma OrphanCase(s: Sys, a: Act, fid: nat)
    requires SysInv(s) && (a.Crash? || a.MapFail?) && fid !in s.orphans && fid in Apply(s, a).orphans
    ensures a.p < |s.procs| && Ready(s, fid) && Apply(s, a).dataPath != Some(fid)
    ensures var pc := s.procs[a.p].pc;
            || (a.Crash? && ((pc.NewRetire? && pc.st.SetRetired?) || (pc.UnlinkRetire? && pc.st.SetRetired?)) && pc.fid == fid)
            || (a.MapFail? && pc.UnlinkData? && pc.fid == fid)
  {
    hide LockInv, ReadersInv, FileOk, Crashed;
    var pc := s.procs[a.p].pc;
    if a.Crash? { CrashParts(s, a.p); }
    assert FilesInv(s.files, s.dataPath, s.procs[a.p].goal, pc);
  }
}
