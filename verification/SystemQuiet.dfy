// One process at work with nobody else stepping: what lock_channel, opening for writing and unlinking
// leave behind, from any reachable state.
module SystemQuiet {
  import opened Bytes
  import opened Layout
  import opened Ring
  import opened RingInvariant
  import opened RingWriter
  import opened System
  import opened SystemInvariant
  import opened SystemFiles
  import opened SystemSafety

  // ---- one process ------------------------------------------------------------------------------------

  /** `k` system calls or stores of process `p`, nobody else stepping. */
  function Alone(s: Sys, p: nat, random: u32, k: nat): Sys
    decreases k
  {
    if k == 0 then s else Alone(Apply(s, Advance(p, random)), p, random, k - 1)
  }

  lemma {:induction false} AloneAdd(s: Sys, p: nat, random: u32, a: nat, b: nat)
    ensures Alone(s, p, random, a + b) == Alone(Alone(s, p, random, a), p, random, b)
    decreases a
  {
    hide Apply;
    if a > 0 { AloneAdd(Apply(s, Advance(p, random)), p, random, a - 1, b); }
  }

  lemma AloneOne(s: Sys, p: nat, random: u32)
    ensures Alone(s, p, random, 1) == Apply(s, Advance(p, random))
  {
    assert Alone(Apply(s, Advance(p, random)), p, random, 0) == Apply(s, Advance(p, random));
  }

  /** Nothing happens any more. */
  lemma {:induction false} AloneRests(s: Sys, p: nat, random: u32, k: nat)
    requires Apply(s, Advance(p, random)) == s
    ensures Alone(s, p, random, k) == s
    decreases k
  {
    if k > 0 { AloneRests(s, p, random, k - 1); }
  }

  /** Steps that reach `t`, where the process is done. */
  lemma Reaches(s: Sys, t: Sys, p: nat, random: u32, a: nat, n: nat)
    requires a <= n && Alone(s, p, random, a) == t && Alone(t, p, random, n - a) == t
    ensures Alone(s, p, random, n) == t
  {
    hide Alone;
    AloneAdd(s, p, random, a, n - a);
    assert a + (n - a) == n;
  }

  /** Two stretches after one another. */
  lemma Then(s: Sys, t: Sys, v: Sys, p: nat, random: u32, a: nat, b: nat)
    requires Alone(s, p, random, a) == t && Alone(t, p, random, b) == v
    ensures Alone(s, p, random, a + b) == v
  {
    hide Alone;
    AloneAdd(s, p, random, a, b);
  }

  /** Process `p` in a call that began after `u` unlinks, at `pc`. */
  function At(s: Sys, p: nat, goal: Goal, u: nat, pc: PPc): Sys
    requires p < |s.procs|
  {
    s.(procs := s.procs[p := Proc(pc, goal, u, u, 0, None)])
  }

  /** The process is done: its next step does nothing. */
  lemma Done(s: Sys, p: nat, goal: Goal, u: nat, pc: PPc, random: u32, k: nat)
    requires p < |s.procs| && (pc.Out? || (pc.Write? && goal.OpenWriter?))
    ensures Alone(At(s, p, goal, u, pc), p, random, k) == At(s, p, goal, u, pc)
  {
    hide Alone;
    AloneRests(At(s, p, goal, u, pc), p, random, k);
  }

  // ---- lock_channel -----------------------------------------------------------------------------------

  /** Nobody holds the lock that the path names, if it names one. */
  predicate LockFree(s: Sys) {
    s.lockPath.Some? ==> s.lockPath.value < |s.holders| && s.holders[s.lockPath.value].None?
  }

  /** The lock inode that lock_channel gets. */
  function LockIno(s: Sys): nat {
    if s.lockPath.Some? then s.lockPath.value else |s.holders|
  }

  function Locked(s: Sys, p: nat): Sys
    requires LockFree(s)
  {
    if s.lockPath.Some? then s.(holders := s.holders[s.lockPath.value := Some(p)])
    else s.(lockPath := Some(|s.holders|), holders := s.holders + [Some(p)])
  }

  function LockSteps(s: Sys): nat {
    if s.lockPath.Some? then 4 else 3
  }

  function Inside(goal: Goal, ino: nat): PPc {
    if goal.UnlinkChannel? then UnlinkOpen(ino) else DataOpen(ino)
  }

  /** A free lock is taken, and the identity check passes. */
  lemma Acquires(s: Sys, p: nat, random: u32)
    requires p < |s.procs| && s.procs[p].pc.LockCreate? && LockFree(s) && random != 0
    ensures |Locked(s, p).procs| == |s.procs|
    ensures Alone(s, p, random, LockSteps(s)) == SetPc(Locked(s, p), p, Inside(s.procs[p].goal, LockIno(s)))
  {
    hide Alone;
    if s.lockPath.Some? {
      var ino := s.lockPath.value;
      var s1, s2 := SetPc(s, p, LockReopen(ino)), SetPc(s, p, LockTry(ino));
      AloneOne(s, p, random);
      AloneOne(s1, p, random);
      assert Apply(s, Advance(p, random)) == s1;
      assert Apply(s1, Advance(p, random)) == s2;
      TriesFree(s2, p, random);
      Then(s, s1, s2, p, random, 1, 1);
      Then(s, s2, SetPc(Locked(s, p), p, Inside(s.procs[p].goal, ino)), p, random, 2, 2);
    } else {
      MakesLock(s, p, random);
    }
  }

  /** F_OFD_SETLK on the inode the path names. */
  lemma TriesFree(s: Sys, p: nat, random: u32)
    requires p < |s.procs| && s.procs[p].pc.LockTry? && s.lockPath == Some(s.procs[p].pc.ino) && LockFree(s) && random != 0
    ensures Alone(s, p, random, 2) == SetPc(Locked(s, p), p, Inside(s.procs[p].goal, s.procs[p].pc.ino))
  {
    hide Alone;
    var s1 := SetPc(Locked(s, p), p, LockVerify(s.procs[p].pc.ino));
    assert Apply(s, Advance(p, random)) == s1;
    AloneOne(s, p, random);
    AloneOne(s1, p, random);
    Then(s, s1, Apply(s1, Advance(p, random)), p, random, 1, 1);
  }

  lemma MakesLock(s: Sys, p: nat, random: u32)
    requires p < |s.procs| && s.procs[p].pc.LockCreate? && random != 0 && s.lockPath.None?
    ensures |Locked(s, p).procs| == |s.procs|
    ensures Alone(s, p, random, 3) == SetPc(Locked(s, p), p, Inside(s.procs[p].goal, |s.holders|))
  {
    hide Alone;
    var ino := |s.holders|;
    var s1 := SetPc(s.(lockPath := Some(ino), holders := s.holders + [None]), p, LockTry(ino));
    assert Apply(s, Advance(p, random)) == s1;
    AloneOne(s, p, random);
    TriesFree(s1, p, random);
    assert s1.holders[ino := Some(p)] == s.holders + [Some(p)];
    assert SetPc(Locked(s1, p), p, Inside(s.procs[p].goal, ino)) == SetPc(Locked(s, p), p, Inside(s.procs[p].goal, ino));
    Then(s, s1, SetPc(Locked(s, p), p, Inside(s.procs[p].goal, ino)), p, random, 1, 2);
  }

  /** The lock that the path names is held by process `q`. */
  predicate HeldBy(s: Sys, q: nat) {
    s.lockPath.Some? && s.lockPath.value < |s.holders| && s.holders[s.lockPath.value] == Some(q)
  }

  /** The process is told that process `q` holds the lock; nothing else changes. */
  function TurnedAway(s: Sys, p: nat, q: nat): Sys
    requires p < |s.procs|
  {
    s.(procs := s.procs[p := s.procs[p].(pc := Out, refusal := Some((true, q)))])
  }

  /** A lock that another process holds is refused, and nothing changes. */
  lemma Refused(s: Sys, p: nat, q: nat, random: u32)
    requires p < |s.procs| && s.procs[p].pc.LockCreate? && HeldBy(s, q) && random != 0
    ensures Alone(s, p, random, 4) == TurnedAway(s, p, q)
  {
    hide Alone;
    var ino := s.lockPath.value;
    var s1, s2 := SetPc(s, p, LockReopen(ino)), SetPc(s, p, LockTry(ino));
    AloneOne(s, p, random);
    AloneOne(s1, p, random);
    assert Apply(s, Advance(p, random)) == s1;
    assert Apply(s1, Advance(p, random)) == s2;
    TriesHeld(s2, p, q, random);
    Then(s, s1, s2, p, random, 1, 1);
    Then(s, s2, TurnedAway(s, p, q), p, random, 2, 2);
  }

  lemma TriesHeld(s: Sys, p: nat, q: nat, random: u32)
    requires p < |s.procs| && s.procs[p].pc.LockTry? && s.lockPath == Some(s.procs[p].pc.ino) && HeldBy(s, q) && random != 0
    ensures Alone(s, p, random, 2) == TurnedAway(s, p, q)
  {
    hide Alone;
    var s1 := SetPc(s, p, LockRefused(s.procs[p].pc.ino, true, q));
    assert Apply(s, Advance(p, random)) == s1;
    assert Apply(s1, Advance(p, random)) == TurnedAway(s, p, q);
    AloneOne(s, p, random);
    AloneOne(s1, p, random);
    Then(s, s1, TurnedAway(s, p, q), p, random, 1, 1);
  }

  // ---- the lock loop, from any point of it -------------------------------------------------------------

  predicate InLockLoop(pc: PPc) {
    pc.LockCreate? || pc.LockReopen? || pc.LockTry? || pc.LockRefused? || pc.LockVerify?
  }

  /** Another process holds the lock that the path names. */
  predicate HeldByOther(s: Sys, p: nat) {
    s.lockPath.Some? && s.lockPath.value < |s.holders| && s.holders[s.lockPath.value].Some? && s.holders[s.lockPath.value] != Some(p)
  }

  /** The process has been refused by the holder of the lock, or is in the section of the lock the path names. */
  ghost predicate LockOutcome(s: Sys, t: Sys, p: nat)
    requires p < |s.procs|
  {
    && |t.procs| == |s.procs| && t.files == s.files && t.dataPath == s.dataPath && t.readers == s.readers
    && t.orphans == s.orphans && t.pubs == s.pubs && (s.lockPath.Some? ==> t.lockPath == s.lockPath)
    && if HeldByOther(s, p) then
         t.procs[p].pc.Out? && t.procs[p].refusal == Some((true, s.holders[s.lockPath.value].value))
       else
         HeldBy(t, p) && t.procs[p].pc == Inside(s.procs[p].goal, t.lockPath.value)
  }

  lemma FromCreate(s: Sys, p: nat, random: u32) returns (n: nat)
    requires p < |s.procs| && s.procs[p].pc.LockCreate? && random != 0 && !HeldBy(s, p)
    requires s.lockPath.Some? ==> s.lockPath.value < |s.holders|
    ensures n <= 4 && LockOutcome(s, Alone(s, p, random, n), p)
  {
    hide Alone;
    if HeldByOther(s, p) {
      n := 4;
      Refused(s, p, s.holders[s.lockPath.value].value, random);
    } else {
      n := LockSteps(s);
      Acquires(s, p, random);
    }
  }

  lemma FromTry(s: Sys, p: nat, random: u32) returns (n: nat)
    requires p < |s.procs| && s.procs[p].pc.LockTry? && random != 0 && !HeldBy(s, p)
    requires s.lockPath == Some(s.procs[p].pc.ino) && s.lockPath.value < |s.holders|
    ensures n <= 2 && LockOutcome(s, Alone(s, p, random, n), p)
  {
    hide Alone;
    n := 2;
    if HeldByOther(s, p) { TriesHeld(s, p, s.holders[s.lockPath.value].value, random); } else { TriesFree(s, p, random); }
  }

  /** The same lock, channel and goal. */
  ghost predicate SameLock(s: Sys, t: Sys, p: nat) {
    && p < |s.procs| == |t.procs| && t.procs[p].goal == s.procs[p].goal && t.lockPath == s.lockPath && |t.holders| == |s.holders|
    && (s.lockPath.Some? && s.lockPath.value < |s.holders| ==> t.holders[s.lockPath.value] == s.holders[s.lockPath.value])
    && t.files == s.files && t.dataPath == s.dataPath && t.readers == s.readers && t.orphans == s.orphans && t.pubs == s.pubs
  }

  /** One step, then the rest. */
  lemma LockThen(s: Sys, s1: Sys, p: nat, random: u32, a: nat, n: nat)
    requires Alone(s, p, random, a) == s1 && SameLock(s, s1, p) && LockOutcome(s1, Alone(s1, p, random, n), p)
    ensures LockOutcome(s, Alone(s, p, random, a + n), p)
  {
    hide Alone, Inside;
    AloneAdd(s, p, random, a, n);
  }

  /** An inode that has lost its name is let go, and the loop starts over. */
  lemma FromStale(s: Sys, p: nat, random: u32) returns (n: nat)
    requires p < |s.procs| && random != 0 && (s.procs[p].pc.LockRefused? || s.procs[p].pc.LockVerify?) && !HeldBy(s, p)
    requires s.lockPath != Some(s.procs[p].pc.ino) && s.procs[p].pc.ino < |s.holders|
    requires s.lockPath.Some? ==> s.lockPath.value < |s.holders|
    ensures n <= 5 && LockOutcome(s, Alone(s, p, random, n), p)
  {
    var s1 := Apply(s, Advance(p, random));
    assert SameLock(s, s1, p) && s1.procs[p].pc.LockCreate?;
    hide Alone, Apply, LockOutcome;
    AloneOne(s, p, random);
    n := FromCreate(s1, p, random);
    LockThen(s, s1, p, random, 1, n);
    n := 1 + n;
  }

  lemma TriesStale(s: Sys, p: nat, random: u32) returns (s1: Sys)
    requires p < |s.procs| && random != 0 && s.procs[p].pc.LockTry? && !HeldBy(s, p)
    requires s.lockPath != Some(s.procs[p].pc.ino) && s.procs[p].pc.ino < |s.holders|
    ensures s1 == Apply(s, Advance(p, random)) && SameLock(s, s1, p) && p < |s1.procs|
    ensures (s1.procs[p].pc.LockRefused? || s1.procs[p].pc.LockVerify?) && s1.procs[p].pc.ino == s.procs[p].pc.ino
    ensures !HeldBy(s1, p) && s1.lockPath == s.lockPath && |s1.holders| == |s.holders|
  {
    s1 := Apply(s, Advance(p, random));
  }

  /**
   * From wherever a process is in lock_channel, with nobody else stepping, it is through within 7 system
   * calls: in the section, or refused exactly if another process holds the lock that the path names (or
   * held it when the attempt failed). It never gives up because the lock file was unlinked under it.
   */
  lemma LoopEnds(s: Sys, p: nat, random: u32) returns (n: nat)
    requires LockInv(s) && p < |s.procs| && InLockLoop(s.procs[p].pc) && random != 0
    ensures n <= 7
    ensures var t, pc := Alone(s, p, random, n), s.procs[p].pc;
            if pc.LockRefused? && s.lockPath == Some(pc.ino)
            then t == s.(procs := s.procs[p := s.procs[p].(pc := Out, refusal := Some((pc.current, pc.holder)))])
            else LockOutcome(s, t, p)
  {
    hide Alone, Apply, LockOutcome, LockInv, SameLock;
    var pc := s.procs[p].pc;
    NotHolding(s, p);
    AloneOne(s, p, random);
    if pc.LockCreate? {
      n := FromCreate(s, p, random);
    } else if pc.LockReopen? {
      n := FromReopen(s, p, random);
    } else if s.lockPath == Some(pc.ino) {
      if pc.LockTry? { n := FromTry(s, p, random); } else { n := 1; Passes(s, p, random); }
    } else if pc.LockTry? {
      var s1 := TriesStale(s, p, random);
      n := FromStale(s1, p, random);
      LockThen(s, s1, p, random, 1, n);
      n := 1 + n;
    } else {
      n := FromStale(s, p, random);
    }
  }

  /** A process that has not got its lock yet holds none, and one that checks its own has it. */
  lemma NotHolding(s: Sys, p: nat)
    requires LockInv(s) && p < |s.procs|
    ensures s.lockPath.Some? ==> s.lockPath.value < |s.holders|
    ensures InLockLoop(s.procs[p].pc) && !(s.procs[p].pc.LockVerify? && s.lockPath == Some(s.procs[p].pc.ino)) ==> !HeldBy(s, p)
    ensures s.procs[p].pc.LockVerify? ==> s.procs[p].pc.ino < |s.holders| && s.holders[s.procs[p].pc.ino] == Some(p)
    ensures s.procs[p].pc.LockTry? || s.procs[p].pc.LockRefused? ==> s.procs[p].pc.ino < |s.holders|
  {
    assert HoldInv(s, p) && LoopInv(s, p);
  }

  lemma FromReopen(s: Sys, p: nat, random: u32) returns (n: nat)
    requires p < |s.procs| && s.procs[p].pc.LockReopen? && random != 0 && !HeldBy(s, p)
    requires s.lockPath.Some? ==> s.lockPath.value < |s.holders|
    ensures n <= 5 && LockOutcome(s, Alone(s, p, random, n), p)
  {
    var s1 := Apply(s, Advance(p, random));
    assert SameLock(s, s1, p) && (if s.lockPath.None? then s1.procs[p].pc.LockCreate? else s1.procs[p].pc == LockTry(s.lockPath.value));
    hide Alone, Apply, LockOutcome;
    AloneOne(s, p, random);
    if s.lockPath.None? { n := FromCreate(s1, p, random); } else { n := FromTry(s1, p, random); }
    LockThen(s, s1, p, random, 1, n);
    n := 1 + n;
  }

  /** The check of the path succeeds. */
  lemma Passes(s: Sys, p: nat, random: u32)
    requires p < |s.procs| && random != 0 && (s.procs[p].pc.LockRefused? || s.procs[p].pc.LockVerify?)
    requires s.lockPath == Some(s.procs[p].pc.ino) && s.procs[p].pc.ino < |s.holders|
    requires s.procs[p].pc.LockVerify? ==> s.holders[s.procs[p].pc.ino] == Some(p)
    ensures var t, pc := Alone(s, p, random, 1), s.procs[p].pc;
            if pc.LockRefused? then t == s.(procs := s.procs[p := s.procs[p].(pc := Out, refusal := Some((pc.current, pc.holder)))])
            else LockOutcome(s, t, p)
  {
    hide Alone;
    AloneOne(s, p, random);
  }

  /** close(lock_fd). */
  lemma Closes(s: Sys, p: nat, goal: Goal, u: nat, ino: nat, random: u32)
    requires p < |s.procs| && ino < |s.holders| && random != 0
    ensures Apply(At(s, p, goal, u, Closing(ino)), Advance(p, random))
         == At(s.(holders := s.holders[ino := None]), p, goal, u, Out)
  {}

  // ---- open_data: which decision is taken -------------------------------------------------------------

  /** The file is what the options ask for. */
  predicate SameGeometry(f: File, o: Opts) {
    f.cap == o.cap && |f.slots| == o.slotCount && f.payloadType == o.payloadType && f.notifyOn == o.notifyOn
  }

  /**
   * A sound file on the path is reused if and only if capacity, slot count, payload type, notification
   * and minor version agree; refused, with nothing changed, if and only if one of the first four differs and
   * RECREATE is not set; and replaced otherwise.
   */
  lemma OpenDecides(s: Sys, p: nat, o: Opts, random: u32)
    requires SysInv(s) && p < |s.procs| && s.procs[p].pc.DataDecide? && s.procs[p].goal == OpenWriter(o) && random != 0
    ensures s.procs[p].pc.fid < |s.files| && OptsValid(o)
    ensures var t, pc := Apply(s, Advance(p, random)), s.procs[p].pc;
            var f := s.files[pc.fid].f;
            && p < |t.procs| && t.files == s.files && t.dataPath == s.dataPath && t.lockPath == s.lockPath && t.readers == s.readers
            && (t.procs[p].pc.Write? <==> SameGeometry(f, o) && f.minor == o.minor)
            && (t.procs[p].pc.Write? ==>
                  t.procs[p].pc == Write(pc.ino, pc.fid, Reopen(f, random), None))
            && (t.procs[p].pc == Closing(pc.ino) <==> !SameGeometry(f, o) && !o.recreate)
            && (t.procs[p].pc == TmpMake(pc.ino, Some(pc.fid), CarriedGen(f, f.latest, random)) <==>
                  (SameGeometry(f, o) && f.minor != o.minor) || (!SameGeometry(f, o) && o.recreate))
  {
    var pc := s.procs[p].pc;
    assert FilesInv(s.files, s.dataPath, s.procs[p].goal, pc);
    DecideFacts(s.files, s.dataPath, s.procs[p].goal, pc, o);
    hide SysInv, FilesInv, Sound, CarriedGen, HeaderValid, LatestValid;
  }

  lemma DecideFacts(fs: seq<Obj>, path: Option<nat>, goal: Goal, pc: PPc, o: Opts)
    requires FilesInv(fs, path, goal, pc) && pc.DataDecide? && goal == OpenWriter(o)
    ensures pc.fid < |fs| && OptsValid(o) && !fs[pc.fid].f.retired && pc.latest == fs[pc.fid].f.latest && path == Some(pc.fid)
    ensures HeaderValid(fs[pc.fid].hdr, fs[pc.fid].size) && LatestValid(pc.latest, fs[pc.fid].hdr.slotCount)
    ensures Compatible(fs[pc.fid].hdr, o) <==> SameGeometry(fs[pc.fid].f, o)
    ensures fs[pc.fid].hdr.minor == fs[pc.fid].f.minor
  {
    hide FileInv;
    OpenedFile(fs, path, goal, pc, pc.fid);
    LatestHolds(fs[pc.fid].f);
  }

  /**
   * A file with a corrupt header or `latest` is replaced only with RECREATE, and retired then if it could be
   * mapped; a retired one is always replaced.
   */
  lemma DecidesOther(s: Sys, p: nat, o: Opts, ino: nat, fid: nat, latest: u32, random: u32)
    requires p < |s.procs| && fid < |s.files|
    ensures var ob, t := s.files[fid], Decide(s, p, o, ino, fid, latest, random);
            var valid := HeaderValid(ob.hdr, ob.size) && LatestValid(latest, ob.hdr.slotCount);
            && t.files == s.files && t.dataPath == s.dataPath && p < |t.procs|
            && (!valid ==> t.procs[p].pc == if o.recreate then TmpMake(ino, if Mappable(ob) then Some(fid) else None, random) else Closing(ino))
            && (valid && ob.f.retired ==> t.procs[p].pc == TmpMake(ino, Some(fid), CarriedGen(ob.f, latest, random)))
  {
    hide HeaderValid, LatestValid, CarriedGen, Compatible;
  }

  // ---- create_file --------------------------------------------------------------------------------------

  /** The file create_file leaves on the path. */
  ghost function NewFile(o: Opts): Obj
    requires OptsValid(o)
  {
    Tmp(o, HEADER_STORES).(ready := true)
  }

  /** It is empty and is what the options ask for. */
  lemma NewFileFits(o: Opts)
    requires OptsValid(o)
    ensures var ob := NewFile(o);
            && ob.ready && HeaderValid(ob.hdr, ob.size) && SameGeometry(ob.f, o) && ob.f.minor == o.minor
            && ob.f.log == [] && ob.f.latest == NONE && !ob.f.retired
  {
    TmpComplete(o);
  }

  function AfterRename(ino: nat, prev: Option<nat>, gen: u32, tmp: nat): PPc {
    match prev
    case None => Write(ino, tmp, Writer(None, gen, Idle), None)
    case Some(fid) => NewRetire(ino, fid, gen, tmp, SetRetired)
  }

  lemma Fills(b: Sys, p: nat, o: Opts, u: nat, ino: nat, prev: Option<nat>, gen: u32, k: nat, random: u32)
    requires p < |b.procs| && OptsValid(o) && k < HEADER_STORES && random != 0
    ensures Apply(At(b.(files := b.files + [Tmp(o, k)]), p, OpenWriter(o), u, TmpFill(ino, prev, gen, |b.files|, k)), Advance(p, random))
         == At(b.(files := b.files + [Tmp(o, k + 1)]), p, OpenWriter(o), u, TmpFill(ino, prev, gen, |b.files|, k + 1))
  {
    FillStep(o, k);
    hide Tmp, FillTmp;
    var n := |b.files|;
    assert (b.files + [Tmp(o, k)])[n := Tmp(o, k + 1)] == b.files + [Tmp(o, k + 1)];
  }

  lemma {:induction false} FillsUp(b: Sys, p: nat, o: Opts, u: nat, ino: nat, prev: Option<nat>, gen: u32, k: nat, random: u32)
    requires p < |b.procs| && OptsValid(o) && k <= HEADER_STORES && random != 0
    ensures Alone(At(b.(files := b.files + [Tmp(o, k)]), p, OpenWriter(o), u, TmpFill(ino, prev, gen, |b.files|, k)),
                  p, random, HEADER_STORES - k)
         == At(b.(files := b.files + [Tmp(o, HEADER_STORES)]), p, OpenWriter(o), u, TmpFill(ino, prev, gen, |b.files|, HEADER_STORES))
    decreases HEADER_STORES - k
  {
    hide Tmp, At, Apply;
    if k < HEADER_STORES {
      Fills(b, p, o, u, ino, prev, gen, k, random);
      FillsUp(b, p, o, u, ino, prev, gen, k + 1, random);
    }
  }

  lemma Makes(b: Sys, p: nat, o: Opts, u: nat, ino: nat, prev: Option<nat>, gen: u32, random: u32)
    requires p < |b.procs| && OptsValid(o) && random != 0
    ensures Apply(At(b, p, OpenWriter(o), u, TmpMake(ino, prev, gen)), Advance(p, random))
         == At(b.(files := b.files + [Tmp(o, 0)]), p, OpenWriter(o), u, TmpFill(ino, prev, gen, |b.files|, 0))
  {
    assert Blank(o) == Tmp(o, 0);
    hide Tmp, Blank;
  }

  lemma Renames(b: Sys, p: nat, o: Opts, u: nat, ino: nat, prev: Option<nat>, gen: u32, random: u32)
    requires p < |b.procs| && OptsValid(o) && random != 0
    ensures Apply(At(b.(files := b.files + [Tmp(o, HEADER_STORES)]), p, OpenWriter(o), u,
                     TmpFill(ino, prev, gen, |b.files|, HEADER_STORES)), Advance(p, random))
         == At(b.(files := b.files + [NewFile(o)], dataPath := Some(|b.files|)), p, OpenWriter(o), u,
               AfterRename(ino, prev, gen, |b.files|))
  {
    hide Tmp;
    var n := |b.files|;
    assert (b.files + [Tmp(o, HEADER_STORES)])[n := NewFile(o)] == b.files + [NewFile(o)];
  }

  /** From mkostemp to rename. */
  lemma Builds(b: Sys, p: nat, o: Opts, u: nat, ino: nat, prev: Option<nat>, gen: u32, random: u32)
    requires p < |b.procs| && OptsValid(o) && random != 0
    ensures Alone(At(b, p, OpenWriter(o), u, TmpMake(ino, prev, gen)), p, random, HEADER_STORES + 2)
         == At(b.(files := b.files + [NewFile(o)], dataPath := Some(|b.files|)), p, OpenWriter(o), u,
               AfterRename(ino, prev, gen, |b.files|))
  {
    hide Tmp, At, Apply, NewFile;
    var s0 := At(b, p, OpenWriter(o), u, TmpMake(ino, prev, gen));
    Makes(b, p, o, u, ino, prev, gen, random);
    FillsUp(b, p, o, u, ino, prev, gen, 0, random);
    Renames(b, p, o, u, ino, prev, gen, random);
    var s2 := Alone(s0, p, random, 1 + HEADER_STORES);
    AloneOne(s0, p, random);
    AloneAdd(s0, p, random, 1, HEADER_STORES);
    AloneAdd(s0, p, random, 1 + HEADER_STORES, 1);
    AloneOne(s2, p, random);
  }

  // ---- retire -------------------------------------------------------------------------------------------

  /** The file after all of retire. */
  function RetiredFile(f: File): File {
    RetireFile(RetireFile(RetireFile(f, SetRetired), AddRetireNotify), WakeRetired)
  }

  lemma RetiredIs(f: File)
    ensures RetiredFile(f).retired && RetiredFile(f).log == f.log && RetiredFile(f).slots == f.slots
    ensures !RetiredFile(f).unwoken && !RetiredFile(f).unnotified && RetiredFile(f).notify == (f.notify + 1) % U32
  {}

  function With(b: Sys, fid: nat, g: File): Sys
    requires fid < |b.files|
  {
    b.(files := b.files[fid := b.files[fid].(f := g)])
  }

  /** The replaced file is retired and its waiters are woken. */
  lemma NewRetires(b: Sys, p: nat, o: Opts, u: nat, ino: nat, fid: nat, gen: u32, tmp: nat, random: u32)
    requires p < |b.procs| && OptsValid(o) && fid < |b.files| && random != 0
    ensures Alone(At(b, p, OpenWriter(o), u, NewRetire(ino, fid, gen, tmp, SetRetired)), p, random, 3)
         == At(With(b, fid, RetiredFile(b.files[fid].f)).(readers := WakeReaders(b.readers, fid)), p, OpenWriter(o), u,
               Write(ino, tmp, Writer(None, gen, Idle), Some(fid)))
  {
    hide RetireFile;
    var f, goal := b.files[fid].f, OpenWriter(o);
    var f1 := RetireFile(f, SetRetired);
    var f2 := RetireFile(f1, AddRetireNotify);
    var s0 := At(b, p, goal, u, NewRetire(ino, fid, gen, tmp, SetRetired));
    var s1 := At(With(b, fid, f1), p, goal, u, NewRetire(ino, fid, gen, tmp, AddRetireNotify));
    var s2 := At(With(b, fid, f2), p, goal, u, NewRetire(ino, fid, gen, tmp, WakeRetired));
    assert Apply(s0, Advance(p, random)) == s1;
    assert With(b, fid, f1).files[fid := With(b, fid, f1).files[fid].(f := f2)] == With(b, fid, f2).files;
    assert Apply(s1, Advance(p, random)) == s2;
    assert With(b, fid, f2).files[fid := With(b, fid, f2).files[fid].(f := RetiredFile(f))] == With(b, fid, RetiredFile(f)).files;
    AloneOne(s2, p, random);
    assert Alone(s0, p, random, 3) == Alone(s1, p, random, 2) == Alone(s2, p, random, 1);
  }

  lemma UnlinkRetires(b: Sys, p: nat, u: nat, ino: nat, fid: nat, random: u32)
    requires p < |b.procs| && fid < |b.files| && random != 0
    ensures Alone(At(b, p, UnlinkChannel, u, UnlinkRetire(ino, fid, SetRetired)), p, random, 3)
         == At(With(b, fid, RetiredFile(b.files[fid].f)).(readers := WakeReaders(b.readers, fid)), p, UnlinkChannel, u, UnlinkLock(ino))
  {
    hide RetireFile;
    var f, goal := b.files[fid].f, UnlinkChannel;
    var f1 := RetireFile(f, SetRetired);
    var f2 := RetireFile(f1, AddRetireNotify);
    var s0 := At(b, p, goal, u, UnlinkRetire(ino, fid, SetRetired));
    var s1 := At(With(b, fid, f1), p, goal, u, UnlinkRetire(ino, fid, AddRetireNotify));
    var s2 := At(With(b, fid, f2), p, goal, u, UnlinkRetire(ino, fid, WakeRetired));
    assert Apply(s0, Advance(p, random)) == s1;
    assert With(b, fid, f1).files[fid := With(b, fid, f1).files[fid].(f := f2)] == With(b, fid, f2).files;
    assert Apply(s1, Advance(p, random)) == s2;
    assert With(b, fid, f2).files[fid := With(b, fid, f2).files[fid].(f := RetiredFile(f))] == With(b, fid, RetiredFile(f)).files;
    AloneOne(s2, p, random);
    assert Alone(s0, p, random, 3) == Alone(s1, p, random, 2) == Alone(s2, p, random, 1);
  }

  // ---- psmsgr_state_writer_open -------------------------------------------------------------------------

  lemma {:induction false} AloneSafe(s: Sys, p: nat, random: u32, k: nat)
    requires SysInv(s)
    ensures SysInv(Alone(s, p, random, k))
    decreases k
  {
    hide SysInv, Apply;
    if k > 0 {
      StepSafe(s, Advance(p, random));
      AloneSafe(Apply(s, Advance(p, random)), p, random, k - 1);
    }
  }

  /** No more than 30 steps of any open, and 15 of any unlink. */
  const OPEN_STEPS: nat := 30
  const UNLINK_STEPS: nat := 15

  /** The lock is taken and given back. */
  function Released(s: Sys, p: nat): Sys
    requires LockFree(s)
  {
    Locked(s, p).(holders := Locked(s, p).holders[LockIno(s) := None])
  }

  /** A file on the path is opened and its `latest` loaded. */
  lemma Opens(b: Sys, p: nat, o: Opts, u: nat, ino: nat, fid: nat, random: u32)
    requires p < |b.procs| && OptsValid(o) && random != 0 && b.dataPath == Some(fid) && fid < |b.files|
    ensures Alone(At(b, p, OpenWriter(o), u, DataOpen(ino)), p, random, 2)
         == At(b, p, OpenWriter(o), u, DataDecide(ino, fid, b.files[fid].f.latest))
  {
    var s0 := At(b, p, OpenWriter(o), u, DataOpen(ino));
    var s1 := At(b, p, OpenWriter(o), u, DataLatest(ino, fid));
    assert Apply(s0, Advance(p, random)) == s1;
    AloneOne(s1, p, random);
    assert Alone(s0, p, random, 2) == Alone(s1, p, random, 1);
  }

  lemma OpensNone(b: Sys, p: nat, o: Opts, u: nat, ino: nat, random: u32)
    requires p < |b.procs| && OptsValid(o) && random != 0 && b.dataPath.None?
    ensures Alone(At(b, p, OpenWriter(o), u, DataOpen(ino)), p, random, 1) == At(b, p, OpenWriter(o), u, TmpMake(ino, None, random))
  {
    AloneOne(At(b, p, OpenWriter(o), u, DataOpen(ino)), p, random);
  }

  /** A call that finds the lock free: the first steps, up to the section. */
  lemma Starts(s: Sys, p: nat, goal: Goal, random: u32)
    requires p < |s.procs| && s.procs[p].pc.Out? && LockFree(s) && random != 0 && (goal.OpenWriter? ==> OptsValid(goal.o))
    ensures |Locked(s, p).procs| == |s.procs|
    ensures Alone(Apply(s, Start(p, goal)), p, random, LockSteps(s))
         == At(Locked(s, p), p, goal, s.unlinks, Inside(goal, LockIno(s)))
  {
    hide Alone;
    var s0 := At(s, p, goal, s.unlinks, LockCreate);
    assert Apply(s, Start(p, goal)) == s0;
    Acquires(s0, p, random);
    assert SetPc(Locked(s0, p), p, Inside(goal, LockIno(s))) == At(Locked(s, p), p, goal, s.unlinks, Inside(goal, LockIno(s)));
  }

  /** With no file on the path, the writer gets a new, empty one that is what its options ask for. */
  lemma OpenCreates(s: Sys, p: nat, o: Opts, random: u32)
    requires p < |s.procs| && s.procs[p].pc.Out? && LockFree(s) && OptsValid(o) && random != 0 && s.dataPath.None?
    ensures Alone(Apply(s, Start(p, OpenWriter(o))), p, random, OPEN_STEPS)
         == At(Locked(s, p).(files := s.files + [NewFile(o)], dataPath := Some(|s.files|)), p, OpenWriter(o), s.unlinks,
               Write(LockIno(s), |s.files|, Writer(None, random, Idle), None))
  {
    hide Alone, At, Apply, NewFile, Tmp;
    var goal, u, ino, b := OpenWriter(o), s.unlinks, LockIno(s), Locked(s, p);
    var s0, n := Apply(s, Start(p, goal)), LockSteps(s);
    Starts(s, p, goal, random);
    OpensNone(b, p, o, u, ino, random);
    Then(s0, At(b, p, goal, u, DataOpen(ino)), At(b, p, goal, u, TmpMake(ino, None, random)), p, random, n, 1);
    Builds(b, p, o, u, ino, None, random, random);
    var b' := b.(files := b.files + [NewFile(o)], dataPath := Some(|b.files|));
    var t := At(b', p, goal, u, AfterRename(ino, None, random, |b.files|));
    Then(s0, At(b, p, goal, u, TmpMake(ino, None, random)), t, p, random, n + 1, HEADER_STORES + 2);
    Done(b', p, goal, u, AfterRename(ino, None, random, |b.files|), random, OPEN_STEPS - (n + 1 + (HEADER_STORES + 2)));
    Reaches(s0, t, p, random, n + 1 + (HEADER_STORES + 2), OPEN_STEPS);
  }

  /** The state at which open_data decides, and that it is a sound one. */
  lemma AtDecision(s: Sys, p: nat, o: Opts, fid: nat, random: u32)
    requires SysInv(s) && p < |s.procs| && s.procs[p].pc.Out? && LockFree(s) && OptsValid(o) && random != 0 && s.dataPath == Some(fid)
    ensures fid < |s.files| && |Locked(s, p).procs| == |s.procs|
    ensures var d := At(Locked(s, p), p, OpenWriter(o), s.unlinks, DataDecide(LockIno(s), fid, s.files[fid].f.latest));
            SysInv(d) && Alone(Apply(s, Start(p, OpenWriter(o))), p, random, LockSteps(s) + 2) == d
  {
    hide SysInv, Alone, Apply, At;
    PathExists(s);
    StepSafe(s, Start(p, OpenWriter(o)));
    var goal, u, ino, b := OpenWriter(o), s.unlinks, LockIno(s), Locked(s, p);
    var s0, n := Apply(s, Start(p, goal)), LockSteps(s);
    Starts(s, p, goal, random);
    Opens(b, p, o, u, ino, fid, random);
    Then(s0, At(b, p, goal, u, DataOpen(ino)), At(b, p, goal, u, DataDecide(ino, fid, b.files[fid].f.latest)), p, random, n, 2);
    AloneSafe(s0, p, random, n + 2);
  }

  /** What the decision step leaves, as a whole state. */
  lemma Decided(b: Sys, p: nat, o: Opts, u: nat, ino: nat, fid: nat, random: u32)
    requires p < |b.procs| && fid < |b.files|
    requires SysInv(At(b, p, OpenWriter(o), u, DataDecide(ino, fid, b.files[fid].f.latest))) && random != 0
    ensures var f := b.files[fid].f;
            Apply(At(b, p, OpenWriter(o), u, DataDecide(ino, fid, f.latest)), Advance(p, random))
            == At(b, p, OpenWriter(o), u,
                  if SameGeometry(f, o) && f.minor == o.minor then Write(ino, fid, Reopen(f, random), None)
                  else if !SameGeometry(f, o) && !o.recreate then Closing(ino)
                  else TmpMake(ino, Some(fid), CarriedGen(f, f.latest, random)))
  {
    var d := At(b, p, OpenWriter(o), u, DataDecide(ino, fid, b.files[fid].f.latest));
    OpenDecides(d, p, o, random);
    assert OptsValid(o);
    DecideMoves(d, p, o, random);
    hide SysInv, Apply, CarriedGen, Reopen, SameGeometry;
  }

  lemma DecideMoves(d: Sys, p: nat, o: Opts, random: u32)
    requires p < |d.procs| && d.procs[p].pc.DataDecide? && d.procs[p].goal == OpenWriter(o) && OptsValid(o) && random != 0
    requires d.procs[p].pc.fid < |d.files|
    ensures var t := Apply(d, Advance(p, random));
            p < |t.procs| && t == d.(procs := d.procs[p := d.procs[p].(pc := t.procs[p].pc)])
  {
    hide HeaderValid, LatestValid, CarriedGen, Compatible;
  }

  /** A file that agrees with the options is reused as it is. */
  lemma OpenReuses(s: Sys, p: nat, o: Opts, fid: nat, random: u32)
    requires SysInv(s) && p < |s.procs| && s.procs[p].pc.Out? && LockFree(s) && OptsValid(o) && random != 0 && s.dataPath == Some(fid)
    requires fid < |s.files| && SameGeometry(s.files[fid].f, o) && s.files[fid].f.minor == o.minor
    ensures Alone(Apply(s, Start(p, OpenWriter(o))), p, random, OPEN_STEPS)
         == At(Locked(s, p), p, OpenWriter(o), s.unlinks, Write(LockIno(s), fid, Reopen(s.files[fid].f, random), None))
  {
    hide SysInv, Alone, Apply, At;
    AtDecision(s, p, o, fid, random);
    var goal, u, ino, b, n := OpenWriter(o), s.unlinks, LockIno(s), Locked(s, p), LockSteps(s);
    var s0, d := Apply(s, Start(p, goal)), At(b, p, goal, u, DataDecide(ino, fid, s.files[fid].f.latest));
    Decided(b, p, o, u, ino, fid, random);
    AloneOne(d, p, random);
    var pc := Write(ino, fid, Reopen(s.files[fid].f, random), None);
    Then(s0, d, At(b, p, goal, u, pc), p, random, n + 2, 1);
    Done(b, p, goal, u, pc, random, OPEN_STEPS - (n + 3));
    Reaches(s0, At(b, p, goal, u, pc), p, random, n + 3, OPEN_STEPS);
  }

  /** A file that differs is left alone unless RECREATE is set: MISMATCH, and the lock is given back. */
  lemma OpenRefuses(s: Sys, p: nat, o: Opts, fid: nat, random: u32)
    requires SysInv(s) && p < |s.procs| && s.procs[p].pc.Out? && LockFree(s) && OptsValid(o) && random != 0 && s.dataPath == Some(fid)
    requires fid < |s.files| && !SameGeometry(s.files[fid].f, o) && !o.recreate
    ensures |Released(s, p).procs| == |s.procs|
    ensures Alone(Apply(s, Start(p, OpenWriter(o))), p, random, OPEN_STEPS) == At(Released(s, p), p, OpenWriter(o), s.unlinks, Out)
  {
    hide SysInv, Alone, Apply, At;
    AtDecision(s, p, o, fid, random);
    var goal, u, ino, b, n := OpenWriter(o), s.unlinks, LockIno(s), Locked(s, p), LockSteps(s);
    var s0, d := Apply(s, Start(p, goal)), At(b, p, goal, u, DataDecide(ino, fid, s.files[fid].f.latest));
    Decided(b, p, o, u, ino, fid, random);
    AloneOne(d, p, random);
    var c := At(b, p, goal, u, Closing(ino));
    Then(s0, d, c, p, random, n + 2, 1);
    Closes(b, p, goal, u, ino, random);
    AloneOne(c, p, random);
    var t := At(Released(s, p), p, goal, u, Out);
    Then(s0, c, t, p, random, n + 3, 1);
    Done(Released(s, p), p, goal, u, Out, random, OPEN_STEPS - (n + 4));
    Reaches(s0, t, p, random, n + 4, OPEN_STEPS);
  }

  /** The state with a new file on the path and the old one retired. */
  ghost function Replaced(b: Sys, fid: nat, o: Opts): (t: Sys)
    requires fid < |b.files| && OptsValid(o)
    ensures t.procs == b.procs
  {
    b.(files := b.files[fid := b.files[fid].(f := RetiredFile(b.files[fid].f))] + [NewFile(o)], dataPath := Some(|b.files|),
       readers := WakeReaders(b.readers, fid))
  }

  /** The steps of a replacement lead up to its state. */
  const REPLACE_STEPS: nat := HEADER_STORES + 2 + 3

  /** From the creation of the temporary file to the write phase, when there is a file to retire. */
  lemma Replaces(b: Sys, p: nat, o: Opts, u: nat, ino: nat, fid: nat, gen: u32, random: u32)
    requires p < |b.procs| && OptsValid(o) && random != 0 && fid < |b.files|
    ensures Alone(At(b, p, OpenWriter(o), u, TmpMake(ino, Some(fid), gen)), p, random, REPLACE_STEPS)
         == At(Replaced(b, fid, o), p, OpenWriter(o), u, Write(ino, |b.files|, Writer(None, gen, Idle), Some(fid)))
  {
    hide Alone, Apply, At, NewFile, Tmp, RetiredFile;
    Builds(b, p, o, u, ino, Some(fid), gen, random);
    var k, goal := |b.files|, OpenWriter(o);
    var b' := b.(files := b.files + [NewFile(o)], dataPath := Some(k));
    NewRetires(b', p, o, u, ino, fid, gen, k, random);
    var b'' := With(b', fid, RetiredFile(b'.files[fid].f)).(readers := WakeReaders(b'.readers, fid));
    assert b''.files == b.files[fid := b.files[fid].(f := RetiredFile(b.files[fid].f))] + [NewFile(o)];
    assert b'' == Replaced(b, fid, o);
    Then(At(b, p, goal, u, TmpMake(ino, Some(fid), gen)), At(b', p, goal, u, NewRetire(ino, fid, gen, k, SetRetired)),
         At(b'', p, goal, u, Write(ino, k, Writer(None, gen, Idle), Some(fid))), p, random, HEADER_STORES + 2, 3);
  }

  /** A file of another minor version, or one that differs with RECREATE set, is replaced and retired. */
  lemma OpenReplaces(s: Sys, p: nat, o: Opts, fid: nat, random: u32)
    requires SysInv(s) && p < |s.procs| && s.procs[p].pc.Out? && LockFree(s) && OptsValid(o) && random != 0 && s.dataPath == Some(fid)
    requires fid < |s.files|
    requires if SameGeometry(s.files[fid].f, o) then s.files[fid].f.minor != o.minor else o.recreate
    ensures var f := s.files[fid].f;
            Alone(Apply(s, Start(p, OpenWriter(o))), p, random, OPEN_STEPS)
            == At(Replaced(Locked(s, p), fid, o), p, OpenWriter(o), s.unlinks,
                  Write(LockIno(s), |s.files|, Writer(None, CarriedGen(f, f.latest, random), Idle), Some(fid)))
  {
    hide SysInv, Alone, Apply, At, Replaced, CarriedGen, SameGeometry, NewFile, RetiredFile;
    AtDecision(s, p, o, fid, random);
    var goal, u, ino, b, n := OpenWriter(o), s.unlinks, LockIno(s), Locked(s, p), LockSteps(s);
    var f := s.files[fid].f;
    var gen := CarriedGen(f, f.latest, random);
    var s0, d, m := Apply(s, Start(p, goal)), At(b, p, goal, u, DataDecide(ino, fid, f.latest)), At(b, p, goal, u, TmpMake(ino, Some(fid), gen));
    Decided(b, p, o, u, ino, fid, random);
    AloneOne(d, p, random);
    Then(s0, d, m, p, random, n + 2, 1);
    Replaces(b, p, o, u, ino, fid, gen, random);
    var pc := Write(ino, |b.files|, Writer(None, gen, Idle), Some(fid));
    var t := At(Replaced(b, fid, o), p, goal, u, pc);
    Then(s0, m, t, p, random, n + 3, REPLACE_STEPS);
    Done(Replaced(b, fid, o), p, goal, u, pc, random, OPEN_STEPS - (n + 3 + REPLACE_STEPS));
    Reaches(s0, t, p, random, n + 3 + REPLACE_STEPS, OPEN_STEPS);
  }

  /** A channel whose lock another process holds is refused to a second writer and to unlink. */
  lemma OpenRefusedByHolder(s: Sys, p: nat, q: nat, goal: Goal, random: u32)
    requires p < |s.procs| && s.procs[p].pc.Out? && random != 0 && (goal.OpenWriter? ==> OptsValid(goal.o)) && HeldBy(s, q)
    ensures Alone(Apply(s, Start(p, goal)), p, random, OPEN_STEPS)
         == s.(procs := s.procs[p := Proc(Out, goal, s.unlinks, s.unlinks, 0, Some((true, q)))])
  {
    hide Alone;
    var s0 := At(s, p, goal, s.unlinks, LockCreate);
    assert Apply(s, Start(p, goal)) == s0;
    Refused(s0, p, q, random);
    var t := TurnedAway(s0, p, q);
    AloneRests(t, p, random, OPEN_STEPS - 4);
    Reaches(s0, t, p, random, 4, OPEN_STEPS);
  }

  // ---- psmsgr_state_unlink ------------------------------------------------------------------------------

  /** From the last unlink to the end. */
  lemma UnlinksLock(b: Sys, p: nat, u: nat, ino: nat, random: u32)
    requires p < |b.procs| && ino < |b.holders| && random != 0
    ensures Alone(At(b, p, UnlinkChannel, u, UnlinkLock(ino)), p, random, 2)
         == At(b.(lockPath := None, unlinks := b.unlinks + 1, holders := b.holders[ino := None]), p, UnlinkChannel, u, Out)
  {
    var c := At(b.(lockPath := None, unlinks := b.unlinks + 1), p, UnlinkChannel, u, Closing(ino));
    assert Apply(At(b, p, UnlinkChannel, u, UnlinkLock(ino)), Advance(p, random)) == c;
    AloneOne(c, p, random);
    Closes(b.(lockPath := None, unlinks := b.unlinks + 1), p, UnlinkChannel, u, ino, random);
    assert Alone(At(b, p, UnlinkChannel, u, UnlinkLock(ino)), p, random, 2) == Alone(c, p, random, 1);
  }

  /** An unlink that finds the lock free leaves no file and no lock on the paths, and the file retired. */
  lemma Unlinks(s: Sys, p: nat, random: u32)
    requires SysInv(s) && p < |s.procs| && s.procs[p].pc.Out? && LockFree(s) && random != 0
    ensures s.dataPath.Some? ==> s.dataPath.value < |s.files|
    ensures var t := Alone(Apply(s, Start(p, UnlinkChannel)), p, random, UNLINK_STEPS);
            var b := Released(s, p).(lockPath := None, unlinks := s.unlinks + 1, dataPath := None);
            t == At(if s.dataPath.None? then b
                    else b.(files := s.files[s.dataPath.value := s.files[s.dataPath.value].(f := RetiredFile(s.files[s.dataPath.value].f))],
                            readers := WakeReaders(s.readers, s.dataPath.value)),
                    p, UnlinkChannel, s.unlinks, Out)
  {
    PathExists(s);
    if s.dataPath.None? { UnlinksNothing(s, p, random); } else { UnlinksFile(s, p, s.dataPath.value, random); }
  }

  lemma FindsNothing(b: Sys, p: nat, u: nat, ino: nat, random: u32)
    requires p < |b.procs| && b.dataPath.None? && random != 0
    ensures Apply(At(b, p, UnlinkChannel, u, UnlinkOpen(ino)), Advance(p, random)) == At(b, p, UnlinkChannel, u, UnlinkLock(ino))
  {}

  lemma UnlinksNothing(s: Sys, p: nat, random: u32)
    requires p < |s.procs| && s.procs[p].pc.Out? && LockFree(s) && random != 0 && s.dataPath.None?
    ensures Alone(Apply(s, Start(p, UnlinkChannel)), p, random, UNLINK_STEPS)
         == At(Released(s, p).(lockPath := None, unlinks := s.unlinks + 1, dataPath := None), p, UnlinkChannel, s.unlinks, Out)
  {
    hide Alone, Apply, At;
    var goal, u, ino, b, n := UnlinkChannel, s.unlinks, LockIno(s), Locked(s, p), LockSteps(s);
    var s0, s1 := Apply(s, Start(p, goal)), At(b, p, goal, u, UnlinkOpen(ino));
    Starts(s, p, goal, random);
    FindsNothing(b, p, u, ino, random);
    AloneOne(s1, p, random);
    Then(s0, s1, At(b, p, goal, u, UnlinkLock(ino)), p, random, n, 1);
    UnlinksLock(b, p, u, ino, random);
    var b' := Released(s, p).(lockPath := None, unlinks := s.unlinks + 1, dataPath := None);
    Then(s0, At(b, p, goal, u, UnlinkLock(ino)), At(b', p, goal, u, Out), p, random, n + 1, 2);
    Done(b', p, goal, u, Out, random, UNLINK_STEPS - (n + 3));
    Reaches(s0, At(b', p, goal, u, Out), p, random, n + 3, UNLINK_STEPS);
  }

  lemma UnlinksData(b: Sys, p: nat, u: nat, ino: nat, fid: nat, random: u32)
    requires p < |b.procs| && b.dataPath == Some(fid) && random != 0
    ensures Alone(At(b, p, UnlinkChannel, u, UnlinkOpen(ino)), p, random, 2)
         == At(b.(dataPath := None), p, UnlinkChannel, u, UnlinkRetire(ino, fid, SetRetired))
  {
    var s0, s1 := At(b, p, UnlinkChannel, u, UnlinkOpen(ino)), At(b, p, UnlinkChannel, u, UnlinkData(ino, fid));
    assert Apply(s0, Advance(p, random)) == s1;
    AloneOne(s1, p, random);
    assert Alone(s0, p, random, 2) == Alone(s1, p, random, 1);
  }

  lemma UnlinksFile(s: Sys, p: nat, fid: nat, random: u32)
    requires p < |s.procs| && s.procs[p].pc.Out? && LockFree(s) && random != 0 && s.dataPath == Some(fid) && fid < |s.files|
    ensures Alone(Apply(s, Start(p, UnlinkChannel)), p, random, UNLINK_STEPS)
         == At(Released(s, p).(lockPath := None, unlinks := s.unlinks + 1, dataPath := None,
                               files := s.files[fid := s.files[fid].(f := RetiredFile(s.files[fid].f))],
                               readers := WakeReaders(s.readers, fid)),
               p, UnlinkChannel, s.unlinks, Out)
  {
    hide Alone, Apply, At, RetiredFile;
    var goal, u, ino, b, n := UnlinkChannel, s.unlinks, LockIno(s), Locked(s, p), LockSteps(s);
    var s0 := Apply(s, Start(p, goal));
    Starts(s, p, goal, random);
    UnlinksData(b, p, u, ino, fid, random);
    var b1 := b.(dataPath := None);
    Then(s0, At(b, p, goal, u, UnlinkOpen(ino)), At(b1, p, goal, u, UnlinkRetire(ino, fid, SetRetired)), p, random, n, 2);
    UnlinkRetires(b1, p, u, ino, fid, random);
    var b2 := With(b1, fid, RetiredFile(b1.files[fid].f)).(readers := WakeReaders(b1.readers, fid));
    Then(s0, At(b1, p, goal, u, UnlinkRetire(ino, fid, SetRetired)), At(b2, p, goal, u, UnlinkLock(ino)), p, random, n + 2, 3);
    UnlinksLock(b2, p, u, ino, random);
    var b3 := b2.(lockPath := None, unlinks := b2.unlinks + 1, holders := b2.holders[ino := None]);
    Then(s0, At(b2, p, goal, u, UnlinkLock(ino)), At(b3, p, goal, u, Out), p, random, n + 5, 2);
    Done(b3, p, goal, u, Out, random, UNLINK_STEPS - (n + 7));
    Reaches(s0, At(b3, p, goal, u, Out), p, random, n + 7, UNLINK_STEPS);
  }
}
