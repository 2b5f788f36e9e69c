// The invariant holds in every run, and what it means for writers and readers.
module SystemSafety {
  import opened Bytes
  import opened Layout
  import opened Ring
  import opened RingInvariant
  import opened RingWriter
  import opened RingReader
  import opened System
  import opened SystemInvariant
  import opened SystemLock
  import opened SystemFiles
  import opened SystemReaders

  // ---- ownership ---------------------------------------------------------------------------------

  lemma FilesAreSound(fs: seq<Obj>, path: Option<nat>, goal: Goal, pc: PPc)
    requires FilesInv(fs, path, goal, pc)
    ensures FilesSound(fs)
  {
    forall fid | 0 <= fid < |fs| && fs[fid].ready
      ensures FileInv(fs[fid].f) && !fs[fid].f.adopted
    {
      assert FileOk(fs, pc, fid);
    }
  }

  /** The process in the section takes a step, inside it or out of it. */
  lemma OwnerSteps(s: Sys, t: Sys, p: nat)
    requires LockInv(s) && OwnerInv(s) && p < |s.procs| && Section(s.procs[p].pc).Some?
    requires |t.procs| == |s.procs| && t.procs == s.procs[p := t.procs[p]] && t.procs[p].goal == s.procs[p].goal
    requires if Section(t.procs[p].pc).Some? then FilesInv(t.files, t.dataPath, t.procs[p].goal, t.procs[p].pc)
             else FilesInv(t.files, t.dataPath, UnlinkChannel, Out)
    ensures OwnerInv(t)
  {
    forall q | 0 <= q < |t.procs| && Section(t.procs[q].pc).Some?
      ensures FilesInv(t.files, t.dataPath, t.procs[q].goal, t.procs[q].pc)
    {
      if q != p { Exclusion(s, p, q); }
    }
  }

  /** A step outside the section touches no data file. */
  lemma OutsiderSteps(s: Sys, t: Sys, p: nat)
    requires OwnerInv(s) && p < |s.procs| && Section(s.procs[p].pc).None?
    requires |t.procs| == |s.procs| && t.procs == s.procs[p := t.procs[p]] && Section(t.procs[p].pc).None?
    requires t.files == s.files && t.dataPath == s.dataPath
    requires t.procs[p].goal.OpenWriter? ==> OptsValid(t.procs[p].goal.o)
    ensures OwnerInv(t)
  {
    forall q | 0 <= q < |t.procs| && Section(t.procs[q].pc).Some?
      ensures FilesInv(t.files, t.dataPath, t.procs[q].goal, t.procs[q].pc)
    {
      assert q != p && t.procs[q] == s.procs[q];
    }
    if NoOwner(t) {
      forall q | 0 <= q < |s.procs|
        ensures Section(s.procs[q].pc).None?
      {
        assert q == p || t.procs[q] == s.procs[q];
      }
    }
  }

  /** The identity check succeeds: the process enters an empty section. */
  lemma OwnerEnters(s: Sys, t: Sys, p: nat, pc: PPc)
    requires LockInv(s) && OwnerInv(s) && p < |s.procs| && s.procs[p].pc.LockVerify?
    requires s.lockPath == Some(s.procs[p].pc.ino)
    requires pc == if s.procs[p].goal.UnlinkChannel? then UnlinkOpen(s.procs[p].pc.ino) else DataOpen(s.procs[p].pc.ino)
    requires t == SetPc(s, p, pc)
    ensures OwnerInv(t)
  {
    VerifiedAlone(s, p);
    MoveKeeps(s.files, s.dataPath, s.dataPath, UnlinkChannel, s.procs[p].goal, Out, pc);
    forall q | 0 <= q < |t.procs| && q != p
      ensures Section(t.procs[q].pc).None?
    {
      assert t.procs[q] == s.procs[q];
    }
    assert Section(t.procs[p].pc).Some?;
  }

  // ---- steps ---------------------------------------------------------------------------------------

  lemma LockStepSafe(s: Sys, p: nat)
    requires SysInv(s) && p < |s.procs| && Section(s.procs[p].pc).None?
    ensures SysInv(LockStep(s, p))
  {
    hide SysInv;
    if s.procs[p].pc.LockVerify? && s.lockPath == Some(s.procs[p].pc.ino) {
      EnterSafe(s, p);
    } else {
      OutsideSafe(s, p);
    }
  }

  lemma EnterSafe(s: Sys, p: nat)
    requires SysInv(s) && p < |s.procs| && s.procs[p].pc.LockVerify? && s.lockPath == Some(s.procs[p].pc.ino)
    ensures SysInv(LockStep(s, p))
  {
    hide LockInv, OwnerInv, ReaderInv, FileInv;
    LockStepKeeps(s, p);
    OwnerEnters(s, LockStep(s, p), p, LockStep(s, p).procs[p].pc);
  }

  lemma OutsideSafe(s: Sys, p: nat)
    requires SysInv(s) && p < |s.procs| && Section(s.procs[p].pc).None?
    requires !(s.procs[p].pc.LockVerify? && s.lockPath == Some(s.procs[p].pc.ino))
    ensures SysInv(LockStep(s, p))
  {
    LockStepKeeps(s, p);
    LockStepShape(s, p);
    GoalValid(s, p);
    hide LockStep, LockInv, OwnerInv, ReaderInv, FileInv;
    OutsiderSteps(s, LockStep(s, p), p);
  }

  lemma GoalValid(s: Sys, p: nat)
    requires OwnerInv(s) && p < |s.procs|
    ensures s.procs[p].goal.OpenWriter? ==> OptsValid(s.procs[p].goal.o)
  {
    hide FilesInv;
  }

  lemma LockStepShape(s: Sys, p: nat)
    requires p < |s.procs| && Section(s.procs[p].pc).None?
    requires !(s.procs[p].pc.LockVerify? && s.lockPath == Some(s.procs[p].pc.ino))
    ensures var t := LockStep(s, p);
            && |t.procs| == |s.procs| && t.procs == s.procs[p := t.procs[p]] && Section(t.procs[p].pc).None?
            && t.files == s.files && t.dataPath == s.dataPath && t.readers == s.readers
            && t.procs[p].goal == s.procs[p].goal
  {
    assert s.procs[p := s.procs[p]] == s.procs;
  }

  /** The owner moves on without a store. */
  lemma OwnerMoves(s: Sys, p: nat, pc: PPc)
    requires SysInv(s) && p < |s.procs| && Section(s.procs[p].pc).Some?
    requires Section(pc) == Section(s.procs[p].pc) && FilesInv(s.files, s.dataPath, s.procs[p].goal, pc)
    ensures SysInv(SetPc(s, p, pc))
  {
    var t := SetPc(s, p, pc);
    assert LoopInv(s, p);
    LockUntouched(s, t, p);
    OwnerSteps(s, t, p);
  }

  /** The owner gives up: it closes the lock without having become an agent, or after its close. */
  lemma OwnerLeaves(s: Sys, p: nat)
    requires SysInv(s) && p < |s.procs| && Section(s.procs[p].pc).Some?
    requires FilesInv(s.files, s.dataPath, UnlinkChannel, Out)
    ensures SysInv(SetPc(s, p, Closing(Section(s.procs[p].pc).value)))
  {
    var t := SetPc(s, p, Closing(Section(s.procs[p].pc).value));
    assert LoopInv(s, p);
    LockUntouched(s, t, p);
    OwnerSteps(s, t, p);
  }

  /** The owner stores into a file. */
  lemma OwnerStores(s: Sys, p: nat, fid: nat, g: File, wake: bool, pc: PPc)
    requires SysInv(s) && p < |s.procs| && Section(s.procs[p].pc).Some? && Exists(s.files, fid)
    requires Section(pc) == Section(s.procs[p].pc)
    requires Evolves(s.files[fid].f, g, wake)
    requires FilesInv(s.files[fid := s.files[fid].(f := g)], s.dataPath, s.procs[p].goal, pc)
    ensures SysInv(SetPc(SetFile(s, fid, g, wake), p, pc))
  {
    var t := SetPc(SetFile(s, fid, g, wake), p, pc);
    assert LoopInv(s, p);
    LockUntouched(s, t, p);
    OwnerSteps(s, t, p);
    FilesAreSound(t.files, t.dataPath, s.procs[p].goal, pc);
    ReadersStored(s, t, fid, wake);
  }

  /** The owner creates or fills a temporary file, or renames it. */
  lemma OwnerBuilds(s: Sys, p: nat, ft: seq<Obj>, path: Option<nat>, pc: PPc)
    requires SysInv(s) && p < |s.procs| && Section(s.procs[p].pc).Some?
    requires Section(pc) == Section(s.procs[p].pc)
    requires Grows(s.files, ft) && FilesInv(ft, path, s.procs[p].goal, pc)
    ensures SysInv(SetPc(s.(files := ft, dataPath := path), p, pc))
  {
    var t := SetPc(s.(files := ft, dataPath := path), p, pc);
    assert LoopInv(s, p);
    LockUntouched(s, t, p);
    OwnerSteps(s, t, p);
    FilesAreSound(ft, path, s.procs[p].goal, pc);
    ReadersGrow(s, t);
  }

  lemma DecideSafe(s: Sys, p: nat, random: u32)
    requires SysInv(s) && p < |s.procs| && s.procs[p].pc.DataDecide? && random != 0
    ensures s.procs[p].pc.fid < |s.files| && s.procs[p].goal.OpenWriter?
    ensures var pc := s.procs[p].pc;
            SysInv(Decide(s, p, s.procs[p].goal.o, pc.ino, pc.fid, pc.latest, random))
  {
    var goal, pc := s.procs[p].goal, s.procs[p].pc;
    assert FilesInv(s.files, s.dataPath, goal, pc);
    DecideCreate(s.files, s.dataPath, goal, pc, random);
    DecideReuse(s.files, s.dataPath, goal, pc, random);
    LeaveKeeps(s.files, s.dataPath, goal, pc);
    OwnerLeaves(s, p);
    var gen := CarriedGen(s.files[pc.fid].f, pc.latest, random);
    OwnerMoves(s, p, TmpMake(pc.ino, Some(pc.fid), gen));
    OwnerMoves(s, p, Write(pc.ino, pc.fid, Writer(if pc.latest == NONE then None else Some(LatestSlot(pc.latest)), gen, Idle), None));
  }

  lemma MakeSafe(s: Sys, p: nat)
    requires SysInv(s) && p < |s.procs| && s.procs[p].pc.TmpMake?
    requires s.procs[p].goal.OpenWriter? && OptsValid(s.procs[p].goal.o)
    ensures var pc := s.procs[p].pc;
            SysInv(SetPc(s.(files := s.files + [Blank(s.procs[p].goal.o)]), p,
                         TmpFill(pc.ino, pc.prev, pc.gen, |s.files|, 0)))
  {
    var goal, pc := s.procs[p].goal, s.procs[p].pc;
    MakeKeeps(s.files, s.dataPath, goal, pc);
    OwnerBuilds(s, p, s.files + [Blank(goal.o)], s.dataPath, TmpFill(pc.ino, pc.prev, pc.gen, |s.files|, 0));
  }

  lemma FillSafe(s: Sys, p: nat)
    requires SysInv(s) && p < |s.procs| && s.procs[p].pc.TmpFill? && s.procs[p].pc.k < HEADER_STORES
    requires s.procs[p].goal.OpenWriter? && OptsValid(s.procs[p].goal.o)
    ensures var pc := s.procs[p].pc;
            && pc.tmp < |s.files|
            && SysInv(SetPc(s.(files := s.files[pc.tmp := FillTmp(s.files[pc.tmp], s.procs[p].goal.o, pc.k)]), p,
                            pc.(k := pc.k + 1)))
  {
    var goal, pc := s.procs[p].goal, s.procs[p].pc;
    assert FilesInv(s.files, s.dataPath, goal, pc);
    FillKeeps(s.files, s.dataPath, goal, pc);
    FillGrows(s.files, pc, goal.o);
    OwnerBuilds(s, p, s.files[pc.tmp := FillTmp(s.files[pc.tmp], goal.o, pc.k)], s.dataPath, pc.(k := pc.k + 1));
  }

  lemma RenameSafe(s: Sys, p: nat, pc': PPc)
    requires SysInv(s) && p < |s.procs| && s.procs[p].pc.TmpFill? && s.procs[p].pc.k >= HEADER_STORES
    requires var pc := s.procs[p].pc;
             pc' == match pc.prev
                    case None => Write(pc.ino, pc.tmp, Writer(None, pc.gen, Idle), None)
                    case Some(fid) => NewRetire(pc.ino, fid, pc.gen, pc.tmp, SetRetired)
    ensures var pc := s.procs[p].pc;
            && pc.tmp < |s.files|
            && SysInv(SetPc(s.(files := s.files[pc.tmp := s.files[pc.tmp].(ready := true)], dataPath := Some(pc.tmp)), p, pc'))
  {
    var goal, pc := s.procs[p].goal, s.procs[p].pc;
    assert FilesInv(s.files, s.dataPath, goal, pc);
    RenameKeeps(s.files, s.dataPath, goal, pc, pc');
    OwnerBuilds(s, p, s.files[pc.tmp := s.files[pc.tmp].(ready := true)], Some(pc.tmp), pc');
  }

  lemma TmpFillSafe(s: Sys, p: nat, random: u32)
    requires SysInv(s) && p < |s.procs| && s.procs[p].pc.TmpFill? && random != 0
    requires s.procs[p].goal.OpenWriter? && OptsValid(s.procs[p].goal.o)
    ensures SysInv(OpenStep(s, p, s.procs[p].goal.o, random))
  {
    var pc := s.procs[p].pc;
    if pc.k < HEADER_STORES {
      FillSafe(s, p);
    } else {
      RenameSafe(s, p, if pc.prev.None? then Write(pc.ino, pc.tmp, Writer(None, pc.gen, Idle), None)
                       else NewRetire(pc.ino, pc.prev.value, pc.gen, pc.tmp, SetRetired));
    }
  }

  lemma FillGrows(fs: seq<Obj>, pc: PPc, o: Opts)
    requires OptsValid(o) && pc.TmpFill? && pc.tmp < |fs| && !fs[pc.tmp].ready
    ensures Grows(fs, fs[pc.tmp := FillTmp(fs[pc.tmp], o, pc.k)])
  {}

  /** The owner executes a store of retire on a replaced or unlinked file. */
  lemma RetireSafe(s: Sys, p: nat, pc': PPc)
    requires SysInv(s) && p < |s.procs| && (s.procs[p].pc.NewRetire? || s.procs[p].pc.UnlinkRetire?)
    requires var pc := s.procs[p].pc;
             && pc.fid < |s.files| && Section(pc') == Section(pc)
             && FilesInv(s.files[pc.fid := s.files[pc.fid].(f := RetireFile(s.files[pc.fid].f, pc.st))], s.dataPath,
                         s.procs[p].goal, pc')
    ensures var pc := s.procs[p].pc;
            SysInv(SetPc(SetFile(s, pc.fid, RetireFile(s.files[pc.fid].f, pc.st), pc.st.WakeRetired?), p, pc'))
  {
    var goal, pc := s.procs[p].goal, s.procs[p].pc;
    assert FilesInv(s.files, s.dataPath, goal, pc);
    OpenedFile(s.files, s.dataPath, goal, pc, pc.fid);
    RetireEvolves(s.files[pc.fid].f, pc.st);
    OwnerStores(s, p, pc.fid, RetireFile(s.files[pc.fid].f, pc.st), pc.st.WakeRetired?, pc');
  }

  lemma NewRetireSafe(s: Sys, p: nat, random: u32)
    requires SysInv(s) && p < |s.procs| && s.procs[p].pc.NewRetire? && random != 0
    ensures s.procs[p].goal.OpenWriter? && OptsValid(s.procs[p].goal.o)
    ensures SysInv(OpenStep(s, p, s.procs[p].goal.o, random))
  {
    hide FileInv, RetireFile, ReaderInv, LockInv;
    var goal, pc := s.procs[p].goal, s.procs[p].pc;
    assert FilesInv(s.files, s.dataPath, goal, pc);
    var pc' := if pc.st.WakeRetired? then Write(pc.ino, pc.tmp, Writer(None, pc.gen, Idle), Some(pc.fid))
               else NewRetire(pc.ino, pc.fid, pc.gen, pc.tmp, RetireAgent(pc.st).stage);
    if pc.st.WakeRetired? { NewRetireDone(s.files, s.dataPath, goal, pc); }
    else { NewRetireKeeps(s.files, s.dataPath, goal, pc, pc'); }
    RetireSafe(s, p, pc');
  }

  lemma DataOpenSafe(s: Sys, p: nat, random: u32)
    requires SysInv(s) && p < |s.procs| && (s.procs[p].pc.DataOpen? || s.procs[p].pc.DataLatest?) && random != 0
    requires s.procs[p].goal.OpenWriter? && OptsValid(s.procs[p].goal.o)
    ensures SysInv(OpenStep(s, p, s.procs[p].goal.o, random))
  {
    var goal, pc := s.procs[p].goal, s.procs[p].pc;
    assert FilesInv(s.files, s.dataPath, goal, pc);
    var pc' := if pc.DataLatest? then DataDecide(pc.ino, pc.fid, s.files[pc.fid].f.latest)
               else if s.dataPath.None? then TmpMake(pc.ino, None, random)
               else DataLatest(pc.ino, s.dataPath.value);
    MoveKeeps(s.files, s.dataPath, s.dataPath, goal, goal, pc, pc');
    OwnerMoves(s, p, pc');
  }

  lemma OpenStepSafe(s: Sys, p: nat, random: u32)
    requires SysInv(s) && p < |s.procs| && Section(s.procs[p].pc).Some? && random != 0
    requires s.procs[p].goal.OpenWriter? && OptsValid(s.procs[p].goal.o)
    ensures SysInv(OpenStep(s, p, s.procs[p].goal.o, random))
  {
    var goal, pc := s.procs[p].goal, s.procs[p].pc;
    assert FilesInv(s.files, s.dataPath, goal, pc);
    match pc
    case DataOpen(_) => DataOpenSafe(s, p, random);
    case DataLatest(_, _) => DataOpenSafe(s, p, random);
    case DataDecide(_, _, _) => DecideSafe(s, p, random);
    case TmpMake(_, _, _) => MakeSafe(s, p);
    case TmpFill(_, _, _, _, _) => TmpFillSafe(s, p, random);
    case NewRetire(_, _, _, _, _) => NewRetireSafe(s, p, random);
    case _ =>
  }

  lemma UnlinkLockSafe(s: Sys, p: nat)
    requires SysInv(s) && p < |s.procs| && s.procs[p].pc.UnlinkLock?
    ensures SysInv(UnlinkStep(s, p))
  {
    var t := UnlinkStep(s, p);
    UnlinkLockKeeps(s, p);
    LeaveKeeps(s.files, s.dataPath, s.procs[p].goal, s.procs[p].pc);
    OwnerSteps(s, t, p);
  }

  lemma UnlinkRetireSafe(s: Sys, p: nat)
    requires SysInv(s) && p < |s.procs| && s.procs[p].pc.UnlinkRetire?
    ensures SysInv(UnlinkStep(s, p))
  {
    var goal, pc := s.procs[p].goal, s.procs[p].pc;
    assert FilesInv(s.files, s.dataPath, goal, pc);
    var pc' := if pc.st.WakeRetired? then UnlinkLock(pc.ino)
               else UnlinkRetire(pc.ino, pc.fid, RetireAgent(pc.st).stage);
    UnlinkRetireKeeps(s.files, s.dataPath, goal, pc, pc');
    RetireSafe(s, p, pc');
  }

  lemma UnlinkStepSafe(s: Sys, p: nat)
    requires SysInv(s) && p < |s.procs| && Section(s.procs[p].pc).Some?
    ensures SysInv(UnlinkStep(s, p))
  {
    hide FileOk, ReaderInv, FileInv, LockInv, RetireFile;
    var goal, pc := s.procs[p].goal, s.procs[p].pc;
    assert FilesInv(s.files, s.dataPath, goal, pc);
    match pc
    case UnlinkOpen(ino) =>
      var pc' := if s.dataPath.None? then UnlinkLock(ino) else UnlinkData(ino, s.dataPath.value);
      MoveKeeps(s.files, s.dataPath, s.dataPath, goal, goal, pc, pc');
      OwnerMoves(s, p, pc');
    case UnlinkData(ino, fid) =>
      UnlinkDataKeeps(s.files, s.dataPath, goal, pc);
      OwnerBuilds(s, p, s.files, None, UnlinkRetire(ino, fid, SetRetired));
    case UnlinkRetire(_, _, _) => UnlinkRetireSafe(s, p);
    case UnlinkLock(_) => UnlinkLockSafe(s, p);
    case _ =>
  }

  /** The channel's history decides nothing. */
  lemma HistoryOnly(s: Sys, t: Sys)
    requires SysInv(s) && t == s.(clock := t.clock, pubs := t.pubs, orphans := t.orphans)
    ensures SysInv(t)
  {
    LockUnchanged(s, t);
    assert NoOwner(t) ==> NoOwner(s);
  }

  lemma UnmappedSafe(s: Sys, p: nat)
    requires SysInv(s) && p < |s.procs| && s.procs[p].pc.UnlinkData?
    ensures SysInv(UnlinkUnmapped(s, p))
  {
    var goal, pc := s.procs[p].goal, s.procs[p].pc;
    assert FilesInv(s.files, s.dataPath, goal, pc);
    var t := SetPc(s.(dataPath := None), p, UnlinkLock(pc.ino));
    MoveKeeps(s.files, s.dataPath, None, goal, goal, pc, UnlinkLock(pc.ino));
    OwnerBuilds(s, p, s.files, None, UnlinkLock(pc.ino));
    HistoryOnly(t, UnlinkUnmapped(s, p));
  }

  /** What an action of the writer leaves, before the history is written. */
  lemma WriteSafe(s: Sys, p: nat, a: WAct)
    requires SysInv(s) && p < |s.procs| && s.procs[p].pc.Write? && s.procs[p].pc.fid < |s.files|
    requires WEnabled(s.files[s.procs[p].pc.fid].f, s.procs[p].pc.w, a)
    ensures var pc := s.procs[p].pc;
            var f := s.files[pc.fid].f;
            SysInv(SetPc(SetFile(s, pc.fid, WFile(f, pc.w, a), Wakes(pc.w, a)), p,
                         Write(pc.ino, pc.fid, WHandle(f, pc.w, a), pc.from)))
  {
    hide FileInv, WFile, WHandle, WEnabled, ReaderInv, LockInv;
    var goal, pc := s.procs[p].goal, s.procs[p].pc;
    assert FilesInv(s.files, s.dataPath, goal, pc);
    assert Exists(s.files, pc.fid);
    hide FilesInv, SysInv;
    OpenedFile(s.files, s.dataPath, goal, pc, pc.fid);
    var f := s.files[pc.fid].f;
    PublishKeeps(s.files, s.dataPath, goal, pc, a);
    WriterEvolves(f, pc.w, a);
    OwnerStores(s, p, pc.fid, WFile(f, pc.w, a), Wakes(pc.w, a), Write(pc.ino, pc.fid, WHandle(f, pc.w, a), pc.from));
  }

  lemma PublishStepSafe(s: Sys, p: nat, a: WAct)
    requires SysInv(s) && p < |s.procs|
    ensures SysInv(PublishStep(s, p, a))
  {
    hide SysInv, WFile, WHandle, WEnabled;
    var pc := s.procs[p].pc;
    if pc.Write? && pc.fid < |s.files| && WEnabled(s.files[pc.fid].f, pc.w, a) && (a.Stamp? ==> s.clock <= a.t) {
      WriteSafe(s, p, a);
      var f := s.files[pc.fid].f;
      var pc' := Write(pc.ino, pc.fid, WHandle(f, pc.w, a), pc.from);
      HistoryOnly(SetPc(SetFile(s, pc.fid, WFile(f, pc.w, a), Wakes(pc.w, a)), p, pc'), PublishStep(s, p, a));
    }
  }

  lemma CloseSafe(s: Sys, p: nat)
    requires SysInv(s) && p < |s.procs| && MayClose(s.procs[p].pc)
    ensures SysInv(SetPc(s, p, Closing(s.procs[p].pc.ino)))
  {
    var pc := s.procs[p].pc;
    AbandonKeeps(s.files, s.dataPath, s.procs[p].goal, pc);
    assert CrashFile(s.files[pc.fid].f, AgentOf(pc, pc.fid)) == s.files[pc.fid].f;
    assert s.files[pc.fid := s.files[pc.fid].(f := s.files[pc.fid].f)] == s.files;
    OwnerLeaves(s, p);
  }

  lemma FailSafe(s: Sys, p: nat)
    requires SysInv(s) && p < |s.procs| && MayFail(s.procs[p].pc)
    ensures SysInv(SetPc(s, p, Closing(s.procs[p].pc.ino)))
  {
    LeaveKeeps(s.files, s.dataPath, s.procs[p].goal, s.procs[p].pc);
    OwnerLeaves(s, p);
  }

  lemma CrashLock(s: Sys, t: Sys, p: nat)
    requires LockInv(s) && p < |s.procs|
    requires t.lockPath == s.lockPath && t.unlinks == s.unlinks
    requires t.procs == s.procs[p := s.procs[p].(pc := Out)]
    requires t.holders == if Held(s.procs[p].pc).Some? then Release(s, Held(s.procs[p].pc).value).holders else s.holders
    ensures LockInv(t)
  {
    assert LoopInv(s, p) && HoldInv(s, p);
    if Held(s.procs[p].pc).Some? {
      ReleaseKeeps(s, t, p, Held(s.procs[p].pc).value);
    } else {
      LockUntouched(s, t, p);
    }
  }

  /** The owner dies in the middle of a publish or retire. */
  lemma CrashAgent(s: Sys, t: Sys, p: nat, fid: nat)
    requires SysInv(s) && p < |s.procs|
    requires s.procs[p].pc.Write? || s.procs[p].pc.NewRetire? || s.procs[p].pc.UnlinkRetire?
    requires fid == s.procs[p].pc.fid && fid < |s.files|
    requires t.files == s.files[fid := s.files[fid].(f := CrashFile(s.files[fid].f, AgentOf(s.procs[p].pc, fid)))]
    requires t.readers == s.readers && t.dataPath == s.dataPath && t.procs == s.procs[p := s.procs[p].(pc := Out)]
    ensures OwnerInv(t) && ReadersInv(t)
  {
    var goal, pc := s.procs[p].goal, s.procs[p].pc;
    AbandonKeeps(s.files, s.dataPath, goal, pc);
    OpenedFile(s.files, s.dataPath, goal, pc, fid);
    CrashKeeps(s.files[fid].f, AgentOf(pc, fid));
    OwnerSteps(s, t, p);
    FilesAreSound(t.files, t.dataPath, UnlinkChannel, Out);
    ReadersStored(s, t, fid, false);
  }

  lemma CrashIdle(s: Sys, t: Sys, p: nat)
    requires SysInv(s) && p < |s.procs|
    requires !s.procs[p].pc.Write? && !s.procs[p].pc.NewRetire? && !s.procs[p].pc.UnlinkRetire?
    requires t.files == s.files && t.dataPath == s.dataPath && t.procs == s.procs[p := s.procs[p].(pc := Out)]
    ensures OwnerInv(t)
  {
    if Section(s.procs[p].pc).Some? {
      LeaveKeeps(s.files, s.dataPath, s.procs[p].goal, s.procs[p].pc);
      OwnerSteps(s, t, p);
    } else {
      OutsiderSteps(s, t, p);
    }
  }

  lemma CrashSafe(s: Sys, p: nat)
    requires SysInv(s) && p < |s.procs|
    ensures SysInv(Crashed(s, p))
  {
    hide FileOk, ReaderInv, FileInv, CrashFile;
    var pc := s.procs[p].pc;
    var t := Crashed(s, p);
    CrashLock(s, t, p);
    if pc.Write? || pc.NewRetire? || pc.UnlinkRetire? {
      assert FilesInv(s.files, s.dataPath, s.procs[p].goal, pc);
      CrashAgent(s, t, p, pc.fid);
    } else {
      CrashIdle(s, t, p);
    }
  }

  lemma StartSafe(s: Sys, p: nat, goal: Goal)
    requires SysInv(s) && p < |s.procs| && s.procs[p].pc.Out? && (goal.OpenWriter? ==> OptsValid(goal.o))
    ensures SysInv(s.(procs := s.procs[p := Proc(LockCreate, goal, s.unlinks, s.unlinks, 0, None)]))
  {
    var t := s.(procs := s.procs[p := Proc(LockCreate, goal, s.unlinks, s.unlinks, 0, None)]);
    LockUntouched(s, t, p);
    OutsiderSteps(s, t, p);
  }

  lemma AdvanceSafe(s: Sys, p: nat, random: u32)
    requires SysInv(s)
    ensures SysInv(Apply(s, Advance(p, random)))
  {
    if p < |s.procs| && random != 0 {
      if Section(s.procs[p].pc).None? { LockStepSafe(s, p); }
      else if s.procs[p].goal.OpenWriter? { OpenStepSafe(s, p, random); }
      else { UnlinkStepSafe(s, p); }
    }
  }

  /** A reader's step changes nothing but the reader. */
  lemma ReaderOnly(s: Sys, t: Sys)
    requires SysInv(s) && t == s.(readers := t.readers) && ReadersInv(t)
    ensures SysInv(t)
  {
    LockUnchanged(s, t);
    assert NoOwner(t) ==> NoOwner(s);
  }

  lemma PathExists(s: Sys)
    requires SysInv(s)
    ensures s.dataPath.Some? ==> Exists(s.files, s.dataPath.value) && !s.files[s.dataPath.value].f.retired
                                 && Sound(s.files[s.dataPath.value])
  {
    if !NoOwner(s) {
      var p :| 0 <= p < |s.procs| && Section(s.procs[p].pc).Some?;
      PathIsSound(s.files, s.dataPath, s.procs[p].goal, s.procs[p].pc);
    } else {
      PathIsSound(s.files, s.dataPath, UnlinkChannel, Out);
    }
  }

  lemma PathIsSound(fs: seq<Obj>, path: Option<nat>, goal: Goal, pc: PPc)
    requires FilesInv(fs, path, goal, pc)
    ensures path.Some? ==> Exists(fs, path.value) && !fs[path.value].f.retired && Sound(fs[path.value])
  {
    if path.Some? { assert FileOk(fs, pc, path.value); }
  }

  lemma LoadSafe(s: Sys, j: nat)
    requires SysInv(s) && j < |s.readers|
    ensures SysInv(LoadStep(s, j))
  {
    hide LoadStep, FilesInv, LockInv, ReaderInv, FileInv;
    PathExists(s);
    LoadStepKeeps(s, j);
    LoadsOnly(s, j);
    ReaderOnly(s, LoadStep(s, j));
  }

  lemma LoadsOnly(s: Sys, j: nat)
    requires j < |s.readers|
    ensures LoadStep(s, j) == s.(readers := LoadStep(s, j).readers)
  {}

  lemma CallSafe(s: Sys, j: nat, op: Op)
    requires SysInv(s)
    ensures SysInv(Apply(s, Call(j, op)))
  {
    if j < |s.readers| && s.readers[j].pc.Resting? {
      StartCallKeeps(s, j, op);
      ReaderOnly(s, Apply(s, Call(j, op)));
    }
  }

  lemma TouchSafe(s: Sys, j: nat)
    requires SysInv(s)
    ensures SysInv(Apply(s, Describe(j))) && SysInv(Apply(s, WriterAlive(j)))
  {
    if j < |s.readers| && s.readers[j].pc.Resting? {
      TouchKeeps(s, j, Sync);
      TouchKeeps(s, j, Identify);
      ReaderOnly(s, Apply(s, Describe(j)));
      ReaderOnly(s, Apply(s, WriterAlive(j)));
    }
  }

  lemma WaitSafe(s: Sys, j: nat)
    requires SysInv(s) && j < |s.readers|
    ensures SysInv(DeadlineStep(s, j)) && SysInv(SliceStep(s, j))
  {
    DeadlineKeeps(s, j);
    SliceKeeps(s, j);
    ReaderOnly(s, DeadlineStep(s, j));
    ReaderOnly(s, SliceStep(s, j));
  }

  /** Every action, of any process or reader, keeps the invariant. */
  lemma StepSafe(s: Sys, a: Act)
    requires SysInv(s)
    ensures SysInv(Apply(s, a))
  {
    hide SysInv, LockStep, OpenStep, UnlinkStep, UnlinkUnmapped, PublishStep, Crashed, LoadStep, DeadlineStep, SliceStep;
    match a
    case Start(p, goal) =>
      if p < |s.procs| && s.procs[p].pc.Out? && (goal.OpenWriter? ==> OptsValid(goal.o)) { StartSafe(s, p, goal); }
    case Advance(p, random) => AdvanceSafe(s, p, random);
    case Publish(p, wa) => if p < |s.procs| { PublishStepSafe(s, p, wa); }
    case Close(p) => if p < |s.procs| && MayClose(s.procs[p].pc) { CloseSafe(s, p); }
    case Fail(p) => if p < |s.procs| && MayFail(s.procs[p].pc) { FailSafe(s, p); }
    case MapFail(p) => if p < |s.procs| && s.procs[p].pc.UnlinkData? { UnmappedSafe(s, p); }
    case Crash(p) => if p < |s.procs| { CrashSafe(s, p); }
    case Call(j, op) => CallSafe(s, j, op);
    case Describe(j) => TouchSafe(s, j);
    case WriterAlive(j) => TouchSafe(s, j);
    case Load(j) => if j < |s.readers| { LoadSafe(s, j); }
    case Deadline(j) => if j < |s.readers| { WaitSafe(s, j); }
    case Slice(j) => if j < |s.readers| { WaitSafe(s, j); }
  }

  lemma {:induction false} RunSafe(s: Sys, acts: seq<Act>)
    requires SysInv(s)
    ensures SysInv(Run(s, acts))
    decreases |acts|
  {
    if acts != [] {
      StepSafe(s, acts[0]);
      RunSafe(Apply(s, acts[0]), acts[1..]);
    }
  }

  lemma InitSafe(np: nat, nr: nat)
    ensures SysInv(Init(np, nr))
  {
    var s := Init(np, nr);
    forall p | 0 <= p < |s.procs|
      ensures HoldInv(s, p) && LoopInv(s, p)
    {}
  }

  /** The invariant of every reachable state. */
  lemma AllRunsSafe(np: nat, nr: nat, acts: seq<Act>)
    ensures SysInv(Run(Init(np, nr), acts))
  {
    InitSafe(np, nr);
    RunSafe(Init(np, nr), acts);
  }
}
