// open_data, create_file, retire, unlink, publish, close and crash: what the process in the
// section does to the data files.
module SystemFiles {
  import opened Bytes
  import opened Layout
  import opened Ring
  import opened RingInvariant
  import opened RingWriter
  import opened System
  import opened SystemInvariant

  lemma SoundStore(ob: Obj, g: File, wake: bool)
    requires Sound(ob) && Evolves(ob.f, g, wake)
    ensures Sound(ob.(f := g))
  {}

  /** A file the step does not touch. */
  lemma OtherFile(fs: seq<Obj>, ft: seq<Obj>, pc: PPc, pc': PPc, k: nat)
    requires k < |fs| && k < |ft| && FileOk(fs, pc, k) && ft[k] == fs[k] && AgentOf(pc', k) == AgentOf(pc, k)
    ensures FileOk(ft, pc', k)
  {}

  /** A store into one file by its agent. */
  lemma StoreKeeps(fs: seq<Obj>, path: Option<nat>, goal: Goal, pc: PPc, pc': PPc, fid: nat, g: File, wake: bool)
    requires FilesInv(fs, path, goal, pc) && Exists(fs, fid)
    requires Evolves(fs[fid].f, g, wake) && AgentInv(g, AgentOf(pc', fid))
    requires forall k :: k != fid ==> AgentOf(pc', k) == AgentOf(pc, k)
    requires path == Some(fid) ==> !g.retired
    requires SectionInv(fs[fid := fs[fid].(f := g)], path, goal, pc')
    ensures FilesInv(fs[fid := fs[fid].(f := g)], path, goal, pc')
  {
    var ft := fs[fid := fs[fid].(f := g)];
    forall k | 0 <= k < |ft|
      ensures FileOk(ft, pc', k)
    {
      assert FileOk(fs, pc, k);
      if k == fid { SoundStore(fs[k], g, wake); } else { OtherFile(fs, ft, pc, pc', k); }
    }
  }

  /** The process moves on without touching a file. */
  lemma MoveKeeps(fs: seq<Obj>, path: Option<nat>, path': Option<nat>, goal: Goal, goal': Goal, pc: PPc, pc': PPc)
    requires FilesInv(fs, path, goal, pc)
    requires forall k :: AgentOf(pc', k) == AgentOf(pc, k)
    requires path' == path || path'.None?
    requires SectionInv(fs, path', goal', pc')
    ensures FilesInv(fs, path', goal', pc')
  {
    forall k | 0 <= k < |fs|
      ensures FileOk(fs, pc', k)
    {
      assert FileOk(fs, pc, k);
      OtherFile(fs, fs, pc, pc', k);
    }
  }

  /** The process becomes, or stops being, the agent of one file without a store. */
  lemma AgentKeeps(fs: seq<Obj>, path: Option<nat>, path': Option<nat>, goal: Goal, pc: PPc, pc': PPc, fid: nat)
    requires FilesInv(fs, path, goal, pc) && Exists(fs, fid)
    requires AgentInv(fs[fid].f, AgentOf(pc', fid))
    requires forall k :: k != fid ==> AgentOf(pc', k) == AgentOf(pc, k)
    requires path' == path || path'.None?
    requires SectionInv(fs, path', goal, pc')
    ensures FilesInv(fs, path', goal, pc')
  {
    forall k | 0 <= k < |fs|
      ensures FileOk(fs, pc', k)
    {
      assert FileOk(fs, pc, k);
      if k != fid { OtherFile(fs, fs, pc, pc', k); }
    }
  }

  // ---- open_data -----------------------------------------------------------------------------------

  lemma OpenedFile(fs: seq<Obj>, path: Option<nat>, goal: Goal, pc: PPc, fid: nat)
    requires FilesInv(fs, path, goal, pc) && Exists(fs, fid)
    ensures Sound(fs[fid]) && AgentInv(fs[fid].f, AgentOf(pc, fid)) && FileInv(fs[fid].f)
  {
    assert FileOk(fs, pc, fid);
  }

  /** The generation open_data carries over is the successor of the file's last value. */
  lemma CarriedOver(f: File, random: u32)
    requires FileInv(f) && !f.adopted && random != 0
    ensures LatestValid(f.latest, |f.slots|)
    ensures Carries(f, CarriedGen(f, f.latest, random))
  {
    LatestHolds(f);
  }

  lemma ReusedHandle(f: File, random: u32)
    requires AgentInv(f, NoAgent) && !f.retired && random != 0
    ensures AgentInv(f, Writing(Writer(if f.latest == NONE then None else Some(LatestSlot(f.latest)),
                                       CarriedGen(f, f.latest, random), Idle)))
  {
    LatestHolds(f);
    ReuseKeeps(f, random);
  }

  /** The first handle of a fresh file. */
  lemma NewHandle(f: File, gen: u32)
    requires AgentInv(f, NoAgent) && !f.retired && gen != 0 && f.log == [] && !f.adopted
    ensures AgentInv(f, Writing(Writer(None, gen, Idle)))
  {}

  lemma DecideCreate(fs: seq<Obj>, path: Option<nat>, goal: Goal, pc: PPc, random: u32)
    requires FilesInv(fs, path, goal, pc) && pc.DataDecide? && random != 0
    ensures HeaderValid(fs[pc.fid].hdr, fs[pc.fid].size) && LatestValid(pc.latest, fs[pc.fid].hdr.slotCount)
    ensures FilesInv(fs, path, goal, TmpMake(pc.ino, Some(pc.fid), CarriedGen(fs[pc.fid].f, pc.latest, random)))
  {
    OpenedFile(fs, path, goal, pc, pc.fid);
    CarriedOver(fs[pc.fid].f, random);
    MoveKeeps(fs, path, path, goal, goal, pc,
              TmpMake(pc.ino, Some(pc.fid), CarriedGen(fs[pc.fid].f, pc.latest, random)));
  }

  lemma DecideReuse(fs: seq<Obj>, path: Option<nat>, goal: Goal, pc: PPc, random: u32)
    requires FilesInv(fs, path, goal, pc) && pc.DataDecide? && random != 0
    ensures FilesInv(fs, path, goal,
                     Write(pc.ino, pc.fid, Writer(if pc.latest == NONE then None else Some(LatestSlot(pc.latest)),
                                                  CarriedGen(fs[pc.fid].f, pc.latest, random), Idle), None))
  {
    OpenedFile(fs, path, goal, pc, pc.fid);
    ReusedHandle(fs[pc.fid].f, random);
    AgentKeeps(fs, path, path, goal, pc,
               Write(pc.ino, pc.fid, Writer(if pc.latest == NONE then None else Some(LatestSlot(pc.latest)),
                                            CarriedGen(fs[pc.fid].f, pc.latest, random), Idle), None), pc.fid);
  }

  // ---- create_file -----------------------------------------------------------------------------------

  lemma MakeKeeps(fs: seq<Obj>, path: Option<nat>, goal: Goal, pc: PPc)
    requires FilesInv(fs, path, goal, pc) && pc.TmpMake?
    ensures FilesInv(fs + [Blank(goal.o)], path, goal, TmpFill(pc.ino, pc.prev, pc.gen, |fs|, 0))
  {
    var ft := fs + [Blank(goal.o)];
    var pc' := TmpFill(pc.ino, pc.prev, pc.gen, |fs|, 0);
    forall k | 0 <= k < |ft|
      ensures FileOk(ft, pc', k)
    {
      if k < |fs| {
        assert FileOk(fs, pc, k);
        OtherFile(fs, ft, pc, pc', k);
      }
    }
  }

  lemma FillStep(o: Opts, k: nat)
    requires OptsValid(o) && k < HEADER_STORES
    ensures FillTmp(Tmp(o, k), o, k) == Tmp(o, k + 1)
  {}

  lemma FillKeeps(fs: seq<Obj>, path: Option<nat>, goal: Goal, pc: PPc)
    requires FilesInv(fs, path, goal, pc) && pc.TmpFill? && pc.k < HEADER_STORES
    ensures FilesInv(fs[pc.tmp := FillTmp(fs[pc.tmp], goal.o, pc.k)], path, goal, pc.(k := pc.k + 1))
  {
    FillStep(goal.o, pc.k);
    var pc' := pc.(k := pc.k + 1);
    var ft := fs[pc.tmp := FillTmp(fs[pc.tmp], goal.o, pc.k)];
    forall k | 0 <= k < |ft|
      ensures FileOk(ft, pc', k)
    {
      assert FileOk(fs, pc, k);
      if k != pc.tmp { OtherFile(fs, ft, pc, pc', k); }
    }
  }

  /** After all its stores the temporary file is a complete, valid, empty channel. */
  lemma TmpComplete(o: Opts)
    requires OptsValid(o)
    ensures var ob := Tmp(o, HEADER_STORES);
            && Sound(ob.(ready := true)) && AgentInv(ob.f, NoAgent)
            && ob.f.log == [] && !ob.f.retired && !ob.f.adopted
  {
    FreshIsSound(o.cap, o.slotCount, o.payloadType, o.notifyOn, o.minor, 0);
  }

  /** rename: the path only ever names complete files. */
  lemma RenameKeeps(fs: seq<Obj>, path: Option<nat>, goal: Goal, pc: PPc, pc': PPc)
    requires FilesInv(fs, path, goal, pc) && pc.TmpFill? && pc.k == HEADER_STORES
    requires pc' == match pc.prev
                    case None => Write(pc.ino, pc.tmp, Writer(None, pc.gen, Idle), None)
                    case Some(fid) => NewRetire(pc.ino, fid, pc.gen, pc.tmp, SetRetired)
    ensures FilesInv(fs[pc.tmp := fs[pc.tmp].(ready := true)], Some(pc.tmp), goal, pc')
  {
    var ft := fs[pc.tmp := fs[pc.tmp].(ready := true)];
    TmpComplete(goal.o);
    NewHandle(fs[pc.tmp].f, pc.gen);
    forall k | 0 <= k < |ft|
      ensures FileOk(ft, pc', k)
    {
      assert FileOk(fs, pc, k);
      if k != pc.tmp {
        if pc.prev == Some(k) { StartRetire(fs[k].f); } else { OtherFile(fs, ft, pc, pc', k); }
      }
    }
  }

  lemma RetireStoreKeeps(fs: seq<Obj>, path: Option<nat>, goal: Goal, pc: PPc, pc': PPc)
    requires FilesInv(fs, path, goal, pc) && (pc.NewRetire? || pc.UnlinkRetire?)
    requires AgentOf(pc', pc.fid) == RetireAgent(pc.st)
    requires forall k :: k != pc.fid ==> AgentOf(pc', k) == NoAgent
    requires SectionInv(fs[pc.fid := fs[pc.fid].(f := RetireFile(fs[pc.fid].f, pc.st))], path, goal, pc')
    ensures FilesInv(fs[pc.fid := fs[pc.fid].(f := RetireFile(fs[pc.fid].f, pc.st))], path, goal, pc')
  {
    var f := fs[pc.fid].f;
    OpenedFile(fs, path, goal, pc, pc.fid);
    RetireKeeps(f, pc.st);
    RetireEvolves(f, pc.st);
    StoreKeeps(fs, path, goal, pc, pc', pc.fid, RetireFile(f, pc.st), pc.st.WakeRetired?);
  }

  lemma NewRetireKeeps(fs: seq<Obj>, path: Option<nat>, goal: Goal, pc: PPc, pc': PPc)
    requires FilesInv(fs, path, goal, pc) && pc.NewRetire?
    requires RetireAgent(pc.st).Retiring? && pc' == NewRetire(pc.ino, pc.fid, pc.gen, pc.tmp, RetireAgent(pc.st).stage)
    ensures FilesInv(fs[pc.fid := fs[pc.fid].(f := RetireFile(fs[pc.fid].f, pc.st))], path, goal, pc')
  {
    RetireStoreKeeps(fs, path, goal, pc, pc');
  }

  /** The old file is retired: the new one gets its first handle. */
  lemma NewRetireDone(fs: seq<Obj>, path: Option<nat>, goal: Goal, pc: PPc)
    requires FilesInv(fs, path, goal, pc) && pc.NewRetire? && pc.st.WakeRetired?
    ensures FilesInv(fs[pc.fid := fs[pc.fid].(f := RetireFile(fs[pc.fid].f, pc.st))], path, goal,
                     Write(pc.ino, pc.tmp, Writer(None, pc.gen, Idle), Some(pc.fid)))
  {
    var ft := fs[pc.fid := fs[pc.fid].(f := RetireFile(fs[pc.fid].f, pc.st))];
    RetireStoreKeeps(fs, path, goal, pc, DataOpen(pc.ino));
    OpenedFile(ft, path, goal, DataOpen(pc.ino), pc.tmp);
    NewHandle(ft[pc.tmp].f, pc.gen);
    AgentKeeps(ft, path, path, goal, DataOpen(pc.ino), Write(pc.ino, pc.tmp, Writer(None, pc.gen, Idle), Some(pc.fid)), pc.tmp);
  }

  // ---- publish -----------------------------------------------------------------------------------------

  lemma GenAfter(f: File, w: Writer, a: WAct)
    requires WEnabled(f, w, a)
    ensures WHandle(f, w, a).gen == w.gen || Publishes(w, a) || w.pc.WakeAll?
  {}

  lemma SucceedsKeeps(f0: File, f: File, w: Writer, a: WAct)
    requires WEnabled(f, w, a) && Succeeds(f0, f, w) && (w.pc.WakeAll? ==> f.log != [])
    ensures Succeeds(f0, WFile(f, w, a), WHandle(f, w, a))
  {
    LogAfter(f, w, a);
    GenAfter(f, w, a);
  }

  lemma PublishSection(fs: seq<Obj>, path: Option<nat>, goal: Goal, pc: PPc, a: WAct)
    requires FilesInv(fs, path, goal, pc) && pc.Write? && WEnabled(fs[pc.fid].f, pc.w, a)
    ensures SectionInv(fs[pc.fid := fs[pc.fid].(f := WFile(fs[pc.fid].f, pc.w, a))], path, goal,
                       pc.(w := WHandle(fs[pc.fid].f, pc.w, a)))
  {
    OpenedFile(fs, path, goal, pc, pc.fid);
    if pc.from.Some? { SucceedsKeeps(fs[pc.from.value].f, fs[pc.fid].f, pc.w, a); }
  }

  lemma PublishKeeps(fs: seq<Obj>, path: Option<nat>, goal: Goal, pc: PPc, a: WAct)
    requires FilesInv(fs, path, goal, pc) && pc.Write? && WEnabled(fs[pc.fid].f, pc.w, a)
    ensures FilesInv(fs[pc.fid := fs[pc.fid].(f := WFile(fs[pc.fid].f, pc.w, a))], path, goal,
                     pc.(w := WHandle(fs[pc.fid].f, pc.w, a)))
  {
    OpenedFile(fs, path, goal, pc, pc.fid);
    var f := fs[pc.fid].f;
    WriterKeeps(f, pc.w, a);
    WriterEvolves(f, pc.w, a);
    PublishSection(fs, path, goal, pc, a);
    StoreKeeps(fs, path, goal, pc, pc.(w := WHandle(f, pc.w, a)), pc.fid, WFile(f, pc.w, a), Wakes(pc.w, a));
  }

  // ---- unlink ----------------------------------------------------------------------------------------------

  lemma UnlinkDataKeeps(fs: seq<Obj>, path: Option<nat>, goal: Goal, pc: PPc)
    requires FilesInv(fs, path, goal, pc) && pc.UnlinkData?
    ensures FilesInv(fs, None, goal, UnlinkRetire(pc.ino, pc.fid, SetRetired))
  {
    OpenedFile(fs, path, goal, pc, pc.fid);
    StartRetire(fs[pc.fid].f);
    AgentKeeps(fs, path, None, goal, pc, UnlinkRetire(pc.ino, pc.fid, SetRetired), pc.fid);
  }

  lemma UnlinkRetireKeeps(fs: seq<Obj>, path: Option<nat>, goal: Goal, pc: PPc, pc': PPc)
    requires FilesInv(fs, path, goal, pc) && pc.UnlinkRetire?
    requires pc' == match RetireAgent(pc.st)
                    case Retiring(st') => UnlinkRetire(pc.ino, pc.fid, st')
                    case _ => UnlinkLock(pc.ino)
    ensures FilesInv(fs[pc.fid := fs[pc.fid].(f := RetireFile(fs[pc.fid].f, pc.st))], path, goal, pc')
  {
    RetireStoreKeeps(fs, path, goal, pc, pc');
  }

  // ---- leaving the section ----------------------------------------------------------------------------------

  /** The process leaves while it is no file's agent. */
  lemma LeaveKeeps(fs: seq<Obj>, path: Option<nat>, goal: Goal, pc: PPc)
    requires FilesInv(fs, path, goal, pc)
    requires forall k :: AgentOf(pc, k) == NoAgent
    ensures FilesInv(fs, path, UnlinkChannel, Out)
  {
    MoveKeeps(fs, path, path, goal, UnlinkChannel, pc, Out);
  }

  /** The process dies, or closes its handle, while it is an agent. */
  lemma AbandonKeeps(fs: seq<Obj>, path: Option<nat>, goal: Goal, pc: PPc)
    requires FilesInv(fs, path, goal, pc)
    requires pc.Write? || pc.NewRetire? || pc.UnlinkRetire?
    ensures Exists(fs, pc.fid)
    ensures FilesInv(fs[pc.fid := fs[pc.fid].(f := CrashFile(fs[pc.fid].f, AgentOf(pc, pc.fid)))], path, UnlinkChannel, Out)
  {
    hide FileInv;
    OpenedFile(fs, path, goal, pc, pc.fid);
    var f := fs[pc.fid].f;
    var g := CrashFile(f, AgentOf(pc, pc.fid));
    CrashKeeps(f, AgentOf(pc, pc.fid));
    StoreKeeps(fs, path, goal, pc, Out, pc.fid, g, false);
    LeaveKeeps(fs[pc.fid := fs[pc.fid].(f := g)], path, goal, Out);
  }
}
