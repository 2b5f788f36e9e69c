// What holds of the channel in every reachable state.
module SystemInvariant {
  import opened Bytes
  import opened Layout
  import opened Ring
  import opened RingInvariant
  import opened RingReader
  import opened RingReading
  import opened System

  // ---- the lock ---------------------------------------------------------------------------------

  /** The lock path still names the inode a process opened, or was unlinked since its iteration began. */
  ghost predicate StillNamed(s: Sys, p: nat, ino: nat)
    requires p < |s.procs|
  {
    ino < |s.holders| && (s.lockPath == Some(ino) || s.unlinks > s.procs[p].iter0)
  }

  ghost predicate LoopInv(s: Sys, p: nat)
    requires p < |s.procs|
  {
    var pr := s.procs[p];
    && pr.call0 + pr.restarts <= pr.iter0 <= s.unlinks
    && (pr.refusal.Some? ==> pr.refusal.value.0 && pr.refusal.value.1 != p)
    && match pr.pc
       case LockReopen(seen) => StillNamed(s, p, seen)
       case LockTry(ino) => StillNamed(s, p, ino)
       case LockRefused(ino, current, holder) =>
         StillNamed(s, p, ino) && holder != p && (s.lockPath == Some(ino) ==> current)
       case LockVerify(ino) => StillNamed(s, p, ino)
       case _ => true
  }

  ghost predicate HoldInv(s: Sys, p: nat)
    requires p < |s.procs|
  {
    var pc := s.procs[p].pc;
    && (Held(pc).Some? ==> Held(pc).value < |s.holders| && s.holders[Held(pc).value] == Some(p))
    && (Section(pc).Some? ==> s.lockPath == Section(pc))
  }

  ghost predicate LockInv(s: Sys) {
    && (s.lockPath.Some? ==> s.lockPath.value < |s.holders|)
    && (forall i :: 0 <= i < |s.holders| && s.holders[i].Some? ==>
          s.holders[i].value < |s.procs| && Held(s.procs[s.holders[i].value].pc) == Some(i))
    && (forall p :: 0 <= p < |s.procs| ==> HoldInv(s, p))
    && (forall p :: 0 <= p < |s.procs| ==> LoopInv(s, p))
  }

  // ---- the files ----------------------------------------------------------------------------------

  /** A file the path has named: its header is valid and describes the ring. */
  ghost predicate Sound(ob: Obj) {
    && HeaderValid(ob.hdr, ob.size) && !ob.f.adopted
    && ob.hdr.slotCount == |ob.f.slots| && ob.hdr.capacity == ob.f.cap && ob.hdr.payloadType == ob.f.payloadType
    && ob.hdr.configFlags == ConfigFlags(ob.f.notifyOn) && ob.hdr.minor == ob.f.minor
  }

  /** The temporary file after `k` of create_file's stores. */
  ghost function Tmp(o: Opts, k: nat): Obj
    requires OptsValid(o)
  {
    var f := Fresh(o.cap, o.slotCount, o.payloadType, o.notifyOn, o.minor, 0);
    Obj(HeaderUpTo(o, k), FileSize(o.slotCount, SlotStride(o.cap)),
        if k >= HEADER_STORES then f else f.(latest := 0), false)
  }

  ghost predicate Exists(fs: seq<Obj>, fid: nat) {
    fid < |fs| && fs[fid].ready
  }

  /** `gen` follows the last value of a replaced file. */
  ghost predicate Carries(f: File, gen: u32) {
    gen != 0 && (f.log != [] ==> gen == NextGen(f.log[|f.log| - 1].gen))
  }

  /** The first publish of a handle that replaced `f` carries the generation after `f`'s last value. */
  ghost predicate Succeeds(f: File, g: File, w: Writer) {
    f.log != [] ==>
      if g.log == [] then w.gen == NextGen(f.log[|f.log| - 1].gen)
      else g.log[0].gen == NextGen(f.log[|f.log| - 1].gen)
  }

  /** What the process in the section knows about the files. */
  ghost predicate SectionInv(fs: seq<Obj>, path: Option<nat>, goal: Goal, pc: PPc) {
    && (pc.DataOpen? || pc.DataLatest? || pc.DataDecide? || pc.TmpMake? || pc.TmpFill? || pc.NewRetire? || pc.Write?
        ==> goal.OpenWriter? && OptsValid(goal.o))
    && (pc.UnlinkOpen? || pc.UnlinkData? || pc.UnlinkRetire? || pc.UnlinkLock? ==> goal.UnlinkChannel?)
    && match pc
       case DataLatest(_, fid) => path == Some(fid)
       case DataDecide(_, fid, latest) => path == Some(fid) && Exists(fs, fid) && fs[fid].f.latest == latest
       case TmpMake(_, prev, gen) =>
         path == prev && gen != 0 && (prev.Some? ==> Exists(fs, prev.value) && Carries(fs[prev.value].f, gen))
       case TmpFill(_, prev, gen, tmp, k) =>
         && path == prev && gen != 0 && (prev.Some? ==> Exists(fs, prev.value) && Carries(fs[prev.value].f, gen))
         && k <= HEADER_STORES && tmp < |fs| && fs[tmp] == Tmp(goal.o, k)
       case NewRetire(_, fid, gen, tmp, _) =>
         && path == Some(tmp) && Exists(fs, tmp) && fs[tmp].f.log == []
         && fid != tmp && Exists(fs, fid) && Carries(fs[fid].f, gen)
       case Write(_, fid, w, from) =>
         && path == Some(fid)
         && (from.Some? ==> from.value != fid && Exists(fs, from.value) && Exists(fs, fid)
                            && Succeeds(fs[from.value].f, fs[fid].f, w))
       case UnlinkData(_, fid) => path == Some(fid)
       case UnlinkRetire(_, fid, _) => path.None? && Exists(fs, fid)
       case UnlinkLock(_) => path.None?
       case _ => true
  }

  ghost predicate FileOk(fs: seq<Obj>, pc: PPc, fid: nat)
    requires fid < |fs|
  {
    fs[fid].ready ==> Sound(fs[fid]) && AgentInv(fs[fid].f, AgentOf(pc, fid))
  }

  ghost predicate FilesInv(fs: seq<Obj>, path: Option<nat>, goal: Goal, pc: PPc) {
    && (forall fid :: 0 <= fid < |fs| ==> FileOk(fs, pc, fid))
    && (path.Some? ==> Exists(fs, path.value) && !fs[path.value].f.retired)
    && SectionInv(fs, path, goal, pc)
  }

  ghost predicate NoOwner(s: Sys) {
    forall p :: 0 <= p < |s.procs| ==> Section(s.procs[p].pc).None?
  }

  ghost predicate OwnerInv(s: Sys) {
    && (forall p :: 0 <= p < |s.procs| && Section(s.procs[p].pc).Some? ==>
          FilesInv(s.files, s.dataPath, s.procs[p].goal, s.procs[p].pc))
    && (NoOwner(s) ==> FilesInv(s.files, s.dataPath, UnlinkChannel, Out))
    && (forall p :: 0 <= p < |s.procs| && s.procs[p].goal.OpenWriter? ==> OptsValid(s.procs[p].goal.o))
  }

  // ---- the readers ---------------------------------------------------------------------------------

  ghost predicate FilesSound(fs: seq<Obj>) {
    forall fid :: 0 <= fid < |fs| && fs[fid].ready ==> FileInv(fs[fid].f) && !fs[fid].f.adopted
  }

  ghost predicate Counts(o: Outcome) {
    o.Value? || o.TooSmall?
  }

  ghost predicate ResultInv(fs: seq<Obj>, res: Result) {
    && Exists(fs, res.fid)
    && Explained(fs[res.fid].f, res.op, res.o, res.first, res.base, res.fin, res.ok)
    && res.fid !in res.at.gone
  }

  /** Later results from one file are never older values. */
  ghost predicate Ordered(rs: seq<Result>) {
    forall k, m :: 0 <= k < m < |rs| && rs[k].fid == rs[m].fid && Counts(rs[k].o) && Counts(rs[m].o) ==>
      rs[k].base <= rs[m].base
  }

  ghost predicate ReaderInv(fs: seq<Obj>, rp: RProc)
    requires FilesSound(fs)
  {
    && (rp.att.Some? ==> Exists(fs, rp.att.value))
    && (rp.pc.Attached? || rp.pc.InRing? ==> rp.att.Some?)
    && (rp.pc.InRing? || rp.pc.Polling? ==> !rp.only)
    && (forall fid :: fid in rp.at.gone ==> fid < |fs| && fs[fid].f.retired)
    && (forall k :: 0 <= k < |rp.results| ==> ResultInv(fs, rp.results[k]))
    && Ordered(rp.results)
    && (rp.pc.InRing? ==>
          var f := fs[rp.att.value].f;
          && rp.att.value !in rp.at.gone
          && RInv(f, rp.r)
          && rp.r.first <= |f.log|
          && (forall k :: 0 <= k < |rp.results| && rp.results[k].fid == rp.att.value && Counts(rp.results[k].o) ==>
                rp.results[k].base <= rp.r.first))
  }

  ghost predicate ReadersInv(s: Sys) {
    FilesSound(s.files) && forall j :: 0 <= j < |s.readers| ==> ReaderInv(s.files, s.readers[j])
  }

  ghost predicate SysInv(s: Sys) {
    LockInv(s) && OwnerInv(s) && ReadersInv(s)
  }

  // ---- exclusion -------------------------------------------------------------------------------------

  /** No two processes are ever between a successful identity check and close or unlink. */
  lemma Exclusion(s: Sys, p: nat, q: nat)
    requires LockInv(s) && p < |s.procs| && q < |s.procs|
    requires Section(s.procs[p].pc).Some? && Section(s.procs[q].pc).Some?
    ensures p == q
    ensures s.lockPath == Section(s.procs[p].pc) && s.holders[s.lockPath.value] == Some(p)
  {
    assert HoldInv(s, p) && HoldInv(s, q);
  }

  /** The holder of the inode the path names excludes everyone else from the section. */
  lemma VerifiedAlone(s: Sys, p: nat)
    requires LockInv(s) && p < |s.procs| && s.procs[p].pc.LockVerify?
    requires s.lockPath == Some(s.procs[p].pc.ino)
    ensures NoOwner(s)
  {
    assert HoldInv(s, p);
    forall q | 0 <= q < |s.procs|
      ensures Section(s.procs[q].pc).None?
    {
      assert HoldInv(s, q);
    }
  }
}
