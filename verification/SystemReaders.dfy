// Readers: attaching, following a retire, and everything they returned, through every step.
module SystemReaders {
  import opened Bytes
  import opened Ring
  import opened RingInvariant
  import opened RingWriter
  import opened RingReader
  import opened RingReading
  import opened System
  import opened SystemInvariant

  /** Every file that exists stays, and its ring is unchanged. */
  ghost predicate Grows(fs: seq<Obj>, ft: seq<Obj>) {
    |fs| <= |ft| && forall fid :: 0 <= fid < |fs| ==>
      (fs[fid].ready ==> ft[fid].ready) && ft[fid].f.retired == fs[fid].f.retired && (fs[fid].ready ==> ft[fid].f == fs[fid].f)
  }

  lemma GrowsKeeps(fs: seq<Obj>, ft: seq<Obj>, rp: RProc)
    requires FilesSound(fs) && FilesSound(ft) && Grows(fs, ft) && ReaderInv(fs, rp)
    ensures ReaderInv(ft, rp)
  {
    forall k | 0 <= k < |rp.results|
      ensures ResultInv(ft, rp.results[k])
    {
      assert ResultInv(fs, rp.results[k]);
    }
  }

  // ---- a store into one file -------------------------------------------------------------------

  ghost predicate StoredInto(fs: seq<Obj>, ft: seq<Obj>, fid: nat, wake: bool) {
    && Exists(fs, fid) && |ft| == |fs| && ft == fs[fid := ft[fid]]
    && ft[fid].ready && Evolves(fs[fid].f, ft[fid].f, wake)
  }

  lemma ResultStored(fs: seq<Obj>, ft: seq<Obj>, fid: nat, wake: bool, res: Result)
    requires StoredInto(fs, ft, fid, wake) && ResultInv(fs, res)
    ensures ResultInv(ft, res)
  {
    if res.fid == fid {
      ExplainedEvolves(fs[fid].f, ft[fid].f, wake, res.op, res.o, res.first, res.base, res.fin, res.ok);
    }
  }

  lemma RingStored(fs: seq<Obj>, ft: seq<Obj>, fid: nat, wake: bool, rp: RProc)
    requires FilesSound(fs) && FilesSound(ft) && StoredInto(fs, ft, fid, wake)
    requires ReaderInv(fs, rp) && rp.pc.InRing?
    ensures var r := if wake then WakeReader(rp, fid).r else rp.r;
            RInv(ft[rp.att.value].f, r) && r.first == rp.r.first <= |ft[rp.att.value].f.log|
  {
    if rp.att == Some(fid) {
      ReaderEvolves(fs[fid].f, ft[fid].f, wake, rp.r);
    }
  }

  lemma StoredKeeps(fs: seq<Obj>, ft: seq<Obj>, fid: nat, wake: bool, rp: RProc)
    requires FilesSound(fs) && FilesSound(ft) && StoredInto(fs, ft, fid, wake)
    requires ReaderInv(fs, rp)
    ensures ReaderInv(ft, if wake then WakeReader(rp, fid) else rp)
  {
    hide FileInv, RInv, Explained;
    forall k | 0 <= k < |rp.results|
      ensures ResultInv(ft, rp.results[k])
    {
      assert ResultInv(fs, rp.results[k]);
      ResultStored(fs, ft, fid, wake, rp.results[k]);
    }
    if rp.pc.InRing? { RingStored(fs, ft, fid, wake, rp); }
  }

  // ---- the reader's own steps --------------------------------------------------------------------

  lemma CallKeeps(s: Sys, rp: RProc, op: Op)
    requires FilesSound(s.files) && ReaderInv(s.files, rp)
    ensures ReaderInv(s.files, BeginCall(s, rp).(r := rp.r.(op := op)))
  {}

  /** A call enters only a file whose RETIRED bit it has just seen clear. */
  lemma EnterKeeps(fs: seq<Obj>, rp: RProc, fid: nat)
    requires FilesSound(fs) && ReaderInv(fs, rp) && rp.att == Some(fid) && !fs[fid].f.retired && !rp.pc.InRing?
    ensures ReaderInv(fs, Enter(rp, fs[fid].f))
  {
    var f := fs[fid].f;
    assert FileInv(f);
    forall k | 0 <= k < |rp.results| && rp.results[k].fid == fid && Counts(rp.results[k].o)
      ensures rp.results[k].base <= |f.log|
    {
      assert ResultInv(fs, rp.results[k]);
    }
  }

  /** Leaving the file, or not having one, is always safe. */
  lemma OutsideKeeps(fs: seq<Obj>, rp: RProc, rp': RProc)
    requires FilesSound(fs) && ReaderInv(fs, rp)
    requires rp'.results == rp.results && rp'.at == rp.at
    requires rp'.att == rp.att || rp'.att.None? || Exists(fs, rp'.att.value)
    requires !rp'.pc.InRing? && (rp'.pc.Attached? ==> rp'.att.Some?)
    requires rp'.pc.Polling? ==> !rp'.only
    ensures ReaderInv(fs, rp')
  {}

  /** `first` only ever moves forward within a call. */
  lemma FirstGrows(f: File, r: Reader)
    requires RReady(f, r) && r.first <= |f.log|
    ensures r.first <= RNext(f, r).first <= |f.log|
  {}

  lemma RingLoadKeeps(fs: seq<Obj>, rp: RProc, fid: nat)
    requires FilesSound(fs) && ReaderInv(fs, rp) && rp.pc.InRing? && rp.att == Some(fid)
    requires RReady(fs[fid].f, rp.r)
    ensures ReaderInv(fs, rp.(r := RNext(fs[fid].f, rp.r)))
  {
    assert FileInv(fs[fid].f);
    ReaderKeeps(fs[fid].f, rp.r);
    FirstGrows(fs[fid].f, rp.r);
  }

  /** A returned result is a publish of the file, not older than the results before it. */
  lemma ReturnKeeps(fs: seq<Obj>, rp: RProc, fid: nat, pubs: nat)
    requires FilesSound(fs) && ReaderInv(fs, rp) && rp.pc.InRing? && rp.att == Some(fid) && rp.r.pc.Finished?
    ensures var res := Result(fid, rp.r.op, rp.r.pc.o, rp.r.first, rp.r.base, rp.r.fin, rp.r.ok, rp.at, pubs);
            ReaderInv(fs, rp.(pc := Resting, results := rp.results + [res]))
  {
    var res := Result(fid, rp.r.op, rp.r.pc.o, rp.r.first, rp.r.base, rp.r.fin, rp.r.ok, rp.at, pubs);
    var rs := rp.results + [res];
    forall k | 0 <= k < |rs|
      ensures ResultInv(fs, rs[k])
    {
      if k < |rp.results| { assert ResultInv(fs, rp.results[k]); }
    }
    assert Ordered(rs);
  }

  lemma TimeoutKeeps(fs: seq<Obj>, rp: RProc)
    requires FilesSound(fs) && ReaderInv(fs, rp) && rp.pc.InRing? && rp.r.pc.Futex?
    ensures ReaderInv(fs, rp.(r := rp.r.(pc := Finished(TimedOut))))
  {}

  // ---- all readers ----------------------------------------------------------------------------------

  lemma OneReader(s: Sys, j: nat, rp: RProc)
    requires ReadersInv(s) && j < |s.readers| && ReaderInv(s.files, rp)
    ensures ReadersInv(SetReader(s, j, rp))
  {}

  lemma ReadersGrow(s: Sys, t: Sys)
    requires ReadersInv(s) && t.readers == s.readers && FilesSound(t.files) && Grows(s.files, t.files)
    ensures ReadersInv(t)
  {
    forall j | 0 <= j < |t.readers|
      ensures ReaderInv(t.files, t.readers[j])
    {
      GrowsKeeps(s.files, t.files, s.readers[j]);
    }
  }

  lemma ReadersStored(s: Sys, t: Sys, fid: nat, wake: bool)
    requires ReadersInv(s) && FilesSound(t.files) && StoredInto(s.files, t.files, fid, wake)
    requires t.readers == if wake then WakeReaders(s.readers, fid) else s.readers
    ensures ReadersInv(t)
  {
    forall j | 0 <= j < |t.readers|
      ensures ReaderInv(t.files, t.readers[j])
    {
      StoredKeeps(s.files, t.files, fid, wake, s.readers[j]);
    }
  }

  lemma LoadStepKeeps(s: Sys, j: nat)
    requires ReadersInv(s) && j < |s.readers|
    requires s.dataPath.Some? ==> Exists(s.files, s.dataPath.value)
    ensures ReadersInv(LoadStep(s, j))
  {
    hide FileInv, RInv, ResultInv, Ordered;
    var t := LoadStep(s, j);
    var fs := s.files;
    var rp := s.readers[j];
    assert ReaderInv(fs, rp);
    match rp.pc
    case Sync =>
      if rp.att.Some? && !fs[rp.att.value].f.retired { EnterKeeps(fs, rp, rp.att.value); }
      else { OutsideKeeps(fs, rp, t.readers[j]); }
      OneReader(s, j, t.readers[j]);
    case Attach(_) =>
      OutsideKeeps(fs, rp, t.readers[j]);
      OneReader(s, j, t.readers[j]);
    case Attached(_) =>
      if !fs[rp.att.value].f.retired { EnterKeeps(fs, rp, rp.att.value); }
      else { OutsideKeeps(fs, rp, t.readers[j]); }
      OneReader(s, j, t.readers[j]);
    case Polling =>
      OutsideKeeps(fs, rp, t.readers[j]);
      OneReader(s, j, t.readers[j]);
    case Identify =>
      OutsideKeeps(fs, rp, t.readers[j]);
      OneReader(s, j, t.readers[j]);
    case InRing => InRingKeeps(s, j);
    case Resting =>
  }

  lemma InRingKeeps(s: Sys, j: nat)
    requires ReadersInv(s) && j < |s.readers| && s.readers[j].pc.InRing?
    ensures ReadersInv(LoadStep(s, j))
  {
    var t := LoadStep(s, j);
    var rp := s.readers[j];
    var fid := rp.att.value;
    assert ReaderInv(s.files, rp);
    if rp.r.pc.Finished? { ReturnKeeps(s.files, rp, fid, |s.pubs|); }
    else if rp.r.pc.Restart? { OutsideKeeps(s.files, rp, t.readers[j]); }
    else if RReady(s.files[fid].f, rp.r) { RingLoadKeeps(s.files, rp, fid); }
    OneReader(s, j, t.readers[j]);
  }

  lemma DeadlineKeeps(s: Sys, j: nat)
    requires ReadersInv(s) && j < |s.readers|
    ensures ReadersInv(DeadlineStep(s, j))
  {
    var t := DeadlineStep(s, j);
    var rp := s.readers[j];
    assert ReaderInv(s.files, rp);
    if rp.pc.Polling? { OutsideKeeps(s.files, rp, t.readers[j]); }
    else if rp.pc.InRing? && rp.r.pc.Futex? { TimeoutKeeps(s.files, rp); }
    OneReader(s, j, t.readers[j]);
  }

  lemma SliceKeeps(s: Sys, j: nat)
    requires ReadersInv(s) && j < |s.readers|
    ensures ReadersInv(SliceStep(s, j))
  {
    var t := SliceStep(s, j);
    var rp := s.readers[j];
    assert ReaderInv(s.files, rp);
    if rp.pc.InRing? && rp.r.pc.Asleep? { OutsideKeeps(s.files, rp, t.readers[j]); }
    OneReader(s, j, t.readers[j]);
  }

  lemma StartCallKeeps(s: Sys, j: nat, op: Op)
    requires ReadersInv(s) && j < |s.readers| && s.readers[j].pc.Resting?
    ensures ReadersInv(SetReader(s, j, BeginCall(s, s.readers[j]).(r := s.readers[j].r.(op := op))))
  {
    CallKeeps(s, s.readers[j], op);
  }

  lemma TouchKeeps(s: Sys, j: nat, pc: SyncPc)
    requires ReadersInv(s) && j < |s.readers| && s.readers[j].pc.Resting? && (pc.Sync? || pc.Identify?)
    ensures ReadersInv(SetReader(s, j, s.readers[j].(pc := pc, only := true)))
  {
    OutsideKeeps(s.files, s.readers[j], s.readers[j].(pc := pc, only := true));
  }
}
