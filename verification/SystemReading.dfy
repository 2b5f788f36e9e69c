// One reader at work with nobody else stepping: where reader_sync takes it, what its calls return and
// when its waits sleep, from any reachable state.
module SystemReading {
  import opened Api
  import opened Bytes
  import opened Layout
  import opened Ring
  import opened RingInvariant
  import opened RingReader
  import opened RingQuiet
  import opened System
  import opened SystemInvariant
  import opened SystemSafety

  /** `k` loads or system calls of reader `j`, nobody else stepping. */
  function LoadsAlone(s: Sys, j: nat, k: nat): Sys
    decreases k
  {
    if k == 0 then s else LoadsAlone(Apply(s, Load(j)), j, k - 1)
  }

  lemma {:induction false} LoadsThen(s: Sys, t: Sys, j: nat, a: nat, b: nat)
    requires LoadsAlone(s, j, a) == t
    ensures LoadsAlone(s, j, a + b) == LoadsAlone(t, j, b)
    decreases a
  {
    hide Apply;
    if a > 0 { LoadsThen(Apply(s, Load(j)), t, j, a - 1, b); }
  }

  lemma LoadsOne(s: Sys, j: nat)
    ensures LoadsAlone(s, j, 1) == Apply(s, Load(j))
  {
    hide Apply;
    assert LoadsAlone(Apply(s, Load(j)), j, 0) == Apply(s, Load(j));
  }

  /** Nothing happens any more. */
  lemma {:induction false} LoadsRest(s: Sys, j: nat, k: nat)
    requires Apply(s, Load(j)) == s
    ensures LoadsAlone(s, j, k) == s
    decreases k
  {
    hide Apply;
    if k > 0 { LoadsRest(s, j, k - 1); }
  }

  // ---- reader_sync ---------------------------------------------------------------------------------------

  /** Attached to a file that is not retired. */
  predicate Usable(s: Sys, rp: RProc) {
    rp.att.Some? && rp.att.value < |s.files| && !s.files[rp.att.value].f.retired
  }

  /** The file reader_sync goes on in: the one it has unless that is retired, else the one on the path. */
  function Target(s: Sys, rp: RProc): Option<nat> {
    if Usable(s, rp) then rp.att else s.dataPath
  }

  function SyncLoads(s: Sys, rp: RProc): nat {
    if Usable(s, rp) then 1 else if s.dataPath.Some? then 3 else 2
  }

  /** What the invariant says of a reader and of the file on the path. */
  lemma ReaderFacts(s: Sys, j: nat)
    requires SysInv(s) && j < |s.readers|
    ensures s.readers[j].att.Some? ==> s.readers[j].att.value < |s.files|
    ensures s.dataPath.Some? ==>
              && s.dataPath.value < |s.files|
              && HeaderValid(s.files[s.dataPath.value].hdr, s.files[s.dataPath.value].size)
              && !s.files[s.dataPath.value].f.retired
    ensures Target(s, s.readers[j]).Some? ==>
              Target(s, s.readers[j]).value < |s.files| && FileInv(s.files[Target(s, s.readers[j]).value].f)
              && Live(s.files[Target(s, s.readers[j]).value].f) && !s.files[Target(s, s.readers[j]).value].f.retired
  {
    hide FileInv, LockInv, OwnerInv, HeaderValid;
    PathExists(s);
    assert ReaderInv(s.files, s.readers[j]);
  }

  /**
   * reader_sync follows: an attached reader goes on in its file, and one that is not attached or
   * attached to a retired file is inside the file on the path three loads later.
   */
  lemma ReaderFollows(s: Sys, j: nat)
    requires SysInv(s) && j < |s.readers| && s.readers[j].pc.Sync? && Target(s, s.readers[j]).Some?
    ensures var fid := Target(s, s.readers[j]).value;
            && fid < |s.files|
            && LoadsAlone(s, j, SyncLoads(s, s.readers[j]))
               == SetReader(s, j, Enter(s.readers[j].(att := Some(fid)), s.files[fid].f))
  {
    hide SysInv, FileInv, HeaderValid, LoadsAlone;
    ReaderFacts(s, j);
    if Usable(s, s.readers[j]) { LoadsOne(s, j); } else { ReaderAttaches(s, j, s.dataPath.value); }
  }

  lemma ReaderAttaches(s: Sys, j: nat, fid: nat)
    requires j < |s.readers| && s.readers[j].pc.Sync? && (s.readers[j].att.Some? ==> s.readers[j].att.value < |s.files|)
    requires s.dataPath == Some(fid) && fid < |s.files| && HeaderValid(s.files[fid].hdr, s.files[fid].size)
    requires !s.files[fid].f.retired && !Usable(s, s.readers[j])
    ensures LoadsAlone(s, j, 3) == SetReader(s, j, Enter(s.readers[j].(att := Some(fid)), s.files[fid].f))
  {
    hide HeaderValid, LoadsAlone;
    var s1 := SetReader(s, j, s.readers[j].(att := None, pc := Attach(0)));
    LoadsOne(s, j);
    assert Apply(s, Load(j)) == s1;
    AttachesFrom(s1, j);
    LoadsThen(s, s1, j, 1, 2);
  }

  /** With no file to go on in, wait polls and the other calls return. */
  lemma ReaderFindsNone(s: Sys, j: nat)
    requires SysInv(s) && j < |s.readers| && s.readers[j].pc.Sync? && Target(s, s.readers[j]).None?
    ensures LoadsAlone(s, j, SyncLoads(s, s.readers[j])) == SetReader(s, j, Unattached(s.readers[j]))
  {
    hide SysInv, FileInv, HeaderValid, LoadsAlone;
    ReaderFacts(s, j);
    var s1 := SetReader(s, j, s.readers[j].(att := None, pc := Attach(0)));
    LoadsOne(s, j);
    LoadsOne(s1, j);
    assert Apply(s, Load(j)) == s1;
    LoadsThen(s, s1, j, 1, 1);
  }

  /**
   * A file that was retired between being mapped and being checked is given up for the one on the path by now,
   * as long as attempts are left; then the reader is not attached.
   */
  lemma AttachRetries(s: Sys, j: nat)
    requires SysInv(s) && j < |s.readers| && s.readers[j].pc.Attached? && !Usable(s, s.readers[j])
    ensures s.readers[j].pc.k + 1 >= ATTACH_RETRIES ==> LoadsAlone(s, j, 1) == SetReader(s, j, Unattached(s.readers[j]))
    ensures s.readers[j].pc.k + 1 < ATTACH_RETRIES && s.dataPath.Some? ==>
              var fid := s.dataPath.value;
              fid < |s.files| && LoadsAlone(s, j, 3) == SetReader(s, j, Enter(s.readers[j].(att := Some(fid)), s.files[fid].f))
    ensures s.readers[j].pc.k + 1 < ATTACH_RETRIES && s.dataPath.None? ==>
              LoadsAlone(s, j, 2) == SetReader(s, j, Unattached(s.readers[j]))
  {
    hide SysInv, FileInv, HeaderValid, LoadsAlone;
    ReaderFacts(s, j);
    MappedFacts(s, j);
    var rp := s.readers[j];
    LoadsOne(s, j);
    if rp.pc.k + 1 < ATTACH_RETRIES {
      var s1 := SetReader(s, j, rp.(att := None, pc := Attach(rp.pc.k + 1)));
      assert Apply(s, Load(j)) == s1;
      AttachesFrom(s1, j);
      LoadsThen(s, s1, j, 1, if s.dataPath.Some? then 2 else 1);
    }
  }

  lemma MappedFacts(s: Sys, j: nat)
    requires SysInv(s) && j < |s.readers| && s.readers[j].pc.Attached?
    ensures s.readers[j].att.Some? && s.readers[j].att.value < |s.files|
  {
    hide FileInv, LockInv, OwnerInv;
    assert ReaderInv(s.files, s.readers[j]);
  }

  lemma AttachesFrom(s: Sys, j: nat)
    requires j < |s.readers| && s.readers[j].pc.Attach?
    requires s.dataPath.Some? ==>
               && s.dataPath.value < |s.files| && HeaderValid(s.files[s.dataPath.value].hdr, s.files[s.dataPath.value].size)
               && !s.files[s.dataPath.value].f.retired
    ensures s.dataPath.Some? ==>
              LoadsAlone(s, j, 2) == SetReader(s, j, Enter(s.readers[j].(att := s.dataPath), s.files[s.dataPath.value].f))
    ensures s.dataPath.None? ==> LoadsAlone(s, j, 1) == SetReader(s, j, Unattached(s.readers[j]))
  {
    hide HeaderValid, LoadsAlone;
    var rp := s.readers[j];
    LoadsOne(s, j);
    if s.dataPath.Some? {
      var s1 := SetReader(s, j, rp.(att := s.dataPath, pc := Attached(rp.pc.k)));
      assert Apply(s, Load(j)) == s1;
      LoadsOne(s1, j);
      LoadsThen(s, s1, j, 1, 1);
    }
  }

  // ---- inside the mapped file --------------------------------------------------------------------------------

  lemma RingLoad(s: Sys, j: nat, rp: RProc, fid: nat)
    requires j < |s.readers| && fid < |s.files| && rp.att == Some(fid) && rp.pc.InRing? && RReady(s.files[fid].f, rp.r)
    ensures Apply(SetReader(s, j, rp), Load(j)) == SetReader(s, j, rp.(r := RNext(s.files[fid].f, rp.r)))
  {
    assert !rp.r.pc.Finished? && !rp.r.pc.Restart?;
    hide RNext, RReady;
  }

  /** The loads of the ring are loads of the system, until the call is over or asleep. */
  lemma {:induction false} RingLoads(s: Sys, j: nat, rp: RProc, fid: nat, k: nat) returns (m: nat)
    requires j < |s.readers| && fid < |s.files| && rp.att == Some(fid) && rp.pc.InRing?
    ensures m <= k && LoadsAlone(SetReader(s, j, rp), j, m) == SetReader(s, j, rp.(r := Loads(s.files[fid].f, rp.r, k)))
    decreases k
  {
    hide RNext, RReady, Apply;
    var f := s.files[fid].f;
    if k == 0 || !RReady(f, rp.r) {
      m := 0;
    } else {
      RingLoad(s, j, rp, fid);
      m := RingLoads(s, j, rp.(r := RNext(f, rp.r)), fid, k - 1);
      m := m + 1;
    }
  }

  /** The result a call returns. */
  function ReturnedResult(s: Sys, rp: RProc, fid: nat): Result
    requires rp.r.pc.Finished?
  {
    Result(fid, rp.r.op, rp.r.pc.o, rp.r.first, rp.r.base, rp.r.fin, rp.r.ok, rp.at, |s.pubs|)
  }

  /** A call whose loads end it is resting one load later. */
  lemma RingReturns(s: Sys, j: nat, rp: RProc, fid: nat, k: nat)
    requires j < |s.readers| && fid < |s.files| && rp.att == Some(fid) && rp.pc.InRing?
    requires Loads(s.files[fid].f, rp.r, k).pc.Finished?
    ensures var last := rp.(r := Loads(s.files[fid].f, rp.r, k));
            LoadsAlone(SetReader(s, j, rp), j, k + 1)
            == SetReader(s, j, last.(pc := Resting, results := rp.results + [ReturnedResult(s, last, fid)]))
  {
    hide Loads, LoadsAlone;
    var last := rp.(r := Loads(s.files[fid].f, rp.r, k));
    var m := RingLoads(s, j, rp, fid, k);
    var s1 := SetReader(s, j, last);
    var s2 := SetReader(s, j, last.(pc := Resting, results := rp.results + [ReturnedResult(s, last, fid)]));
    assert Apply(s1, Load(j)) == s2;
    LoadsOne(s1, j);
    LoadsThen(SetReader(s, j, rp), s1, j, m, 1);
    LoadsThen(SetReader(s, j, rp), s2, j, m + 1, k - m);
    LoadsRest(s2, j, k - m);
    assert m + 1 + (k - m) == k + 1;
  }

  /** A wait whose loads put it to sleep stays asleep. */
  lemma RingSleeps(s: Sys, j: nat, rp: RProc, fid: nat, k: nat)
    requires j < |s.readers| && fid < |s.files| && rp.att == Some(fid) && rp.pc.InRing?
    requires Loads(s.files[fid].f, rp.r, k).pc.Asleep?
    ensures LoadsAlone(SetReader(s, j, rp), j, k) == SetReader(s, j, rp.(r := Loads(s.files[fid].f, rp.r, k)))
  {
    hide Loads, LoadsAlone;
    var m := RingLoads(s, j, rp, fid, k);
    var s1 := SetReader(s, j, rp.(r := Loads(s.files[fid].f, rp.r, k)));
    LoadsThen(SetReader(s, j, rp), s1, j, m, k - m);
    LoadsRest(s1, j, k - m);
  }

  lemma {:induction false} LoadsMore(f: File, r: Reader, k: nat)
    requires RReady(f, Loads(f, r, k))
    ensures Loads(f, r, k + 1) == RNext(f, Loads(f, r, k))
    decreases k
  {
    hide RNext, RReady;
    if k == 0 {
      assert Loads(f, RNext(f, r), 0) == RNext(f, r);
    } else if RReady(f, r) {
      LoadsMore(f, RNext(f, r), k - 1);
    }
  }

  lemma {:induction false} LoadsKeep(f: File, r: Reader, k: nat)
    ensures Loads(f, r, k).op == r.op
    decreases k
  {
    if k > 0 && RReady(f, r) { LoadsKeep(f, RNext(f, r), k - 1); }
  }

  // ---- read, peek and wait ---------------------------------------------------------------------------------------

  /** What a call that nobody disturbs returns from `f`; None for a wait that has to sleep. */
  function QuietOutcome(f: File, op: Op): Option<Outcome>
    requires FileInv(f)
  {
    if op.Wait? && !f.notifyOn then Some(NotSup)
    else if f.log == [] then (if op.Wait? then None else Some(NoData))
    else
      var rec := f.log[|f.log| - 1];
      if op.Wait? && rec.gen == op.last then None else Some(ResultFor(op, rec))
  }

  /** An upper bound of the loads it takes. */
  function QuietLoads(f: File, op: Op): nat {
    if f.log == [] then 4 else CopyTotal(op, f.log[|f.log| - 1]) + 6
  }

  lemma {:induction false} LoadsStop(f: File, r: Reader, k: nat, n: nat)
    requires k <= n && !RReady(f, Loads(f, r, k))
    ensures Loads(f, r, n) == Loads(f, r, k)
    decreases k
  {
    hide RNext, RReady;
    if k > 0 && RReady(f, r) { LoadsStop(f, RNext(f, r), k - 1, n - 1); }
  }

  /** Where Enter puts a call. */
  function Entered(f: File, op: Op): Reader {
    if op.Wait? then NewWait(f, op.last) else NewCall(f, op)
  }

  ghost predicate Settled(f: File, op: Op, r: Reader)
    requires FileInv(f)
  {
    !RReady(f, r) && match QuietOutcome(f, op) case Some(o) => r.pc == Finished(o) && r.ok case None => r.pc.Asleep?
  }

  lemma QuietReads(f: File, op: Op)
    requires FileInv(f) && Live(f) && !op.Wait?
    ensures Settled(f, op, Loads(f, Entered(f, op), QuietLoads(f, op)))
  {
    hide FileInv, Loads, CopyTotal, ResultFor, Live;
    var k := if f.log == [] then 1 else CopyTotal(op, f.log[|f.log| - 1]) + 3;
    if f.log == [] { QuietNoData(f, op); } else { QuietRead(f, op); }
    LoadsStop(f, NewCall(f, op), k, QuietLoads(f, op));
  }

  lemma QuietWaits(f: File, op: Op)
    requires FileInv(f) && Live(f) && !f.retired && op.Wait?
    ensures Settled(f, op, Loads(f, Entered(f, op), QuietLoads(f, op)))
  {
    hide FileInv, Loads, Live, RNext;
    var r0 := NewWait(f, op.last);
    var k := 1;
    if !f.notifyOn {
      QuietWaitOther(f, op.last);
    } else if f.log == [] {
      k := 4;
      QuietWaitOther(f, op.last);
    } else {
      QuietWait(f, op.last);
      k := META + 5;
      if f.log[|f.log| - 1].gen == op.last {
        LoadsMore(f, r0, k);
        k := META + 6;
      }
    }
    LoadsStop(f, r0, k, QuietLoads(f, op));
  }

  lemma QuietRing(f: File, op: Op)
    requires FileInv(f) && Live(f) && !f.retired
    ensures Settled(f, op, Loads(f, Entered(f, op), QuietLoads(f, op)))
  {
    if op.Wait? { QuietWaits(f, op); } else { QuietReads(f, op); }
  }

  /** The reader has returned `o` from `fid`, in a call that had found `at`; nothing else has changed. */
  ghost predicate ReturnedFrom(s: Sys, t: Sys, j: nat, fid: nat, op: Op, o: Outcome, at: Entry)
    requires j < |s.readers|
  {
    && |t.readers| == |s.readers| && t == SetReader(s, j, t.readers[j])
    && t.readers[j].pc.Resting? && t.readers[j].att == Some(fid)
    && |t.readers[j].results| == |s.readers[j].results| + 1
    && t.readers[j].results[..|s.readers[j].results|] == s.readers[j].results
    && var res := t.readers[j].results[|s.readers[j].results|];
       res.fid == fid && res.op == op && res.o == o && res.ok && res.at == at && res.pubs == |s.pubs|
  }

  /** The reader sleeps on `fid`; nothing else has changed. */
  ghost predicate SleepsOn(s: Sys, t: Sys, j: nat, fid: nat, op: Op)
    requires j < |s.readers|
  {
    && |t.readers| == |s.readers| && t == SetReader(s, j, t.readers[j])
    && t.readers[j].pc.InRing? && t.readers[j].att == Some(fid) && t.readers[j].r.pc.Asleep? && t.readers[j].r.op == op
    && t.readers[j].results == s.readers[j].results
  }

  /** How a call of `op` ends that settles in `fid`. */
  ghost predicate Ends(s: Sys, t: Sys, j: nat, fid: nat, op: Op, at: Entry)
    requires j < |s.readers| && fid < |s.files| && FileInv(s.files[fid].f)
  {
    match QuietOutcome(s.files[fid].f, op)
    case Some(o) => ReturnedFrom(s, t, j, fid, op, o, at)
    case None => SleepsOn(s, t, j, fid, op)
  }

  /**
   * From the top of its loop every call ends by itself: a read, peek or wait returns the last value of
   * the file it ends up in, or sleeps exactly if there is nothing new for it.
   */
  lemma QuietSync(s: Sys, j: nat)
    requires SysInv(s) && j < |s.readers| && s.readers[j].pc.Sync? && !s.readers[j].only && Target(s, s.readers[j]).Some?
    ensures var fid := Target(s, s.readers[j]).value;
            fid < |s.files| && FileInv(s.files[fid].f)
            && var n := SyncLoads(s, s.readers[j]) + QuietLoads(s.files[fid].f, s.readers[j].r.op) + 1;
               Ends(s, LoadsAlone(s, j, n), j, fid, s.readers[j].r.op, s.readers[j].at)
  {
    hide SysInv, FileInv, Live, LoadsAlone, Loads, QuietOutcome, QuietLoads, RReady;
    ReaderFacts(s, j);
    var rp, fid := s.readers[j], Target(s, s.readers[j]).value;
    var f, op := s.files[fid].f, rp.r.op;
    ReaderFollows(s, j);
    QuietRing(f, op);
    var rp1 := Enter(rp.(att := Some(fid)), f);
    assert rp1.r == Entered(f, op);
    var k := QuietLoads(f, op);
    LoadsThen(s, SetReader(s, j, rp1), j, SyncLoads(s, rp), k + 1);
    LoadsKeep(f, rp1.r, k);
    if QuietOutcome(f, op).Some? { RingReturns(s, j, rp1, fid, k); } else { RingSleepsOn(s, j, rp1, fid, k); }
  }

  lemma RingSleepsOn(s: Sys, j: nat, rp: RProc, fid: nat, k: nat)
    requires j < |s.readers| && fid < |s.files| && rp.att == Some(fid) && rp.pc.InRing?
    requires Loads(s.files[fid].f, rp.r, k).pc.Asleep?
    ensures LoadsAlone(SetReader(s, j, rp), j, k + 1) == SetReader(s, j, rp.(r := Loads(s.files[fid].f, rp.r, k)))
  {
    hide Loads, LoadsAlone;
    RingSleeps(s, j, rp, fid, k);
    var s1 := SetReader(s, j, rp.(r := Loads(s.files[fid].f, rp.r, k)));
    LoadsThen(SetReader(s, j, rp), s1, j, k, 1);
    LoadsRest(s1, j, 1);
  }

  /** read, peek and wait, from the call on. */
  lemma QuietCall(s: Sys, j: nat, op: Op)
    requires SysInv(s) && j < |s.readers| && s.readers[j].pc.Resting? && Target(s, s.readers[j]).Some?
    ensures var fid := Target(s, s.readers[j]).value;
            fid < |s.files| && FileInv(s.files[fid].f)
            && var n := SyncLoads(s, s.readers[j]) + QuietLoads(s.files[fid].f, op) + 1;
               Ends(s, LoadsAlone(Apply(s, Call(j, op)), j, n), j, fid, op, EntryOf(s))
  {
    hide SysInv, FileInv, LoadsAlone, QuietOutcome, QuietLoads, EntryOf;
    StepSafe(s, Call(j, op));
    QuietSync(Apply(s, Call(j, op)), j);
  }

  /** A sleeper that was woken, or whose word had changed, starts over at the file it has or the one on the path. */
  lemma WokenFollows(s: Sys, j: nat)
    requires SysInv(s) && j < |s.readers| && s.readers[j].pc.InRing? && s.readers[j].r.pc.Restart?
    requires Target(s, s.readers[j]).Some?
    ensures var rp, fid := s.readers[j], Target(s, s.readers[j]).value;
            fid < |s.files| && FileInv(s.files[fid].f)
            && var n := 1 + SyncLoads(s, rp) + QuietLoads(s.files[fid].f, rp.r.op) + 1;
               Ends(s, LoadsAlone(s, j, n), j, fid, rp.r.op, rp.at)
  {
    hide SysInv, FileInv, LoadsAlone, QuietOutcome, QuietLoads;
    var rp := s.readers[j];
    RingFacts(s, j);
    var s1 := SetReader(s, j, rp.(pc := Sync));
    assert Apply(s, Load(j)) == s1;
    StepSafe(s, Load(j));
    LoadsOne(s, j);
    QuietSync(s1, j);
    LoadsThen(s, s1, j, 1, SyncLoads(s, rp) + QuietLoads(s.files[Target(s, rp).value].f, rp.r.op) + 1);
  }

  lemma RingFacts(s: Sys, j: nat)
    requires SysInv(s) && j < |s.readers| && s.readers[j].pc.InRing?
    ensures s.readers[j].att.Some? && s.readers[j].att.value < |s.files| && !s.readers[j].only
  {
    hide FileInv, LockInv, OwnerInv;
    assert ReaderInv(s.files, s.readers[j]);
  }

  /**
   * The orphan check: a sleeper whose slice is over ends up in the file on the path, also if nobody
   * retired or notified the file it slept on.
   */
  lemma SliceFollows(s: Sys, j: nat, fid: nat)
    requires SysInv(s) && j < |s.readers| && s.readers[j].pc.InRing? && s.readers[j].r.pc.Asleep? && s.dataPath == Some(fid)
    ensures fid < |s.files| && FileInv(s.files[fid].f)
    ensures var rp := s.readers[j];
            var n := 1 + (if rp.att == Some(fid) then 1 else 3) + QuietLoads(s.files[fid].f, rp.r.op) + 1;
            Ends(s, LoadsAlone(Apply(s, Slice(j)), j, n), j, fid, rp.r.op, rp.at)
  {
    hide SysInv, FileInv, LoadsAlone, QuietOutcome, QuietLoads, HeaderValid;
    var rp := s.readers[j];
    RingFacts(s, j);
    ReaderFacts(s, j);
    var s1 := SetReader(s, j, rp.(pc := Identify));
    var rp2 := rp.(pc := Sync, att := if s.dataPath == rp.att then rp.att else None);
    var s2 := SetReader(s, j, rp2);
    assert Apply(s, Slice(j)) == s1;
    assert Apply(s1, Load(j)) == s2;
    StepSafe(s, Slice(j));
    StepSafe(s1, Load(j));
    LoadsOne(s1, j);
    QuietSync(s2, j);
    LoadsThen(s1, s2, j, 1, SyncLoads(s2, rp2) + QuietLoads(s.files[fid].f, rp.r.op) + 1);
  }

  /** writer_alive looks at the path first: a handle on a file that lost its name attaches to the one that has it. */
  lemma AliveFollows(s: Sys, j: nat, fid: nat)
    requires SysInv(s) && j < |s.readers| && s.readers[j].pc.Resting? && s.dataPath == Some(fid)
    ensures var n := 1 + if s.readers[j].att == Some(fid) then 1 else 3;
            LoadsAlone(Apply(s, WriterAlive(j)), j, n) == SetReader(s, j, s.readers[j].(att := Some(fid), pc := Resting, only := true))
  {
    hide SysInv, FileInv, LoadsAlone, HeaderValid;
    var rp := s.readers[j];
    ReaderFacts(s, j);
    var s1 := SetReader(s, j, rp.(pc := Identify, only := true));
    var rp2 := rp.(pc := Sync, only := true, att := if s.dataPath == rp.att then rp.att else None);
    var s2 := SetReader(s, j, rp2);
    assert Apply(s, WriterAlive(j)) == s1;
    assert Apply(s1, Load(j)) == s2;
    StepSafe(s, WriterAlive(j));
    StepSafe(s1, Load(j));
    LoadsOne(s1, j);
    ReaderFollows(s2, j);
    LoadsThen(s1, s2, j, 1, SyncLoads(s2, rp2));
  }

  /** A poll that a file has appeared for, or a call that finds none. */
  lemma PollFollows(s: Sys, j: nat)
    requires SysInv(s) && j < |s.readers| && s.readers[j].pc.Polling? && Target(s, s.readers[j]).Some?
    ensures var rp, fid := s.readers[j], Target(s, s.readers[j]).value;
            fid < |s.files| && FileInv(s.files[fid].f)
            && var n := 1 + SyncLoads(s, rp) + QuietLoads(s.files[fid].f, rp.r.op) + 1;
               Ends(s, LoadsAlone(s, j, n), j, fid, rp.r.op, rp.at)
  {
    hide SysInv, FileInv, LoadsAlone, QuietOutcome, QuietLoads;
    var rp := s.readers[j];
    PollFacts(s, j);
    var s1 := SetReader(s, j, rp.(pc := Sync));
    assert Apply(s, Load(j)) == s1;
    StepSafe(s, Load(j));
    LoadsOne(s, j);
    QuietSync(s1, j);
    LoadsThen(s, s1, j, 1, SyncLoads(s, rp) + QuietLoads(s.files[Target(s, rp).value].f, rp.r.op) + 1);
  }

  lemma PollFacts(s: Sys, j: nat)
    requires SysInv(s) && j < |s.readers| && s.readers[j].pc.Polling?
    ensures !s.readers[j].only
  {
    hide FileInv, LockInv, OwnerInv;
    assert ReaderInv(s.files, s.readers[j]);
  }

  /** describe and its like stay attached to an unretired file, or attach to the one on the path. */
  lemma DescribeFollows(s: Sys, j: nat)
    requires SysInv(s) && j < |s.readers| && s.readers[j].pc.Resting?
    ensures LoadsAlone(Apply(s, Describe(j)), j, SyncLoads(s, s.readers[j]))
         == SetReader(s, j, s.readers[j].(att := Target(s, s.readers[j]), pc := Resting, only := true))
  {
    hide SysInv, FileInv, LoadsAlone, HeaderValid;
    var s1 := SetReader(s, j, s.readers[j].(pc := Sync, only := true));
    assert Apply(s, Describe(j)) == s1;
    StepSafe(s, Describe(j));
    if Target(s, s.readers[j]).Some? { ReaderFollows(s1, j); } else { ReaderFindsNone(s1, j); }
  }

  /** A deadline ends a wait: at once if it is polling, with the result TIMEOUT if it is about to sleep. */
  lemma DeadlineEnds(s: Sys, j: nat)
    requires SysInv(s) && j < |s.readers|
    ensures var rp, t := s.readers[j], Apply(s, Deadline(j));
            && (rp.pc.Polling? ==> t == SetReader(s, j, rp.(pc := Resting)))
            && (rp.pc.InRing? && rp.r.pc.Futex? ==>
                  && rp.att.Some?
                  && LoadsAlone(t, j, 1)
                     == SetReader(s, j, rp.(pc := Resting, r := rp.r.(pc := Finished(TimedOut)),
                                            results := rp.results + [ReturnedResult(s, rp.(r := rp.r.(pc := Finished(TimedOut))), rp.att.value)])))
  {
    hide SysInv, LoadsAlone;
    var rp := s.readers[j];
    if rp.pc.InRing? && rp.r.pc.Futex? {
      RingFacts(s, j);
      LoadsOne(Apply(s, Deadline(j)), j);
    }
  }
}
