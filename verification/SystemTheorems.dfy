// The promises of the state channel, over every run of any number of processes and readers.
module SystemTheorems {
  import opened Bytes
  import opened Layout
  import opened Ring
  import opened RingInvariant
  import opened RingWriter
  import opened RingReader
  import opened RingReading
  import opened System
  import opened SystemInvariant
  import opened SystemSafety
  import opened SystemChannel
  import opened SystemClock
  import opened SystemQuiet

  /** A reachable state. */
  function Reached(np: nat, nr: nat, acts: seq<Act>): Sys {
    Run(Init(np, nr), acts)
  }

  ghost predicate HasResult(s: Sys, j: nat, k: nat) {
    j < |s.readers| && k < |s.readers[j].results|
  }

  lemma ResultOf(np: nat, nr: nat, acts: seq<Act>, j: nat, k: nat)
    requires HasResult(Reached(np, nr, acts), j, k)
    ensures var s := Reached(np, nr, acts);
            FilesSound(s.files) && ReaderInv(s.files, s.readers[j]) && ResultInv(s.files, s.readers[j].results[k])
  {
    AllRunsSafe(np, nr, acts);
    var s := Reached(np, nr, acts);
    assert ReaderInv(s.files, s.readers[j]);
  }

  lemma ReturnOf(np: nat, nr: nat, acts: seq<Act>, j: nat, k: nat)
    requires HasResult(Reached(np, nr, acts), j, k)
    ensures var s := Reached(np, nr, acts);
            HandleInv(s.files, s.pubs, s.orphans, s.readers[j]) && ReturnInv(s.pubs, s.orphans, s.readers[j].results[k])
  {
    hide SysInv, PubsInv, Heads, OwnerPlaced, CallInv, ReturnInv;
    AllRunsOrdered(np, nr, acts);
    var s := Reached(np, nr, acts);
    assert HandleInv(s.files, s.pubs, s.orphans, s.readers[j]);
  }

  /**
   * Linearizable, never torn. Whatever the interleaving, crashes and replacements: an OK
   * returned after fewer than 2^27 commits of its slot during its last attempt is exactly one
   * publish of the file it came from, all of it, which was that file's latest during the call;
   * and it was the channel's latest at a moment of the call, unless its file was an orphan that
   * another file had overtaken before the call, and only then.
   */
  lemma Linearizable(np: nat, nr: nat, acts: seq<Act>, j: nat, k: nat)
    requires HasResult(Reached(np, nr, acts), j, k)
    ensures var s := Reached(np, nr, acts);
            var res := s.readers[j].results[k];
            && res.fid < |s.files| && res.pubs <= |s.pubs|
            && (res.o.Value? || res.o.TooSmall? ==>
                  && 0 < res.base && res.first <= res.base <= res.fin <= |s.files[res.fid].f.log|
                  && (LatestDuring(s.pubs, res) <==> !Overtaken(s.pubs, res.at, res.fid)))
            && (res.ok && res.o.Value? ==>
                  var rec := s.files[res.fid].f.log[res.base - 1];
                  && res.o.gen == rec.gen && res.o.ts == rec.ts && res.o.len == |rec.bytes|
                  && (res.op.Read? ==> res.o.bytes == rec.bytes))
            && (res.ok && res.o.TooSmall? ==>
                  var rec := s.files[res.fid].f.log[res.base - 1];
                  res.op.Read? && res.o.gen == rec.gen && res.o.len == |rec.bytes| > res.op.size)
            && (res.o.NoData? ==> res.base == res.first == 0)
            && (res.ok ==> !res.o.Format?)
  {
    hide FileInv, ReaderInv, HandleInv, LatestDuring;
    ResultOf(np, nr, acts, j, k);
    ReturnOf(np, nr, acts, j, k);
    var s := Reached(np, nr, acts);
    var res := s.readers[j].results[k];
    if Counts(res.o) { LatestExactly(s.pubs, s.orphans, res); }
  }

  /**
   * The history is the channel's: it holds every publish of every file, a later file's after an
   * earlier one's, and a file that is neither retired nor an orphan holds the last of them if it
   * holds any.
   */
  lemma HistoryIsComplete(np: nat, nr: nat, acts: seq<Act>, fid: nat)
    requires Ready(Reached(np, nr, acts), fid)
    ensures var s := Reached(np, nr, acts);
            var f := s.files[fid].f;
            && (forall i: nat :: i < |f.log| ==> Pub(fid, i) in s.pubs)
            && (forall k, m :: 0 <= k < m < |s.pubs| ==> Before(s.pubs[k], s.pubs[m]))
            && (!f.retired && fid !in s.orphans && f.log != [] ==>
                  s.pubs != [] && s.pubs[|s.pubs| - 1] == Pub(fid, |f.log| - 1))
  {
    hide SysInv, OwnerPlaced, HandlesInv;
    AllRunsOrdered(np, nr, acts);
    assert Exists(Reached(np, nr, acts).files, fid);
  }

  /**
   * A reader never goes back: later results, through every reattach, are the same or later
   * publishes of the channel, and their timestamps do not go back either.
   */
  lemma MonotonicReads(np: nat, nr: nat, acts: seq<Act>, j: nat, k: nat, m: nat)
    requires HasResult(Reached(np, nr, acts), j, m) && k < m
    requires var rs := Reached(np, nr, acts).readers[j].results;
             Counts(rs[k].o) && Counts(rs[m].o)
    ensures var s := Reached(np, nr, acts);
            var rs := s.readers[j].results;
            && (rs[k].fid < rs[m].fid || (rs[k].fid == rs[m].fid && rs[k].base <= rs[m].base))
            && (exists x: nat, y: nat :: x <= y && LatestAt(s.pubs, x, rs[k].fid, rs[k].base)
                                         && LatestAt(s.pubs, y, rs[m].fid, rs[m].base))
            && (rs[k].ok && rs[m].ok ==> rs[k].o.ts <= rs[m].o.ts)
  {
    hide FileInv, ReturnInv, CallInv, PubsInv, Explained, SysInv, ChanInv, LatestAt;
    ResultOf(np, nr, acts, j, m);
    ReturnOf(np, nr, acts, j, k);
    ReturnOf(np, nr, acts, j, m);
    AllRunsOrdered(np, nr, acts);
    var s := Reached(np, nr, acts);
    Complete(s);
    SameOrLater(s, j, k, m);
    TimesOrdered(np, nr, acts, j, k, m);
  }

  lemma Complete(s: Sys)
    requires ChanInv(s)
    ensures PubsInv(s.files, s.pubs)
  {}

  lemma TimesOrdered(np: nat, nr: nat, acts: seq<Act>, j: nat, k: nat, m: nat)
    requires HasResult(Reached(np, nr, acts), j, m) && k < m
    requires var s := Reached(np, nr, acts);
             var rs := s.readers[j].results;
             && Counts(rs[k].o) && Counts(rs[m].o)
             && exists x: nat, y: nat :: x <= y && LatestAt(s.pubs, x, rs[k].fid, rs[k].base)
                                         && LatestAt(s.pubs, y, rs[m].fid, rs[m].base)
    ensures var rs := Reached(np, nr, acts).readers[j].results;
            rs[k].ok && rs[m].ok ==> rs[k].o.ts <= rs[m].o.ts
  {
    hide ReaderInv, FileInv;
    var s := Reached(np, nr, acts);
    var rs := s.readers[j].results;
    ResultOf(np, nr, acts, j, k);
    ResultOf(np, nr, acts, j, m);
    AllRunsTimed(np, nr, acts);
    var x: nat, y: nat :| x <= y && LatestAt(s.pubs, x, rs[k].fid, rs[k].base) && LatestAt(s.pubs, y, rs[m].fid, rs[m].base);
    assert InOrder(s.files, s.pubs);
    assert Time(s.files, s.pubs[x - 1]) <= Time(s.files, s.pubs[y - 1]);
    if rs[k].ok && rs[m].ok {
      TimeOf(s, rs[k], x);
      TimeOf(s, rs[m], y);
    }
  }

  /** The timestamp a result carries is that of its publish. */
  lemma TimeOf(s: Sys, res: Result, x: nat)
    requires ResultInv(s.files, res) && Counts(res.o) && res.ok && LatestAt(s.pubs, x, res.fid, res.base)
    ensures res.o.ts == Time(s.files, s.pubs[x - 1])
  {}

  /** The publishes of the channel carry timestamps in their order, and none from the future. */
  lemma TimestampsOrdered(np: nat, nr: nat, acts: seq<Act>, k: nat, m: nat)
    requires k < m < |Reached(np, nr, acts).pubs|
    ensures var s := Reached(np, nr, acts);
            Time(s.files, s.pubs[k]) <= Time(s.files, s.pubs[m]) <= s.clock
  {
    AllRunsTimed(np, nr, acts);
    var s := Reached(np, nr, acts);
    assert InOrder(s.files, s.pubs) && Passed(s.files, s.pubs, s.clock);
  }

  lemma SameOrLater(s: Sys, j: nat, k: nat, m: nat)
    requires PubsInv(s.files, s.pubs) && HasResult(s, j, m) && k < m
    requires var rs := s.readers[j].results;
             && ReturnInv(s.pubs, s.orphans, rs[k]) && ReturnInv(s.pubs, s.orphans, rs[m])
             && Counts(rs[k].o) && Counts(rs[m].o)
             && (rs[k].fid < rs[m].fid || (rs[k].fid == rs[m].fid && rs[k].base <= rs[m].base))
    ensures var rs := s.readers[j].results;
            exists x: nat, y: nat :: x <= y && LatestAt(s.pubs, x, rs[k].fid, rs[k].base)
                                     && LatestAt(s.pubs, y, rs[m].fid, rs[m].base)
  {
    var rs := s.readers[j].results;
    var x :| 0 <= x < |s.pubs| && s.pubs[x] == Pub(rs[k].fid, rs[k].base - 1);
    var y :| 0 <= y < |s.pubs| && s.pubs[y] == Pub(rs[m].fid, rs[m].base - 1);
    assert y < x ==> Before(s.pubs[y], s.pubs[x]);
    assert LatestAt(s.pubs, x + 1, rs[k].fid, rs[k].base) && LatestAt(s.pubs, y + 1, rs[m].fid, rs[m].base);
  }

  /** BUSY takes 64 turns of the ring, less a slot each, during the call. */
  lemma BusyBound(np: nat, nr: nat, acts: seq<Act>, j: nat, k: nat)
    requires HasResult(Reached(np, nr, acts), j, k)
    requires Reached(np, nr, acts).readers[j].results[k].o.Busy?
    ensures var s := Reached(np, nr, acts);
            var res := s.readers[j].results[k];
            && res.fid < |s.files|
            && res.fin - res.first >= READ_RETRIES * (|s.files[res.fid].f.slots| - 1)
            && res.fin <= |s.files[res.fid].f.log|
  {
    ResultOf(np, nr, acts, j, k);
  }

  /** A call that begins after a file's RETIRED bit is set returns nothing from that file. */
  lemma RetireFollowed(np: nat, nr: nat, acts: seq<Act>, j: nat, k: nat)
    requires HasResult(Reached(np, nr, acts), j, k)
    ensures var res := Reached(np, nr, acts).readers[j].results[k];
            res.fid !in res.at.gone
  {
    ResultOf(np, nr, acts, j, k);
  }

  /** The data path only ever names complete, valid, live files. */
  lemma PathNamesCompleteFiles(np: nat, nr: nat, acts: seq<Act>)
    ensures var s := Reached(np, nr, acts);
            s.dataPath.Some? ==>
              && s.dataPath.value < |s.files|
              && HeaderValid(s.files[s.dataPath.value].hdr, s.files[s.dataPath.value].size)
              && LatestValid(s.files[s.dataPath.value].f.latest, |s.files[s.dataPath.value].f.slots|)
              && !s.files[s.dataPath.value].f.retired
  {
    AllRunsSafe(np, nr, acts);
    var s := Reached(np, nr, acts);
    PathExists(s);
    if s.dataPath.Some? { LatestHolds(s.files[s.dataPath.value].f); }
  }

  // ---- writers -----------------------------------------------------------------------------------

  /** Writer exclusion: at most one process is past its identity check, and the path names its lock. */
  lemma WriterExclusion(np: nat, nr: nat, acts: seq<Act>, p: nat, q: nat)
    requires var s := Reached(np, nr, acts);
             p < |s.procs| && q < |s.procs| && Section(s.procs[p].pc).Some? && Section(s.procs[q].pc).Some?
    ensures var s := Reached(np, nr, acts);
            p == q && s.lockPath == Section(s.procs[p].pc)
            && s.lockPath.value < |s.holders| && s.holders[s.lockPath.value] == Some(p)
  {
    AllRunsSafe(np, nr, acts);
    Exclusion(Reached(np, nr, acts), p, q);
    assert HoldInv(Reached(np, nr, acts), p);
  }

  /** The bytes of a data file that its readers can see. */
  function Memory(ob: Obj): (Header, seq<Slot>, u32, u32, bool) {
    (ob.hdr, ob.f.slots, ob.f.latest, ob.f.notify, ob.f.retired)
  }

  /** Every store into any data file is made by the process holding the verified channel lock. */
  lemma StoresByHolder(np: nat, nr: nat, acts: seq<Act>, a: Act, fid: nat)
    requires fid < |Reached(np, nr, acts).files|
    ensures var s := Reached(np, nr, acts);
            var t := Apply(s, a);
            && fid < |t.files|
            && (Memory(t.files[fid]) != Memory(s.files[fid]) ==>
                  && (a.Advance? || a.Publish?) && a.p < |s.procs|
                  && Section(s.procs[a.p].pc).Some? && s.lockPath == Section(s.procs[a.p].pc)
                  && s.lockPath.value < |s.holders| && s.holders[s.lockPath.value] == Some(a.p))
  {
    AllRunsSafe(np, nr, acts);
    var s := Reached(np, nr, acts);
    OnlyOwnersStore(s, a, fid);
    if Memory(Apply(s, a).files[fid]) != Memory(s.files[fid]) {
      assert HoldInv(s, a.p);
    }
  }

  lemma OnlyOwnersStore(s: Sys, a: Act, fid: nat)
    requires fid < |s.files|
    ensures var t := Apply(s, a);
            fid < |t.files|
            && (Memory(t.files[fid]) != Memory(s.files[fid]) ==>
                  (a.Advance? || a.Publish?) && a.p < |s.procs| && Section(s.procs[a.p].pc).Some?)
  {
    hide LockStep, OpenStep, UnlinkStep, UnlinkUnmapped, PublishStep, Crashed, LoadStep, DeadlineStep, SliceStep;
    match a
    case Advance(p, random) => if p < |s.procs| && random != 0 { AdvanceKeepsFiles(s, p, random); }
    case Publish(p, wa) => if p < |s.procs| { PublishKeepsFiles(s, p, wa); }
    case MapFail(p) => if p < |s.procs| && s.procs[p].pc.UnlinkData? { UnmappedStoresNothing(s, p); }
    case Crash(p) => if p < |s.procs| { CrashStoresNothing(s, p, fid); }
    case Load(j) => if j < |s.readers| { LoadsOnly(s, j); }
    case Deadline(j) => if j < |s.readers| { WaitsOnly(s, j); }
    case Slice(j) => if j < |s.readers| { WaitsOnly(s, j); }
    case _ =>
  }

  lemma AdvanceKeepsFiles(s: Sys, p: nat, random: u32)
    requires p < |s.procs| && random != 0
    ensures |Apply(s, Advance(p, random)).files| >= |s.files|
    ensures Section(s.procs[p].pc).None? ==> Apply(s, Advance(p, random)).files == s.files
  {}

  lemma PublishKeepsFiles(s: Sys, p: nat, a: WAct)
    requires p < |s.procs|
    ensures |PublishStep(s, p, a).files| == |s.files|
    ensures Section(s.procs[p].pc).None? ==> PublishStep(s, p, a) == s
  {}

  lemma UnmappedStoresNothing(s: Sys, p: nat)
    requires p < |s.procs| && s.procs[p].pc.UnlinkData?
    ensures UnlinkUnmapped(s, p).files == s.files
  {}

  lemma CrashStoresNothing(s: Sys, p: nat, fid: nat)
    requires p < |s.procs| && fid < |s.files|
    ensures fid < |Crashed(s, p).files| && Memory(Crashed(s, p).files[fid]) == Memory(s.files[fid])
  {
    hide Crashed;
    CrashParts(s, p);
  }

  lemma WaitsOnly(s: Sys, j: nat)
    requires j < |s.readers|
    ensures DeadlineStep(s, j).files == s.files && SliceStep(s, j).files == s.files
  {}

  /** WRITER_EXISTS means that another process held the lock the path named when the attempt failed. */
  lemma RefusalJustified(np: nat, nr: nat, acts: seq<Act>, p: nat)
    requires var s := Reached(np, nr, acts);
             p < |s.procs| && s.procs[p].refusal.Some?
    ensures var (current, holder) := Reached(np, nr, acts).procs[p].refusal.value;
            current && holder != p
  {
    AllRunsSafe(np, nr, acts);
    assert LoopInv(Reached(np, nr, acts), p);
  }

  // ---- the lock loop terminates --------------------------------------------------------------------

  /** Steps lock_channel has taken at most, counting from its restarts. */
  function LoopWork(pr: Proc): nat {
    4 * pr.restarts
    + match pr.pc
      case LockReopen(_) => 1
      case LockTry(_) => 2
      case LockRefused(_, _, _) => 3
      case LockVerify(_) => 3
      case _ => 0
  }

  /** The process an action belongs to. */
  function ActorOf(a: Act): Option<nat> {
    if a.Start? || a.Advance? || a.Publish? || a.Close? || a.Fail? || a.MapFail? || a.Crash? then Some(a.p) else None
  }

  lemma OthersLeave(s: Sys, a: Act, p: nat)
    requires p < |s.procs| && ActorOf(a) != Some(p)
    ensures p < |Apply(s, a).procs| && Apply(s, a).procs[p] == s.procs[p]
  {
    if ActorOf(a).None? {
      ReadersLeave(s, a);
    } else if a.p < |s.procs| {
      ProcsLeave(s, a, p);
    }
  }

  lemma ReadersLeave(s: Sys, a: Act)
    requires ActorOf(a).None?
    ensures Apply(s, a).procs == s.procs
  {}

  lemma ProcsLeave(s: Sys, a: Act, p: nat)
    requires p < |s.procs| && ActorOf(a).Some? && a.p != p && a.p < |s.procs|
    ensures p < |Apply(s, a).procs| && Apply(s, a).procs[p] == s.procs[p]
  {
    hide LockStep, OpenStep, UnlinkStep, Crashed;
    if a.Crash? { CrashShape(s, a.p); }
    if a.Advance? { AdvanceLeaves(s, a.p, a.random); }
  }

  lemma AdvanceLeaves(s: Sys, p: nat, random: u32)
    requires p < |s.procs|
    ensures Section(s.procs[p].pc).None? ==> LockStep(s, p).procs == s.procs[p := LockStep(s, p).procs[p]]
    ensures UnlinkStep(s, p).procs == s.procs[p := UnlinkStep(s, p).procs[p]]
    ensures s.procs[p].goal.OpenWriter? && OptsValid(s.procs[p].goal.o) && random != 0 ==>
              var t := OpenStep(s, p, s.procs[p].goal.o, random);
              t.procs == s.procs[p := t.procs[p]]
  {
    assert s.procs[p := s.procs[p]] == s.procs;
  }

  /** Inside the loop, a system call of the process is progress, and nothing else it does has an effect but dying. */
  lemma LoopProgress(s: Sys, a: Act, p: nat)
    requires LockInv(s) && p < |s.procs| && InLockLoop(s.procs[p].pc) && ActorOf(a) == Some(p)
    ensures p < |Apply(s, a).procs|
    ensures InLockLoop(Apply(s, a).procs[p].pc) ==>
              var pr := Apply(s, a).procs[p];
              && pr.call0 == s.procs[p].call0
              && LoopWork(pr) >= LoopWork(s.procs[p]) + if a.Advance? && a.random != 0 then 1 else 0
  {
    assert LoopInv(s, p);
    if a.Crash? { CrashShape(s, p); }
  }

  /** The process stays in lock_channel throughout. */
  ghost predicate Stays(s: Sys, acts: seq<Act>, p: nat)
    decreases |acts|
  {
    p < |s.procs| && InLockLoop(s.procs[p].pc) && (acts != [] ==> Stays(Apply(s, acts[0]), acts[1..], p))
  }

  /** The system calls process `p` makes. */
  function StepsOf(acts: seq<Act>, p: nat): nat
    decreases |acts|
  {
    if acts == [] then 0
    else (if acts[0].Advance? && acts[0].p == p && acts[0].random != 0 then 1 else 0) + StepsOf(acts[1..], p)
  }

  lemma {:induction false} LoopRun(s: Sys, acts: seq<Act>, p: nat)
    requires SysInv(s) && Stays(s, acts, p)
    ensures var t := Run(s, acts);
            p < |t.procs| && InLockLoop(t.procs[p].pc) && t.procs[p].call0 == s.procs[p].call0
            && LoopWork(t.procs[p]) >= LoopWork(s.procs[p]) + StepsOf(acts, p)
    decreases |acts|
  {
    hide LockStep, Crashed, OwnerInv, ReadersInv, Apply, LoopWork, InLockLoop, LockInv;
    if acts != [] {
      StepSafe(s, acts[0]);
      if ActorOf(acts[0]) == Some(p) { LoopProgress(s, acts[0], p); } else { OthersLeave(s, acts[0], p); }
      LoopRun(Apply(s, acts[0]), acts[1..], p);
    }
  }

  /**
   * Whatever the others do meanwhile, a process in lock_channel makes fewer than
   * 4 * (unlinks of the lock path since its call began + 1) system calls.
   */
  lemma LockLoopTerminates(np: nat, nr: nat, before: seq<Act>, acts: seq<Act>, p: nat)
    requires Stays(Reached(np, nr, before), acts, p)
    ensures var t := Run(Reached(np, nr, before), acts);
            && p < |t.procs| && t.procs[p].call0 <= t.unlinks
            && StepsOf(acts, p) < 4 * (t.unlinks - t.procs[p].call0 + 1)
  {
    AllRunsSafe(np, nr, before);
    LoopRun(Reached(np, nr, before), acts, p);
    RunSafe(Reached(np, nr, before), acts);
    assert LoopInv(Run(Reached(np, nr, before), acts), p);
  }

  // ---- waiters ---------------------------------------------------------------------------------------

  ghost predicate AsleepOn(s: Sys, j: nat, fid: nat) {
    j < |s.readers| && s.readers[j].pc.InRing? && s.readers[j].r.pc.Asleep? && s.readers[j].att == Some(fid)
    && s.readers[j].r.op.Wait? && fid < |s.files|
  }

  /**
   * No lost wake-up. With no death between a change and its wake-up since the last wake-up of the file,
   * and fewer than 2^32 changes before the sleep: a waiter sleeps on a changed or retired file only while a live process
   * still has its `notify` increment or its wake to execute.
   */
  lemma NoLostWakeup(np: nat, nr: nat, acts: seq<Act>, j: nat, fid: nat)
    requires AsleepOn(Reached(np, nr, acts), j, fid)
    requires var s := Reached(np, nr, acts);
             s.readers[j].r.ok && !s.files[fid].f.lost && Changed(s.files[fid].f, s.readers[j].r.op.last)
    ensures var s := Reached(np, nr, acts);
            exists p :: 0 <= p < |s.procs| && Owes(AgentOf(s.procs[p].pc, fid))
  {
    AllRunsSafe(np, nr, acts);
    var s := Reached(np, nr, acts);
    assert ReaderInv(s.files, s.readers[j]);
    if NoOwner(s) {
      WakeIsOwed(s.files, Out, fid);
    } else {
      var p :| 0 <= p < |s.procs| && Section(s.procs[p].pc).Some?;
      WakeIsOwed(s.files, s.procs[p].pc, fid);
    }
  }

  /** A wake-up makes good for every death before it: nobody sleeps on the file any more. */
  lemma WakeupMakesGood(np: nat, nr: nat, acts: seq<Act>, p: nat, j: nat)
    requires var s := Reached(np, nr, acts);
             && p < |s.procs| && j < |s.readers| && s.procs[p].pc.Write? && s.procs[p].pc.w.pc.WakeAll?
    ensures var s := Reached(np, nr, acts);
            var t, fid := Apply(s, Publish(p, Store)), s.procs[p].pc.fid;
            && fid < |t.files| && !t.files[fid].f.lost && !AsleepOn(t, j, fid)
            && (AsleepOn(s, j, fid) ==> j < |t.readers| && t.readers[j].r.pc.Restart?)
  {
    hide SysInv;
    AllRunsSafe(np, nr, acts);
    WakerReady(Reached(np, nr, acts), p);
    WakeStep(Reached(np, nr, acts), p, j);
  }

  lemma WakerReady(s: Sys, p: nat)
    requires SysInv(s) && p < |s.procs| && s.procs[p].pc.Write? && s.procs[p].pc.w.pc.WakeAll?
    ensures s.procs[p].pc.fid < |s.files|
  {
    hide LockInv, ReadersInv, FileOk;
    var pc := s.procs[p].pc;
    assert FilesInv(s.files, s.dataPath, s.procs[p].goal, pc);
    assert s.dataPath == Some(pc.fid) && Exists(s.files, pc.fid);
  }

  lemma WakeStep(s: Sys, p: nat, j: nat)
    requires p < |s.procs| && j < |s.readers| && s.procs[p].pc.Write? && s.procs[p].pc.w.pc.WakeAll?
    requires s.procs[p].pc.fid < |s.files|
    ensures var t, fid := Apply(s, Publish(p, Store)), s.procs[p].pc.fid;
            && fid < |t.files| && !t.files[fid].f.lost && !AsleepOn(t, j, fid)
            && (AsleepOn(s, j, fid) ==> j < |t.readers| && t.readers[j].r.pc.Restart?)
  {
    var pc := s.procs[p].pc;
    assert WEnabled(s.files[pc.fid].f, pc.w, Store);
  }

  lemma WakeIsOwed(fs: seq<Obj>, pc: PPc, fid: nat)
    requires fid < |fs| && fs[fid].ready && FileOk(fs, pc, fid)
    requires !fs[fid].f.lost && (fs[fid].f.unnotified || fs[fid].f.unwoken)
    ensures Owes(AgentOf(pc, fid))
  {}

  // ---- the channel ------------------------------------------------------------------------------------

  ghost predicate Ready(s: Sys, fid: nat) {
    fid < |s.files| && s.files[fid].ready
  }

  lemma FileOf(np: nat, nr: nat, acts: seq<Act>, fid: nat)
    requires Ready(Reached(np, nr, acts), fid)
    ensures FileInv(Reached(np, nr, acts).files[fid].f) && !Reached(np, nr, acts).files[fid].f.adopted
    ensures Reached(np, nr, acts).files[fid].f.dirty == {}
  {
    AllRunsSafe(np, nr, acts);
  }

  /** The value a file holds, decoded from its memory alone. */
  function Decoded(f: File): Option<Record>
    requires |f.slots| <= MAX_SLOTS
  {
    if f.latest == NONE || LatestSlot(f.latest) >= |f.slots| then None
    else
      var b := f.slots[LatestSlot(f.latest)].body;
      if |b| < META || |b| - META < MetaLen(b) then None
      else Some(Record(MetaGen(b), MetaTs(b), b[META..META + MetaLen(b)]))
  }

  /**
   * The channel invariant, in terms of the memory: `latest` names an even slot with its tag, which
   * holds the last publish; at most one slot is odd, and it is the one written next.
   */
  lemma ChannelInvariant(np: nat, nr: nat, acts: seq<Act>, fid: nat)
    requires Ready(Reached(np, nr, acts), fid)
    ensures var f := Reached(np, nr, acts).files[fid].f;
            && MIN_SLOTS <= |f.slots| <= MAX_SLOTS
            && Decoded(f) == (if f.log == [] then None else Some(f.log[|f.log| - 1]))
            && (f.latest != NONE <==> f.log != [])
            && (f.log != [] ==>
                  var i := LatestSlot(f.latest);
                  && i < |f.slots| && f.slots[i].seqno % 2 == 0 && f.latest == Latest(i, f.slots[i].seqno)
                  && |f.log[|f.log| - 1].bytes| <= f.cap
                  && forall k :: 0 <= k < |f.slots| && f.slots[k].seqno % 2 == 1 ==> k == (i + 1) % |f.slots|)
            && (f.latest == NONE ==> forall k :: 0 <= k < |f.slots| && f.slots[k].seqno % 2 == 1 ==> k == 0)
  {
    hide Run, Init;
    FileOf(np, nr, acts, fid);
    var f := Reached(np, nr, acts).files[fid].f;
    ValueIsLastPublish(f);
    LatestHolds(f);
    OddIsNext(f);
    hide FileInv, Decoded;
  }

  /** The only odd slot is the one to be written next. */
  lemma OddIsNext(f: File)
    requires FileInv(f) && !f.adopted
    ensures f.log != [] ==> forall k :: 0 <= k < |f.slots| && f.slots[k].seqno % 2 == 1 ==> k == (LatestSlot(f.latest) + 1) % |f.slots|
    ensures f.latest == NONE ==> forall k :: 0 <= k < |f.slots| && f.slots[k].seqno % 2 == 1 ==> k == 0
  {
    LatestHolds(f);
    forall k | 0 <= k < |f.slots|
      ensures f.slots[k].seqno % 2 == 1 <==> f.odd[k]
    {
      SeqParity(f.commits[k], f.odd[k]);
    }
    if f.log != [] { AfterIsMod(CurSlot(f), |f.slots|); }
  }

  lemma ValueIsLastPublish(f: File)
    requires FileInv(f) && Live(f)
    ensures Decoded(f) == if f.log == [] then None else Some(f.log[|f.log| - 1])
  {
    LatestHolds(f);
    if f.log != [] {
      var r := f.log[|f.log| - 1];
      var b := f.slots[LatestSlot(f.latest)].body;
      ImageDecodes(r, b);
      assert b[META..META + |r.bytes|] == Image(r)[META..];
    }
  }

  /** A crash at any point leaves exactly the value that was the latest, old or new. */
  lemma CrashAtomic(np: nat, nr: nat, acts: seq<Act>, p: nat, fid: nat)
    requires Ready(Reached(np, nr, acts), fid)
    ensures var s := Reached(np, nr, acts);
            var t := Apply(s, Crash(p));
            && Ready(t, fid) && t.files[fid].f.log == s.files[fid].f.log && Memory(t.files[fid]) == Memory(s.files[fid])
            && MIN_SLOTS <= |t.files[fid].f.slots| <= MAX_SLOTS
            && Decoded(t.files[fid].f)
               == (if s.files[fid].f.log == [] then None else Some(s.files[fid].f.log[|s.files[fid].f.log| - 1]))
  {
    FileOf(np, nr, acts, fid);
    ValueIsLastPublish(Reached(np, nr, acts).files[fid].f);
    CrashMemory(Reached(np, nr, acts), p, fid);
  }

  lemma CrashMemory(s: Sys, p: nat, fid: nat)
    requires fid < |s.files| && s.files[fid].ready
    ensures var t := Apply(s, Crash(p));
            && fid < |t.files| && t.files[fid].ready
            && t.files[fid].f.log == s.files[fid].f.log && Memory(t.files[fid]) == Memory(s.files[fid])
  {
    hide Crashed;
    if p < |s.procs| { CrashParts(s, p); }
  }

  // ---- generations --------------------------------------------------------------------------------------

  const GENERATIONS: nat := 0xFFFF_FFFF // 2^32 - 1: zero is skipped

  lemma NextGenMod(x: nat)
    ensures NextGen(x % GENERATIONS + 1) == (x + 1) % GENERATIONS + 1
  {
    var q, r := x / GENERATIONS, x % GENERATIONS;
    if r + 1 < GENERATIONS {
      Bits.DivModUnique(x + 1, GENERATIONS, q, r + 1);
    } else {
      Bits.DivModUnique(x + 1, GENERATIONS, q + 1, 0);
    }
  }

  lemma {:induction false} ChainFrom(f: File, k: nat)
    requires LogInv(f) && k < |f.log|
    ensures f.log[k].gen == (f.log[0].gen - 1 + k) % GENERATIONS + 1
  {
    if k > 0 {
      ChainFrom(f, k - 1);
      assert f.log[k - 1 + 1].gen == NextGen(f.log[k - 1].gen);
      NextGenMod(f.log[0].gen - 1 + (k - 1));
    }
  }

  /** Generations of one file count through 1 .. 2^32 - 1, across aborts, crashes and reuse. */
  lemma GenerationChain(np: nat, nr: nat, acts: seq<Act>, fid: nat, k: nat)
    requires Ready(Reached(np, nr, acts), fid) && k < |Reached(np, nr, acts).files[fid].f.log|
    ensures var log := Reached(np, nr, acts).files[fid].f.log;
            log[k].gen != 0 && log[0].gen != 0 && log[k].gen == (log[0].gen - 1 + k) % GENERATIONS + 1
  {
    FileOf(np, nr, acts, fid);
    ChainFrom(Reached(np, nr, acts).files[fid].f, k);
  }

  /** Two publishes share a generation only a multiple of 2^32 - 1 publishes apart. */
  lemma GenerationsDistinct(np: nat, nr: nat, acts: seq<Act>, fid: nat, k: nat, m: nat)
    requires Ready(Reached(np, nr, acts), fid) && k < m < |Reached(np, nr, acts).files[fid].f.log|
    ensures var log := Reached(np, nr, acts).files[fid].f.log;
            log[k].gen == log[m].gen <==> (m - k) % GENERATIONS == 0
  {
    GenerationChain(np, nr, acts, fid, k);
    GenerationChain(np, nr, acts, fid, m);
    var g := Reached(np, nr, acts).files[fid].f.log[0].gen - 1;
    SameResidue(g + k, g + m, GENERATIONS);
  }

  lemma SameResidue(a: nat, b: nat, n: nat)
    requires n > 0 && a <= b
    ensures a % n == b % n <==> (b - a) % n == 0
  {
    var qa, ra := a / n, a % n;
    var qd, rd := (b - a) / n, (b - a) % n;
    assert a == qa * n + ra && b - a == qd * n + rd;
    assert b == (qa + qd) * n + (ra + rd) by { assert (qa + qd) * n == qa * n + qd * n; }
    if ra + rd < n {
      Bits.DivModUnique(b, n, qa + qd, ra + rd);
    } else {
      assert (qa + qd + 1) * n == (qa + qd) * n + n;
      Bits.DivModUnique(b, n, qa + qd + 1, ra + rd - n);
    }
  }

  /** A handle that replaced a file holding a value publishes first with the generation after that value's. */
  lemma GenerationCarried(np: nat, nr: nat, acts: seq<Act>, p: nat)
    requires var s := Reached(np, nr, acts);
             p < |s.procs| && s.procs[p].pc.Write? && s.procs[p].pc.from.Some?
    ensures var s := Reached(np, nr, acts);
            var pc := s.procs[p].pc;
            && pc.fid < |s.files| && pc.from.value < |s.files| && pc.fid != pc.from.value
            && (s.files[pc.from.value].f.log != [] ==>
                  var was := s.files[pc.from.value].f.log[|s.files[pc.from.value].f.log| - 1].gen;
                  var log := s.files[pc.fid].f.log;
                  if log == [] then pc.w.gen == NextGen(was) else log[0].gen == NextGen(was))
  {
    AllRunsSafe(np, nr, acts);
    var s := Reached(np, nr, acts);
    assert FilesInv(s.files, s.dataPath, s.procs[p].goal, s.procs[p].pc);
  }
}
