// One monotonic clock for the machine: publishes carry its readings in the order of the channel.
module SystemClock {
  import opened Bytes
  import opened Ring
  import opened System
  import opened SystemInvariant
  import opened SystemSafety
  import opened SystemChannel

  /** The timestamp of a publish. */
  function Time(fs: seq<Obj>, p: Pub): u64 {
    if p.fid < |fs| && p.k < |fs[p.fid].f.log| then fs[p.fid].f.log[p.k].ts else 0
  }

  /** The timestamp of a process that has read the clock and not yet published. */
  function Pending(pc: PPc): Option<u64> {
    match pc
    case Write(_, _, Writer(_, _, Filling(_, _, PutSeq(_, ts))), _) => Some(ts)
    case Write(_, _, Writer(_, _, Filling(_, _, PutLatest(_, ts))), _) => Some(ts)
    case _ => None
  }

  ghost predicate Passed(fs: seq<Obj>, pubs: seq<Pub>, ts: u64) {
    forall k :: 0 <= k < |pubs| ==> Time(fs, pubs[k]) <= ts
  }

  ghost predicate InOrder(fs: seq<Obj>, pubs: seq<Pub>) {
    forall k, m :: 0 <= k < m < |pubs| ==> Time(fs, pubs[k]) <= Time(fs, pubs[m])
  }

  /** No file was stamped later than now, and what is about to be published is not older than what was. */
  ghost predicate TimeInv(s: Sys) {
    && InOrder(s.files, s.pubs) && Passed(s.files, s.pubs, s.clock)
    && (forall fid :: 0 <= fid < |s.files| ==> s.files[fid].f.clock <= s.clock)
    && (forall p :: 0 <= p < |s.procs| && Pending(s.procs[p].pc).Some? ==>
          Pending(s.procs[p].pc).value <= s.clock && Passed(s.files, s.pubs, Pending(s.procs[p].pc).value))
  }

  // ---- steps that leave the time alone -----------------------------------------------------------------

  ghost predicate Timeless(s: Sys, t: Sys) {
    && t.clock == s.clock && t.pubs == s.pubs && |s.files| <= |t.files| && |t.procs| == |s.procs|
    && (forall fid :: 0 <= fid < |s.files| ==>
          t.files[fid].f.log == s.files[fid].f.log && t.files[fid].f.clock == s.files[fid].f.clock)
    && (forall fid :: |s.files| <= fid < |t.files| ==> t.files[fid].f.clock == 0)
    && (forall p :: 0 <= p < |s.procs| && Pending(t.procs[p].pc).Some? ==> Pending(t.procs[p].pc) == Pending(s.procs[p].pc))
  }

  lemma TimelessKeeps(s: Sys, t: Sys)
    requires PubsInv(s.files, s.pubs) && TimeInv(s) && Timeless(s, t)
    ensures TimeInv(t)
  {
    hide Pending;
    forall k | 0 <= k < |s.pubs|
      ensures Time(t.files, s.pubs[k]) == Time(s.files, s.pubs[k])
    {
      assert Exists(s.files, s.pubs[k].fid);
    }
  }

  /** The process moves on, and a file changes outside its publishes. */
  lemma StepTimeless(s: Sys, t: Sys, p: nat, fid: nat)
    requires p < |s.procs| == |t.procs| && fid < |s.files| && t.procs == s.procs[p := t.procs[p]]
    requires Pending(t.procs[p].pc).None?
    requires t.clock == s.clock && t.pubs == s.pubs && |t.files| == |s.files| && t.files == s.files[fid := t.files[fid]]
    requires t.files[fid].f.log == s.files[fid].f.log && t.files[fid].f.clock == s.files[fid].f.clock
    ensures Timeless(s, t)
  {
    hide Pending;
  }

  lemma FillTimeless(ob: Obj, o: Opts, k: nat)
    requires OptsValid(o)
    ensures FillTmp(ob, o, k).f.log == ob.f.log && FillTmp(ob, o, k).f.clock == ob.f.clock
  {
    hide StoreField;
  }

  lemma RetireTimeless(f: File, st: RetireStage)
    ensures RetireFile(f, st).log == f.log && RetireFile(f, st).clock == f.clock
  {}

  lemma BlankTimeless(o: Opts)
    requires OptsValid(o)
    ensures Blank(o).f.clock == 0
  {}

  /** Nothing but the process's place changes. */
  lemma MoveTimeless(s: Sys, t: Sys, p: nat)
    requires p < |s.procs| == |t.procs| && t.files == s.files && t.clock == s.clock && t.pubs == s.pubs
    requires forall q :: 0 <= q < |s.procs| && q != p ==> t.procs[q] == s.procs[q]
    requires Pending(t.procs[p].pc).Some? ==> Pending(t.procs[p].pc) == Pending(s.procs[p].pc)
    ensures Timeless(s, t)
  {
    hide Pending;
  }

  lemma OpenTimeless(s: Sys, p: nat, o: Opts, random: u32)
    requires p < |s.procs| && OptsValid(o) && random != 0
    ensures Timeless(s, OpenStep(s, p, o, random))
  {
    hide FillTmp, RetireFile, Decide, Blank;
    SameTimeless(s);
    BlankTimeless(o);
    var t := OpenStep(s, p, o, random);
    match s.procs[p].pc
    case TmpFill(_, _, _, tmp, k) =>
      if tmp < |s.files| {
        FillTimeless(s.files[tmp], o, k);
        StepTimeless(s, t, p, tmp);
      }
    case NewRetire(_, prev, _, _, st) =>
      if prev < |s.files| {
        RetireTimeless(s.files[prev].f, st);
        StepTimeless(s, t, p, prev);
      }
    case TmpMake(_, _, _) =>
    case DataDecide(_, fid, latest) => if fid < |s.files| { DecideTimeless(s, p, o, random); }
    case _ => MoveTimeless(s, t, p);
  }

  lemma DecideTimeless(s: Sys, p: nat, o: Opts, random: u32)
    requires p < |s.procs| && s.procs[p].pc.DataDecide? && s.procs[p].pc.fid < |s.files|
    ensures var pc := s.procs[p].pc;
            Timeless(s, Decide(s, p, o, pc.ino, pc.fid, pc.latest, random))
  {
    hide Compatible, CarriedGen;
    var pc := s.procs[p].pc;
    MoveTimeless(s, Decide(s, p, o, pc.ino, pc.fid, pc.latest, random), p);
  }

  lemma UnlinkTimeless(s: Sys, p: nat)
    requires p < |s.procs|
    ensures Timeless(s, UnlinkStep(s, p))
    ensures s.procs[p].pc.UnlinkData? ==> Timeless(s, UnlinkUnmapped(s, p))
  {
    var t, pc := UnlinkStep(s, p), s.procs[p].pc;
    if pc.UnlinkRetire? && pc.fid < |s.files| {
      RetireTimeless(s.files[pc.fid].f, pc.st);
      hide RetireFile;
      StepTimeless(s, t, p, pc.fid);
    } else {
      MoveTimeless(s, t, p);
    }
  }

  lemma CrashTimeless(s: Sys, p: nat)
    requires p < |s.procs|
    ensures Timeless(s, Crashed(s, p))
  {
    hide Crashed, AgentOf;
    CrashParts(s, p);
    var t, pc := Crashed(s, p), s.procs[p].pc;
    if t.files == s.files { MoveTimeless(s, t, p); } else { StepTimeless(s, t, p, pc.fid); }
  }

  lemma LockTimeless(s: Sys, p: nat)
    requires p < |s.procs| && Section(s.procs[p].pc).None?
    ensures Timeless(s, LockStep(s, p))
  {
    MoveTimeless(s, LockStep(s, p), p);
  }

  lemma ProcessTimeless(s: Sys, a: Act)
    requires a.Start? || a.Advance? || a.Close? || a.Fail? || a.MapFail? || a.Crash?
    ensures Timeless(s, Apply(s, a))
  {
    hide LockStep, OpenStep, UnlinkStep, UnlinkUnmapped, Crashed, Timeless;
    var t := Apply(s, a);
    if a.p >= |s.procs| {
      SameTimeless(s);
    } else if t == s {
      SameTimeless(s);
    } else {
      var p := a.p;
      if a.Advance? && Section(s.procs[p].pc).None? {
        LockTimeless(s, p);
      } else if a.Advance? && s.procs[p].goal.OpenWriter? {
        OpenTimeless(s, p, s.procs[p].goal.o, a.random);
      } else if a.Advance? || a.MapFail? {
        UnlinkTimeless(s, p);
      } else if a.Crash? {
        CrashTimeless(s, p);
      } else {
        MoveTimeless(s, t, p);
      }
    }
  }

  lemma SameTimeless(s: Sys)
    ensures Timeless(s, s)
  {}

  lemma ReaderTimeless(s: Sys, a: Act)
    requires a.Call? || a.Describe? || a.WriterAlive? || a.Load? || a.Deadline? || a.Slice?
    ensures Timeless(s, Apply(s, a))
  {
    hide LoadStep;
    if a.Load? && a.j < |s.readers| { LoadsOnly(s, a.j); }
  }

  // ---- the writer -------------------------------------------------------------------------------------------

  /** Of all processes only the writer has a timestamp to publish. */
  lemma OnePending(s: Sys, p: nat, q: nat)
    requires LockInv(s) && p < |s.procs| && q < |s.procs| && q != p && Section(s.procs[p].pc).Some?
    ensures Pending(s.procs[q].pc).None?
  {
    if Section(s.procs[q].pc).Some? { Exclusion(s, p, q); }
  }

  /** What the action leaves to publish: the clock's reading, or what there was. */
  lemma PendingAfter(f: File, ino: nat, fid: nat, w: Writer, from: Option<nat>, a: WAct)
    requires WEnabled(f, w, a)
    ensures var ts := Pending(Write(ino, fid, WHandle(f, w, a), from));
            ts.Some? ==> if a.Stamp? then ts == Some(a.t) else ts == Pending(Write(ino, fid, w, from)) && !Publishes(w, a)
  {}

  /** The writer's stores, but for the publish. */
  lemma StoreTimed(s: Sys, t: Sys, p: nat, fid: nat, g: File)
    requires SysInv(s) && PubsInv(s.files, s.pubs) && TimeInv(s)
    requires p < |s.procs| == |t.procs| && Section(s.procs[p].pc).Some? && fid < |s.files|
    requires t.files == s.files[fid := s.files[fid].(f := g)] && t.procs == s.procs[p := t.procs[p]] && t.pubs == s.pubs
    requires g.log == s.files[fid].f.log && s.clock <= t.clock && g.clock <= t.clock
    requires var ts := Pending(t.procs[p].pc);
             ts.Some? ==> ts == Some(t.clock) || ts == Pending(s.procs[p].pc)
    ensures TimeInv(t)
  {
    hide Pending, SysInv;
    forall k | 0 <= k < |s.pubs|
      ensures Time(t.files, s.pubs[k]) == Time(s.files, s.pubs[k])
    {
      assert Exists(s.files, s.pubs[k].fid);
    }
    forall q | 0 <= q < |t.procs| && Pending(t.procs[q].pc).Some?
      ensures Pending(t.procs[q].pc).value <= t.clock && Passed(t.files, t.pubs, Pending(t.procs[q].pc).value)
    {
      if q != p { assert t.procs[q] == s.procs[q]; }
    }
  }

  lemma PostTimed(s: Sys, t: Sys, p: nat, fid: nat, g: File, rec: Record)
    requires SysInv(s) && PubsInv(s.files, s.pubs) && TimeInv(s)
    requires p < |s.procs| == |t.procs| && Section(s.procs[p].pc).Some? && fid < |s.files|
    requires t.files == s.files[fid := s.files[fid].(f := g)] && t.procs == s.procs[p := t.procs[p]]
    requires t.pubs == s.pubs + [Pub(fid, |s.files[fid].f.log|)] && t.clock == s.clock
    requires g.log == s.files[fid].f.log + [rec] && g.clock <= t.clock
    requires Pending(s.procs[p].pc) == Some(rec.ts) && Pending(t.procs[p].pc).None?
    ensures TimeInv(t)
  {
    hide Pending, LockInv, OwnerInv, ReadersInv, InOrder, Passed, PubsInv;
    PostOrdered(s.files, t.files, s.pubs, t.pubs, fid, rec, t.clock);
    forall q | 0 <= q < |t.procs|
      ensures Pending(t.procs[q].pc).None?
    {
      if q != p { OnePending(s, p, q); }
    }
  }

  lemma PostOrdered(fs: seq<Obj>, ft: seq<Obj>, pubs: seq<Pub>, pubs': seq<Pub>, fid: nat, rec: Record, clock: u64)
    requires PubsInv(fs, pubs) && InOrder(fs, pubs) && Passed(fs, pubs, rec.ts) && rec.ts <= clock
    requires fid < |fs| == |ft| && ft == fs[fid := ft[fid]] && ft[fid].f.log == fs[fid].f.log + [rec]
    requires pubs' == pubs + [Pub(fid, |fs[fid].f.log|)]
    ensures InOrder(ft, pubs') && Passed(ft, pubs', clock)
  {
    forall k | 0 <= k < |pubs|
      ensures Time(ft, pubs'[k]) == Time(fs, pubs[k]) <= rec.ts
    {
      assert Exists(fs, pubs[k].fid);
    }
    assert Time(ft, pubs'[|pubs|]) == rec.ts;
  }

  lemma PublishTimed(s: Sys, p: nat, a: WAct)
    requires SysInv(s) && PubsInv(s.files, s.pubs) && TimeInv(s) && p < |s.procs|
    ensures TimeInv(PublishStep(s, p, a))
  {
    hide SysInv, PubsInv, WFile, WHandle, WEnabled, InOrder, Passed;
    var pc, t := s.procs[p].pc, PublishStep(s, p, a);
    if pc.Write? && pc.fid < |s.files| && WEnabled(s.files[pc.fid].f, pc.w, a) && (a.Stamp? ==> s.clock <= a.t) {
      var f := s.files[pc.fid].f;
      LogAfter(f, pc.w, a);
      ClockAfter(f, pc.w, a);
      PendingAfter(f, pc.ino, pc.fid, pc.w, pc.from, a);
      var g := WFile(f, pc.w, a);
      if Publishes(pc.w, a) {
        PostTimed(s, t, p, pc.fid, g, Record(pc.w.gen, pc.w.pc.st.ts, pc.w.pc.st.pay));
      } else {
        StoreTimed(s, t, p, pc.fid, g);
      }
    }
  }

  // ---- every run --------------------------------------------------------------------------------------------

  lemma TimeStep(s: Sys, a: Act)
    requires SysInv(s) && ChanInv(s) && TimeInv(s)
    ensures TimeInv(Apply(s, a))
  {
    assert PubsInv(s.files, s.pubs);
    hide SysInv, ChanInv, TimeInv, PubsInv, PublishStep;
    if a.Publish? {
      if a.p < |s.procs| { PublishTimed(s, a.p, a.a); }
    } else {
      if a.Call? || a.Describe? || a.WriterAlive? || a.Load? || a.Deadline? || a.Slice? { ReaderTimeless(s, a); }
      else { ProcessTimeless(s, a); }
      TimelessKeeps(s, Apply(s, a));
    }
  }

  lemma {:induction false} TimeRun(s: Sys, acts: seq<Act>)
    requires SysInv(s) && ChanInv(s) && TimeInv(s)
    ensures TimeInv(Run(s, acts))
    decreases |acts|
  {
    hide SysInv, ChanInv, TimeInv, Apply;
    if acts != [] {
      StepSafe(s, acts[0]);
      ChannelStep(s, acts[0]);
      TimeStep(s, acts[0]);
      TimeRun(Apply(s, acts[0]), acts[1..]);
    }
  }

  lemma InitTimed(np: nat, nr: nat)
    ensures TimeInv(Init(np, nr))
  {}

  /** In every reachable state the publishes of the channel carry timestamps in their order. */
  lemma AllRunsTimed(np: nat, nr: nat, acts: seq<Act>)
    ensures TimeInv(Run(Init(np, nr), acts))
  {
    InitSafe(np, nr);
    InitOrdered(np, nr);
    InitTimed(np, nr);
    hide SysInv, ChanInv, TimeInv, Init;
    TimeRun(Init(np, nr), acts);
  }
}
