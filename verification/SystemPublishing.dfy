// One writer publishing with nobody else stepping: what the stores of a publish add up to, from any
// reachable state, and what they do to the readers asleep on its file.
module SystemPublishing {
  import opened Bytes
  import opened Ring
  import opened RingInvariant
  import opened RingWriter
  import opened System
  import opened SystemInvariant
  import opened SystemSafety

  /** The next action of a writer inside a publish or commit, `t` being the time of day. */
  function NextAct(pc: PPc, t: u64): WAct {
    if pc.Write? && pc.w.pc.Filling? && pc.w.pc.st.PutTs? then Stamp(t) else Store
  }

  /** `k` such actions of process `p`, nobody else stepping. */
  function StoresAlone(s: Sys, p: nat, t: u64, k: nat): Sys
    decreases k
  {
    if k == 0 || p >= |s.procs| then s
    else StoresAlone(Apply(s, Publish(p, NextAct(s.procs[p].pc, t))), p, t, k - 1)
  }

  /** The actions left, from the stores of begin_slot to the handle's return. */
  function Left(pc: Pc, notifyOn: bool): nat {
    match pc
    case Idle => 0
    case AddNotify => 2
    case WakeAll => 1
    case Filling(_, _, st) => StagesLeft(st) + if notifyOn then 2 else 0
  }

  function StagesLeft(st: Stage): nat {
    match st
    case Begun(src) => |Payload(st)| + 7
    case Open => 0
    case Copying(data, k) => (if k < |data| then |data| - k else 0) + 6
    case PutGen(_) => 5
    case PutLen(_) => 4
    case PutTs(_) => 3
    case PutSeq(_, _) => 2
    case PutLatest(_, _) => 1
  }

  /** Committing: everything but the application's own stores. */
  predicate Committing(st: Stage) {
    !st.Open? && (st.Begun? ==> st.src.FromCaller?)
  }

  /** The timestamp the value will carry. */
  function StampOf(st: Stage, t: u64): u64 {
    if st.PutSeq? || st.PutLatest? then st.ts else t
  }

  /** What create_file fixed. */
  ghost predicate SameShape(f: File, g: File) {
    g.notifyOn == f.notifyOn && g.cap == f.cap && |g.slots| == |f.slots| && g.payloadType == f.payloadType && g.minor == f.minor
  }

  /** What the writer that is at `pc` leaves in its file. */
  ghost predicate FileAfter(f: File, g: File, w: Writer, t: u64) {
    && g.log == (if w.pc.Filling? then f.log + [Record(w.gen, StampOf(w.pc.st, t), Payload(w.pc.st))] else f.log)
    && g.notify == (if f.notifyOn && (w.pc.Filling? || w.pc.AddNotify?) then (f.notify + 1) % U32 else f.notify)
    && g.clock == (if w.pc.Filling? && !w.pc.st.PutSeq? && !w.pc.st.PutLatest? then t else f.clock)
    && SameShape(f, g) && g.retired == f.retired
    && (f.notifyOn && !w.pc.Idle? ==> !g.lost && !g.unnotified && !g.unwoken)
  }

  /** The whole state once process `p` is through. */
  ghost predicate Wrote(s: Sys, u: Sys, p: nat, t: u64)
    requires p < |s.procs| && s.procs[p].pc.Write? && s.procs[p].pc.fid < |s.files|
  {
    var pc := s.procs[p].pc;
    var f := s.files[pc.fid].f;
    && |u.files| == |s.files| && |u.procs| == |s.procs| && u.procs[p].pc.Write?
    && u == s.(files := s.files[pc.fid := s.files[pc.fid].(f := u.files[pc.fid].f)],
               procs := s.procs[p := s.procs[p].(pc := pc.(w := u.procs[p].pc.w))],
               readers := if f.notifyOn && !pc.w.pc.Idle? then WakeReaders(s.readers, pc.fid) else s.readers,
               clock := if pc.w.pc.Filling? && !pc.w.pc.st.PutSeq? && !pc.w.pc.st.PutLatest? then t else s.clock,
               pubs := if pc.w.pc.Filling? then s.pubs + [Pub(pc.fid, |f.log|)] else s.pubs)
    && FileAfter(f, u.files[pc.fid].f, pc.w, t)
    && u.procs[p].pc.w.pc.Idle?
    && u.procs[p].pc.w.gen == (if pc.w.pc.Idle? then pc.w.gen else NextGen(pc.w.gen))
  }

  /** What the invariant says of the writer's file. */
  lemma WriterFacts(s: Sys, p: nat)
    requires SysInv(s) && p < |s.procs| && s.procs[p].pc.Write?
    ensures s.procs[p].pc.fid < |s.files|
    ensures AgentInv(s.files[s.procs[p].pc.fid].f, Writing(s.procs[p].pc.w))
    ensures s.dataPath == Some(s.procs[p].pc.fid)
  {
    hide LockInv, ReadersInv, AgentInv;
    var pc := s.procs[p].pc;
    assert FilesInv(s.files, s.dataPath, s.procs[p].goal, pc);
    assert Exists(s.files, pc.fid) && FileOk(s.files, pc, pc.fid);
  }

  lemma ActFits(f: File, w: Writer, a: WAct, t: u64)
    requires AgentInv(f, Writing(w)) && !w.pc.Idle? && (w.pc.Filling? ==> Committing(w.pc.st)) && f.clock <= t
    requires a == if w.pc.Filling? && w.pc.st.PutTs? then Stamp(t) else Store
    ensures WEnabled(f, w, a)
  {}

  /** The action that is next for a file and its writer. */
  function RingAct(pc: Pc, t: u64): WAct {
    if pc.Filling? && pc.st.PutTs? then Stamp(t) else Store
  }

  /** The handle moves on to the next stage, the same value in hand. */
  lemma FillMoves(f: File, w: Writer, t: u64)
    requires WEnabled(f, w, RingAct(w.pc, t)) && w.pc.Filling? && Committing(w.pc.st) && !w.pc.st.PutLatest?
    ensures var w' := WHandle(f, w, RingAct(w.pc, t));
            && w'.pc.Filling? && Committing(w'.pc.st) && StagesLeft(w'.pc.st) + 1 == StagesLeft(w.pc.st)
            && w'.gen == w.gen && Payload(w'.pc.st) == Payload(w.pc.st) && StampOf(w'.pc.st, t) == StampOf(w.pc.st, t)
            && ((w'.pc.st.PutSeq? || w'.pc.st.PutLatest?) <==> (w.pc.st.PutTs? || w.pc.st.PutSeq?))
  {}

  lemma BodyTouches(f: File, i: nat, off: nat, bs: seq<byte>)
    requires i < |f.slots| && off + |bs| <= |f.slots[i].body|
    ensures SetBody(f, i, off, bs) == f.(slots := SetBody(f, i, off, bs).slots)
    ensures |SetBody(f, i, off, bs).slots| == |f.slots|
  {}

  /** Only slots change. */
  ghost predicate SlotsOnly(f: File, g: File) {
    g == f.(slots := g.slots, commits := g.commits, odd := g.odd) && |g.slots| == |f.slots|
  }

  lemma StageTouches(f: File, gen: u32, i: nat, q: u32, st: Stage)
    requires PcFits(f, Filling(i, q, st)) && !st.PutLatest?
    ensures SlotsOnly(f, FillFile(f, gen, i, q, st))
  {
    hide SetBody;
    match st
    case Copying(data, k) => if k < |data| { BodyTouches(f, i, META + k, [data[k]]); }
    case PutGen(_) => BodyTouches(f, i, 0, LittleEndian(gen, 4));
    case PutLen(pay) => BodyTouches(f, i, 12, LittleEndian(|pay|, 4));
    case _ =>
  }

  lemma StampTouches(f: File, i: nat, t: u64)
    requires i < |f.slots| && 12 <= |f.slots[i].body|
    ensures SlotsOnly(f.(clock := t), Stamped(f, i, t))
  {
    hide SetBody;
    BodyTouches(f, i, 4, LittleEndian(t, 8));
  }

  /** The file changes in its slots only, and reads the clock at most. */
  lemma FillTouches(f: File, w: Writer, t: u64)
    requires WEnabled(f, w, RingAct(w.pc, t)) && w.pc.Filling? && Committing(w.pc.st) && !w.pc.st.PutLatest?
    ensures SlotsOnly(if w.pc.st.PutTs? then f.(clock := t) else f, WFile(f, w, RingAct(w.pc, t)))
  {
    hide FillFile, Stamped, SlotsOnly;
    if w.pc.st.PutTs? { StampTouches(f, w.pc.i, t); } else { StageTouches(f, w.gen, w.pc.i, w.pc.q, w.pc.st); }
  }

  /** A store of the writer, as a step of the system. */
  lemma StoreApplies(s: Sys, p: nat, a: WAct)
    requires p < |s.procs| && s.procs[p].pc.Write? && s.procs[p].pc.fid < |s.files|
    requires WEnabled(s.files[s.procs[p].pc.fid].f, s.procs[p].pc.w, a) && (a.Stamp? ==> s.clock <= a.t)
    ensures var pc := s.procs[p].pc;
            var f := s.files[pc.fid].f;
            Apply(s, Publish(p, a))
            == s.(files := s.files[pc.fid := s.files[pc.fid].(f := WFile(f, pc.w, a))],
                  procs := s.procs[p := s.procs[p].(pc := pc.(w := WHandle(f, pc.w, a)))],
                  readers := if Wakes(pc.w, a) then WakeReaders(s.readers, pc.fid) else s.readers,
                  clock := if a.Stamp? then a.t else s.clock,
                  pubs := if Publishes(pc.w, a) then s.pubs + [Pub(pc.fid, |f.log|)] else s.pubs)
  {
    hide WFile, WHandle, WEnabled, WakeReaders;
  }

  lemma StoresOne(s: Sys, p: nat, t: u64, k: nat)
    requires p < |s.procs| && k > 0
    ensures StoresAlone(s, p, t, k) == StoresAlone(Apply(s, Publish(p, NextAct(s.procs[p].pc, t))), p, t, k - 1)
  {}

  /** The wake-up, and the handle returns. */
  lemma {:induction false} WakeStage(s: Sys, p: nat, t: u64)
    requires SysInv(s) && p < |s.procs| && s.procs[p].pc.Write? && s.procs[p].pc.w.pc.WakeAll?
    ensures s.procs[p].pc.fid < |s.files| && Wrote(s, StoresAlone(s, p, t, 1), p, t)
  {
    hide SysInv, StoresAlone, Apply, WakeReaders;
    WriterFacts(s, p);
    StoreApplies(s, p, Store);
    StoresOne(s, p, t, 1);
    StoresNone(Apply(s, Publish(p, Store)), p, t);
    WakeFile(s.files[s.procs[p].pc.fid].f, s.procs[p].pc.w, t);
  }

  lemma StoresNone(s: Sys, p: nat, t: u64)
    ensures StoresAlone(s, p, t, 0) == s
  {}

  lemma WakeFile(f: File, w: Writer, t: u64)
    requires AgentInv(f, Writing(w)) && w.pc.WakeAll?
    ensures WEnabled(f, w, Store) && WHandle(f, w, Store).pc.Idle? && WHandle(f, w, Store).gen == NextGen(w.gen)
    ensures FileAfter(f, WFile(f, w, Store), w, t) && f.notifyOn
  {}

  /** The increment of the futex word, then the wake-up. */
  lemma {:induction false} NotifyStage(s: Sys, p: nat, t: u64)
    requires SysInv(s) && p < |s.procs| && s.procs[p].pc.Write? && s.procs[p].pc.w.pc.AddNotify?
    ensures s.procs[p].pc.fid < |s.files| && Wrote(s, StoresAlone(s, p, t, 2), p, t)
  {
    hide SysInv, StoresAlone, Apply, WakeReaders;
    WriterFacts(s, p);
    var f, w := s.files[s.procs[p].pc.fid].f, s.procs[p].pc.w;
    NotifyFile(f, w);
    StoreApplies(s, p, Store);
    StoresOne(s, p, t, 2);
    StepSafe(s, Publish(p, Store));
    var s1 := Apply(s, Publish(p, Store));
    WakeStage(s1, p, t);
    Composes(s, s1, StoresAlone(s1, p, t, 1), p, t);
  }

  lemma NotifyFile(f: File, w: Writer)
    requires AgentInv(f, Writing(w)) && w.pc.AddNotify?
    ensures WEnabled(f, w, Store) && WHandle(f, w, Store) == w.(pc := WakeAll) && WFile(f, w, Store) == Notified(f) && f.notifyOn
  {}

  /** One action that wakes nobody, and what the rest leaves, together. */
  lemma Composes(s: Sys, s1: Sys, u: Sys, p: nat, t: u64)
    requires p < |s.procs| && s.procs[p].pc.Write? && s.procs[p].pc.fid < |s.files|
    requires |s1.files| == |s.files| && |s1.procs| == |s.procs| && s1.procs[p].pc.Write?
    requires var pc := s.procs[p].pc;
             s1 == s.(files := s.files[pc.fid := s.files[pc.fid].(f := s1.files[pc.fid].f)],
                      procs := s.procs[p := s.procs[p].(pc := pc.(w := s1.procs[p].pc.w))], clock := s1.clock, pubs := s1.pubs)
    requires Wrote(s1, u, p, t)
    requires var fid, w, w1 := s.procs[p].pc.fid, s.procs[p].pc.w, s1.procs[p].pc.w;
             && !w.pc.Idle? && w1.gen == (if w1.pc.Idle? then NextGen(w.gen) else w.gen)
             && (s.files[fid].f.notifyOn <==> s1.files[fid].f.notifyOn && !w1.pc.Idle?)
             && u.clock == (if w.pc.Filling? && !w.pc.st.PutSeq? && !w.pc.st.PutLatest? then t else s.clock)
             && u.pubs == (if w.pc.Filling? then s.pubs + [Pub(fid, |s.files[fid].f.log|)] else s.pubs)
             && FileAfter(s.files[fid].f, u.files[fid].f, w, t)
    ensures Wrote(s, u, p, t)
  {
    hide WakeReaders, FileAfter;
    var pc := s.procs[p].pc;
    assert s1.files[pc.fid := s1.files[pc.fid].(f := u.files[pc.fid].f)] == s.files[pc.fid := s.files[pc.fid].(f := u.files[pc.fid].f)];
    assert s1.procs[p := s1.procs[p].(pc := s1.procs[p].pc.(w := u.procs[p].pc.w))] == s.procs[p := s.procs[p].(pc := pc.(w := u.procs[p].pc.w))];
  }

  /** A writer with nothing to do. */
  lemma IdleWrote(s: Sys, p: nat, t: u64)
    requires p < |s.procs| && s.procs[p].pc.Write? && s.procs[p].pc.fid < |s.files| && s.procs[p].pc.w.pc.Idle?
    ensures Wrote(s, s, p, t)
  {
    var pc := s.procs[p].pc;
    assert s.files[pc.fid := s.files[pc.fid].(f := s.files[pc.fid].f)] == s.files;
    assert s.procs[p := s.procs[p].(pc := pc.(w := pc.w))] == s.procs;
  }

  lemma LatestFile(f: File, w: Writer)
    requires AgentInv(f, Writing(w)) && w.pc.Filling? && w.pc.st.PutLatest?
    ensures WEnabled(f, w, Store)
    ensures var g := WFile(f, w, Store);
            && g.log == f.log + [Record(w.gen, w.pc.st.ts, w.pc.st.pay)] && g.notify == f.notify && SameShape(f, g)
            && g.retired == f.retired && g.clock == f.clock
    ensures var w' := WHandle(f, w, Store);
            if f.notifyOn then w'.pc.AddNotify? && w'.gen == w.gen else w'.pc.Idle? && w'.gen == NextGen(w.gen)
  {}

  /** The store of `latest`, and the handle goes on to the notification or returns. */
  ghost predicate Latest1(s: Sys, s1: Sys, p: nat)
    requires p < |s.procs| && s.procs[p].pc.Write? && s.procs[p].pc.fid < |s.files|
    requires s.procs[p].pc.w.pc.Filling? && s.procs[p].pc.w.pc.st.PutLatest?
  {
    var pc := s.procs[p].pc;
    var f := s.files[pc.fid].f;
    && |s1.files| == |s.files| && |s1.procs| == |s.procs| && s1.procs[p].pc.Write?
    && var g, w1 := s1.files[pc.fid].f, s1.procs[p].pc.w;
       && s1 == s.(files := s.files[pc.fid := s.files[pc.fid].(f := g)], procs := s.procs[p := s.procs[p].(pc := pc.(w := w1))],
                   pubs := s.pubs + [Pub(pc.fid, |f.log|)])
       && g.log == f.log + [Record(pc.w.gen, pc.w.pc.st.ts, pc.w.pc.st.pay)] && g.notify == f.notify && SameShape(f, g)
       && g.retired == f.retired && g.clock == f.clock
       && if f.notifyOn then w1.pc.AddNotify? && w1.gen == pc.w.gen else w1.pc.Idle? && w1.gen == NextGen(pc.w.gen)
  }

  lemma LatestStep(s: Sys, p: nat)
    requires SysInv(s) && p < |s.procs| && s.procs[p].pc.Write? && s.procs[p].pc.w.pc.Filling? && s.procs[p].pc.w.pc.st.PutLatest?
    ensures s.procs[p].pc.fid < |s.files| && Latest1(s, Apply(s, Publish(p, Store)), p)
  {
    hide SysInv, Apply, WakeReaders, WFile, WHandle, WEnabled, AgentInv;
    WriterFacts(s, p);
    LatestFile(s.files[s.procs[p].pc.fid].f, s.procs[p].pc.w);
    StoreApplies(s, p, Store);
  }

  lemma LatestJoins(s: Sys, s1: Sys, u: Sys, p: nat, t: u64)
    requires p < |s.procs| && s.procs[p].pc.Write? && s.procs[p].pc.fid < |s.files|
    requires s.procs[p].pc.w.pc.Filling? && s.procs[p].pc.w.pc.st.PutLatest?
    requires Latest1(s, s1, p) && Wrote(s1, u, p, t)
    ensures Wrote(s, u, p, t)
  {
    hide WakeReaders;
    Composes(s, s1, u, p, t);
  }

  lemma {:induction false} LatestStage(s: Sys, p: nat, t: u64)
    requires SysInv(s) && p < |s.procs| && s.procs[p].pc.Write? && s.procs[p].pc.w.pc.Filling? && s.procs[p].pc.w.pc.st.PutLatest?
    ensures s.procs[p].pc.fid < |s.files|
    ensures Wrote(s, StoresAlone(s, p, t, Left(s.procs[p].pc.w.pc, s.files[s.procs[p].pc.fid].f.notifyOn)), p, t)
  {
    hide SysInv, StoresAlone, Apply, WakeReaders, Wrote;
    LatestStep(s, p);
    var f, w := s.files[s.procs[p].pc.fid].f, s.procs[p].pc.w;
    StoresOne(s, p, t, Left(w.pc, f.notifyOn));
    StepSafe(s, Publish(p, Store));
    var s1 := Apply(s, Publish(p, Store));
    if f.notifyOn {
      NotifyStage(s1, p, t);
      LatestJoins(s, s1, StoresAlone(s1, p, t, 2), p, t);
    } else {
      StoresNone(s1, p, t);
      IdleWrote(s1, p, t);
      LatestJoins(s, s1, s1, p, t);
    }
  }

  /** One action before the store of `latest`: the writer is a stage further with the same value in hand. */
  ghost predicate Filled1(s: Sys, s1: Sys, p: nat, t: u64)
    requires p < |s.procs| && s.procs[p].pc.Write? && s.procs[p].pc.fid < |s.files| && s.procs[p].pc.w.pc.Filling?
  {
    var pc := s.procs[p].pc;
    var f := s.files[pc.fid].f;
    && |s1.files| == |s.files| && |s1.procs| == |s.procs| && s1.procs[p].pc.Write?
    && var g, w1 := s1.files[pc.fid].f, s1.procs[p].pc.w;
       && s1 == s.(files := s.files[pc.fid := s.files[pc.fid].(f := g)], procs := s.procs[p := s.procs[p].(pc := pc.(w := w1))],
                   clock := if pc.w.pc.st.PutTs? then t else s.clock)
       && SlotsOnly(if pc.w.pc.st.PutTs? then f.(clock := t) else f, g)
       && w1.gen == pc.w.gen && w1.pc.Filling? && Committing(w1.pc.st) && StagesLeft(w1.pc.st) + 1 == StagesLeft(pc.w.pc.st)
       && Payload(w1.pc.st) == Payload(pc.w.pc.st) && StampOf(w1.pc.st, t) == StampOf(pc.w.pc.st, t)
       && ((w1.pc.st.PutSeq? || w1.pc.st.PutLatest?) <==> (pc.w.pc.st.PutTs? || pc.w.pc.st.PutSeq?))
  }

  lemma FillStep(s: Sys, p: nat, t: u64)
    requires SysInv(s) && p < |s.procs| && s.procs[p].pc.Write? && s.procs[p].pc.w.pc.Filling? && Committing(s.procs[p].pc.w.pc.st)
    requires s.clock <= t && s.procs[p].pc.fid < |s.files| && s.files[s.procs[p].pc.fid].f.clock <= t && !s.procs[p].pc.w.pc.st.PutLatest?
    ensures Filled1(s, Apply(s, Publish(p, NextAct(s.procs[p].pc, t))), p, t)
  {
    hide SysInv, Apply, WakeReaders, WFile, WHandle, WEnabled, AgentInv, Payload, StampOf, Committing, StagesLeft, SlotsOnly;
    WriterFacts(s, p);
    var f, w := s.files[s.procs[p].pc.fid].f, s.procs[p].pc.w;
    ActFits(f, w, RingAct(w.pc, t), t);
    FillMoves(f, w, t);
    FillTouches(f, w, t);
    StoreApplies(s, p, RingAct(w.pc, t));
  }

  lemma FillJoins(s: Sys, s1: Sys, u: Sys, p: nat, t: u64)
    requires p < |s.procs| && s.procs[p].pc.Write? && s.procs[p].pc.fid < |s.files| && s.procs[p].pc.w.pc.Filling?
    requires Filled1(s, s1, p, t) && !s.procs[p].pc.w.pc.st.PutLatest? && Wrote(s1, u, p, t)
    ensures Wrote(s, u, p, t)
  {
    hide WakeReaders, Payload, StampOf, Committing, StagesLeft;
    Composes(s, s1, u, p, t);
  }

  /** From any point of a publish or a commit to its end. */
  lemma {:induction false} FillStage(s: Sys, p: nat, t: u64)
    requires SysInv(s) && p < |s.procs| && s.procs[p].pc.Write? && s.procs[p].pc.w.pc.Filling? && Committing(s.procs[p].pc.w.pc.st)
    requires s.clock <= t && s.procs[p].pc.fid < |s.files| && s.files[s.procs[p].pc.fid].f.clock <= t
    ensures Wrote(s, StoresAlone(s, p, t, Left(s.procs[p].pc.w.pc, s.files[s.procs[p].pc.fid].f.notifyOn)), p, t)
    decreases StagesLeft(s.procs[p].pc.w.pc.st)
  {
    hide SysInv, StoresAlone, Apply, WakeReaders, Wrote, Payload, StampOf, Committing, StagesLeft;
    if s.procs[p].pc.w.pc.st.PutLatest? {
      LatestStage(s, p, t);
    } else {
      var a := NextAct(s.procs[p].pc, t);
      var s1 := Apply(s, Publish(p, a));
      FillStep(s, p, t);
      StoresOne(s, p, t, Left(s.procs[p].pc.w.pc, s.files[s.procs[p].pc.fid].f.notifyOn));
      StepSafe(s, Publish(p, a));
      FillStage(s1, p, t);
      FillJoins(s, s1, StoresAlone(s1, p, t, Left(s1.procs[p].pc.w.pc, s.files[s.procs[p].pc.fid].f.notifyOn)), p, t);
    }
  }

  /**
   * A publish that nobody disturbs: its value becomes the file's and the channel's last one, with the
   * handle's generation and the time of its commit; the futex word is incremented and every sleeper
   * of the file woken exactly if the channel notifies; and nothing else changes.
   */
  lemma PublishAlone(s: Sys, p: nat, data: seq<byte>, t: u64)
    requires SysInv(s) && p < |s.procs| && s.procs[p].pc.Write? && s.procs[p].pc.w.pc.Idle?
    requires s.procs[p].pc.fid < |s.files| && s.clock <= t && s.files[s.procs[p].pc.fid].f.clock <= t
    requires |data| <= s.files[s.procs[p].pc.fid].f.cap
    ensures var pc := s.procs[p].pc;
            var f := s.files[pc.fid].f;
            var u := StoresAlone(Apply(s, Publish(p, Begin(FromCaller(data)))), p, t, |data| + 7 + if f.notifyOn then 2 else 0);
            && |u.files| == |s.files| && |u.procs| == |s.procs| && u.procs[p].pc.Write?
            && u == s.(files := s.files[pc.fid := s.files[pc.fid].(f := u.files[pc.fid].f)],
                       procs := s.procs[p := s.procs[p].(pc := pc.(w := u.procs[p].pc.w))],
                       readers := if f.notifyOn then WakeReaders(s.readers, pc.fid) else s.readers,
                       clock := t, pubs := s.pubs + [Pub(pc.fid, |f.log|)])
            && u.procs[p].pc.w.pc.Idle? && u.procs[p].pc.w.gen == NextGen(pc.w.gen)
            && var g := u.files[pc.fid].f;
               && g.log == f.log + [Record(pc.w.gen, t, data)]
               && g.notify == (if f.notifyOn then (f.notify + 1) % U32 else f.notify)
               && SameShape(f, g) && !g.retired && g.clock == t
               && (f.notifyOn ==> !g.lost && !g.unnotified && !g.unwoken)
  {
    hide SysInv, StoresAlone, Apply, WakeReaders, WFile, WEnabled, AgentInv;
    WriterFacts(s, p);
    var pc := s.procs[p].pc;
    var f, a := s.files[pc.fid].f, Begin(FromCaller(data));
    BeginsFits(f, pc.w, data);
    StoreApplies(s, p, a);
    StepSafe(s, Publish(p, a));
    var s1 := Apply(s, Publish(p, a));
    FillStage(s1, p, t);
    var u := StoresAlone(s1, p, t, |data| + 7 + if f.notifyOn then 2 else 0);
    assert Wrote(s1, u, p, t);
    assert s1.files == s.files;
    assert s1.procs[p := s1.procs[p].(pc := s1.procs[p].pc.(w := u.procs[p].pc.w))] == s.procs[p := s.procs[p].(pc := pc.(w := u.procs[p].pc.w))];
  }

  lemma BeginsFits(f: File, w: Writer, data: seq<byte>)
    requires AgentInv(f, Writing(w)) && w.pc.Idle? && |data| <= f.cap
    ensures WEnabled(f, w, Begin(FromCaller(data))) && WFile(f, w, Begin(FromCaller(data))) == f && !f.retired
    ensures var w' := WHandle(f, w, Begin(FromCaller(data)));
            w'.gen == w.gen && w'.pc.Filling? && w'.pc.st == Begun(FromCaller(data))
  {}

  /** A commit of `len` bytes of an open slot is a publish of what the application stored there. */
  lemma CommitAlone(s: Sys, p: nat, len: nat, t: u64)
    requires SysInv(s) && p < |s.procs| && s.procs[p].pc.Write? && s.procs[p].pc.w.pc.Filling? && s.procs[p].pc.w.pc.st.Open?
    requires s.procs[p].pc.fid < |s.files| && s.clock <= t && s.files[s.procs[p].pc.fid].f.clock <= t
    requires len <= s.files[s.procs[p].pc.fid].f.cap
    ensures var pc := s.procs[p].pc;
            var f := s.files[pc.fid].f;
            && pc.w.pc.i < |f.slots| && |f.slots[pc.w.pc.i].body| == META + f.cap
            && var data := f.slots[pc.w.pc.i].body[META..META + len];
               var s1 := Apply(s, Publish(p, Commit(len)));
               var u := StoresAlone(s1, p, t, 5 + if f.notifyOn then 2 else 0);
               && |s1.procs| == |s.procs| && s1.files == s.files && s1 == s.(procs := s.procs[p := s1.procs[p]])
               && s1.procs[p].pc.Write? && s1.procs[p].pc.fid == pc.fid && s1.procs[p].pc.w == pc.w.(pc := pc.w.pc.(st := PutGen(data)))
               && Wrote(s1, u, p, t)
  {
    hide SysInv, StoresAlone, Apply, WakeReaders, WEnabled, AgentInv, Wrote;
    WriterFacts(s, p);
    var pc := s.procs[p].pc;
    var f, a := s.files[pc.fid].f, Commit(len);
    CommitFits(f, pc.w, len);
    StoreApplies(s, p, a);
    StepSafe(s, Publish(p, a));
    var s1 := Apply(s, Publish(p, a));
    assert s1.files == s.files;
    FillStage(s1, p, t);
  }

  lemma CommitFits(f: File, w: Writer, len: nat)
    requires AgentInv(f, Writing(w)) && w.pc.Filling? && w.pc.st.Open? && len <= f.cap
    ensures WEnabled(f, w, Commit(len)) && w.pc.i < |f.slots| && |f.slots[w.pc.i].body| == META + f.cap
  {}
}
