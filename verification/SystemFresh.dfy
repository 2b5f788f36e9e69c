// A call against the state its reader was last at rest in: everything it goes by is at least as new,
// and its counters wrapped only if the file's did since then.
module SystemFresh {
  import opened Bytes
  import opened Layout
  import opened Ring
  import opened RingInvariant
  import opened RingReader
  import opened RingReading
  import opened System
  import opened SystemInvariant
  import opened SystemSafety
  import opened SystemChannel

  // ---- what only ever grows ------------------------------------------------------------------------------

  ghost predicate CountsGrew(f: File, g: File) {
    |g.commits| == |f.commits| && (forall i :: 0 <= i < |f.commits| ==> f.commits[i] <= g.commits[i]) && f.incs <= g.incs
  }

  ghost predicate FileGrew(f: File, g: File) {
    CountsGrew(f, g) && (f.retired ==> g.retired) && f.log <= g.log
  }

  ghost predicate FilesGrew(fs: seq<Obj>, ft: seq<Obj>) {
    |fs| <= |ft| && forall fid :: 0 <= fid < |fs| ==> FileGrew(fs[fid].f, ft[fid].f)
  }

  /** The channel only gains: files, publishes, commits, retired files and orphans. */
  ghost predicate Grew(s: Sys, t: Sys) {
    FilesGrew(s.files, t.files) && s.pubs <= t.pubs && s.orphans <= t.orphans
  }

  lemma GrewAgain(s: Sys, t: Sys, u: Sys)
    requires Grew(s, t) && Grew(t, u)
    ensures Grew(s, u)
  {}

  lemma WriterGrew(f: File, w: Writer, a: WAct)
    requires WEnabled(f, w, a)
    ensures FileGrew(f, WFile(f, w, a))
  {
    LogAfter(f, w, a);
    RetiredAfter(f, w, a);
    CountsAfter(f, w, a);
    hide WFile, WEnabled;
  }

  lemma BodyCounts(f: File, i: nat, off: nat, bs: seq<byte>)
    requires i < |f.slots| && off + |bs| <= |f.slots[i].body|
    ensures CountsGrew(f, SetBody(f, i, off, bs))
  {}

  lemma FillCounts(f: File, gen: u32, i: nat, q: u32, st: Stage)
    requires PcFits(f, Filling(i, q, st))
    ensures CountsGrew(f, FillFile(f, gen, i, q, st))
  {
    hide SetBody;
    match st
    case Copying(data, k) => if k < |data| { BodyCounts(f, i, META + k, [data[k]]); }
    case PutGen(_) => BodyCounts(f, i, 0, LittleEndian(gen, 4));
    case PutLen(pay) => BodyCounts(f, i, 12, LittleEndian(|pay|, 4));
    case _ =>
  }

  lemma CountsAfter(f: File, w: Writer, a: WAct)
    requires WEnabled(f, w, a)
    ensures CountsGrew(f, WFile(f, w, a))
  {
    hide SetBody, FillFile;
    match a
    case AppStore(k, b) => BodyCounts(f, w.pc.i, META + k, [b]);
    case Stamp(t) => BodyCounts(f, w.pc.i, 4, LittleEndian(t, 8));
    case Store => if w.pc.Filling? { FillCounts(f, w.gen, w.pc.i, w.pc.q, w.pc.st); }
    case _ =>
  }

  lemma RetireGrew(f: File, st: RetireStage)
    ensures FileGrew(f, RetireFile(f, st))
  {}

  lemma FillGrew(ob: Obj, o: Opts, k: nat)
    requires OptsValid(o)
    ensures FileGrew(ob.f, FillTmp(ob, o, k).f)
  {
    hide StoreField;
  }

  lemma OneGrew(fs: seq<Obj>, ft: seq<Obj>, fid: nat)
    requires fid < |fs| == |ft| && ft == fs[fid := ft[fid]] && FileGrew(fs[fid].f, ft[fid].f)
    ensures FilesGrew(fs, ft)
  {
    hide FileGrew;
    forall i | 0 <= i < |fs|
      ensures FileGrew(fs[i].f, ft[i].f)
    {
      SameGrew(fs[i].f);
    }
  }

  lemma SameGrew(f: File)
    ensures FileGrew(f, f)
  {}

  lemma MoreGrew(fs: seq<Obj>, more: seq<Obj>)
    ensures FilesGrew(fs, fs + more)
  {}

  lemma OpenGrew(s: Sys, p: nat, o: Opts, random: u32)
    requires p < |s.procs| && OptsValid(o) && random != 0
    ensures FilesGrew(s.files, OpenStep(s, p, o, random).files)
  {
    hide FillTmp, RetireFile, Decide, Blank, FilesGrew, FileGrew;
    MoreGrew(s.files, []);
    MoreGrew(s.files, [Blank(o)]);
    assert s.files + [] == s.files;
    var t := OpenStep(s, p, o, random);
    match s.procs[p].pc
    case TmpFill(_, _, _, tmp, k) =>
      if tmp < |s.files| {
        FillGrew(s.files[tmp], o, k);
        SameGrew(s.files[tmp].f);
        OneGrew(s.files, t.files, tmp);
      }
    case NewRetire(_, prev, _, _, st) =>
      if prev < |s.files| {
        RetireGrew(s.files[prev].f, st);
        OneGrew(s.files, t.files, prev);
      }
    case DataDecide(_, fid, latest) => if fid < |s.files| { DecideKeepsFiles(s, p, o, random); }
    case _ =>
  }

  lemma DecideKeepsFiles(s: Sys, p: nat, o: Opts, random: u32)
    requires p < |s.procs| && s.procs[p].pc.DataDecide? && s.procs[p].pc.fid < |s.files|
    ensures var pc := s.procs[p].pc;
            Decide(s, p, o, pc.ino, pc.fid, pc.latest, random).files == s.files
  {
    hide Compatible, CarriedGen, HeaderValid, LatestValid;
  }

  lemma UnlinkGrew(s: Sys, p: nat)
    requires p < |s.procs|
    ensures FilesGrew(s.files, UnlinkStep(s, p).files)
  {
    hide RetireFile, FilesGrew, FileGrew;
    MoreGrew(s.files, []);
    assert s.files + [] == s.files;
    var t, pc := UnlinkStep(s, p), s.procs[p].pc;
    if pc.UnlinkRetire? && pc.fid < |s.files| {
      RetireGrew(s.files[pc.fid].f, pc.st);
      OneGrew(s.files, t.files, pc.fid);
    }
  }

  lemma CrashGrew(s: Sys, p: nat)
    requires p < |s.procs|
    ensures Grew(s, Crashed(s, p))
  {
    hide Crashed, AgentOf, FilesGrew, FileGrew, Dropped;
    CrashParts(s, p);
    MoreGrew(s.files, []);
    assert s.files + [] == s.files;
    var t, pc := Crashed(s, p), s.procs[p].pc;
    if t.files != s.files {
      LostGrew(s.files[pc.fid].f, AgentOf(pc, pc.fid));
      OneGrew(s.files, t.files, pc.fid);
    }
  }

  lemma LostGrew(f: File, a: Agent)
    ensures FileGrew(f, CrashFile(f, a))
  {}

  lemma PublishGrew(s: Sys, p: nat, a: WAct)
    requires p < |s.procs|
    ensures Grew(s, PublishStep(s, p, a))
  {
    hide WFile, WHandle, WEnabled, FilesGrew, FileGrew, WakeReaders;
    MoreGrew(s.files, []);
    assert s.files + [] == s.files;
    var t, pc := PublishStep(s, p, a), s.procs[p].pc;
    if t != s {
      WriterGrew(s.files[pc.fid].f, pc.w, a);
      OneGrew(s.files, t.files, pc.fid);
    }
  }

  /** What a step does to the publishes and the orphans. */
  lemma StepHistory(s: Sys, a: Act)
    requires !a.Publish? && !a.Crash? && !a.MapFail?
    ensures Apply(s, a).pubs == s.pubs && Apply(s, a).orphans == s.orphans
  {
    hide Compatible, CarriedGen, HeaderValid, LatestValid, FillTmp, RetireFile, WakeReaders, RNext, RReady;
  }

  lemma StepGrew(s: Sys, a: Act)
    ensures Grew(s, Apply(s, a))
  {
    hide LockStep, OpenStep, UnlinkStep, UnlinkUnmapped, PublishStep, Crashed, LoadStep, DeadlineStep, SliceStep, FilesGrew;
    MoreGrew(s.files, []);
    assert s.files + [] == s.files;
    if a.Publish? {
      if a.p < |s.procs| { PublishGrew(s, a.p, a.a); }
    } else if a.Crash? {
      if a.p < |s.procs| { CrashGrew(s, a.p); }
    } else if a.MapFail? {
      if a.p < |s.procs| && s.procs[a.p].pc.UnlinkData? { UnmappedGrew(s, a.p); }
    } else {
      StepHistory(s, a);
      if a.Advance? {
        if a.p < |s.procs| && a.random != 0 { AdvanceGrew(s, a.p, a.random); }
      } else {
        FilesStay(s, a);
      }
    }
  }

  lemma UnmappedGrew(s: Sys, p: nat)
    requires p < |s.procs| && s.procs[p].pc.UnlinkData?
    ensures Grew(s, UnlinkUnmapped(s, p))
  {}

  lemma AdvanceGrew(s: Sys, p: nat, random: u32)
    requires p < |s.procs| && random != 0
    ensures FilesGrew(s.files, Apply(s, Advance(p, random)).files)
  {
    hide OpenStep, UnlinkStep, LockStep, FilesGrew;
    MoreGrew(s.files, []);
    assert s.files + [] == s.files;
    if Section(s.procs[p].pc).None? { LockShape(s, p); }
    else if s.procs[p].goal.OpenWriter? {
      if OptsValid(s.procs[p].goal.o) { OpenGrew(s, p, s.procs[p].goal.o, random); }
    } else { UnlinkGrew(s, p); }
  }

  lemma FilesStay(s: Sys, a: Act)
    requires !a.Publish? && !a.Crash? && !a.MapFail? && !a.Advance?
    ensures Apply(s, a).files == s.files
  {
    hide LoadStep;
    if a.Load? && a.j < |s.readers| { LoadsOnly(s, a.j); }
  }

  // ---- what a call goes by -----------------------------------------------------------------------------------

  /** A call that began in `s` or later found at least this. */
  ghost predicate Newer(s: Sys, at: Entry) {
    && Retired(s) <= at.gone && |s.pubs| <= at.pubs && |s.files| <= |at.marks|
    && forall fid :: 0 <= fid < |s.files| ==> MarkGrew(s.files[fid].f, at.marks[fid])
  }

  ghost predicate MarkGrew(f: File, m: Mark) {
    && |m.commits| == |f.commits| && (forall i :: 0 <= i < |f.commits| ==> f.commits[i] <= m.commits[i])
    && f.incs <= m.incs && |f.log| <= m.pubs
  }

  lemma EntryNewer(s: Sys, t: Sys)
    requires Grew(s, t)
    ensures Newer(s, EntryOf(t))
  {
    forall fid | fid in Retired(s)
      ensures fid in Retired(t)
    {
      assert FileGrew(s.files[fid].f, t.files[fid].f);
    }
    forall fid | 0 <= fid < |s.files|
      ensures MarkGrew(s.files[fid].f, EntryOf(t).marks[fid])
    {
      assert FileGrew(s.files[fid].f, t.files[fid].f);
    }
  }

  /** Since its reader was at rest with `n` results: its call and its further results are newer than `s`. */
  ghost predicate FreshInv(s: Sys, n: nat, rp: RProc) {
    && n <= |rp.results| && (rp.pc.InRing? ==> !rp.only)
    && (!rp.pc.Resting? && !rp.only ==> Newer(s, rp.at))
    && (forall k :: n <= k < |rp.results| ==> Newer(s, rp.results[k].at))
  }

  /** What a step does to a reader that is not the one stepping. */
  ghost predicate Stirred(rp: RProc, rp': RProc) {
    rp' == rp || rp' == rp.(r := Woken(rp.r))
  }

  /** A step of a reader. */
  predicate ByReader(a: Act) {
    a.Call? || a.Describe? || a.WriterAlive? || a.Load? || a.Deadline? || a.Slice?
  }

  lemma ReaderStirs(s: Sys, a: Act, j: nat)
    requires j < |s.readers| && ByReader(a) && a.j != j
    ensures |Apply(s, a).readers| == |s.readers| && Apply(s, a).readers[j] == s.readers[j]
  {
    hide HeaderValid, RNext, RReady, EntryOf, Enter;
  }

  lemma ProcessStirs(s: Sys, a: Act, j: nat)
    requires j < |s.readers| && !ByReader(a)
    ensures |Apply(s, a).readers| == |s.readers| && Stirred(s.readers[j], Apply(s, a).readers[j])
  {
    hide Compatible, CarriedGen, HeaderValid, LatestValid, FillTmp, RetireFile, WFile, WHandle, WEnabled, Woken, Blank, CrashFile, LoadStep;
  }

  lemma OthersStir(s: Sys, a: Act, j: nat)
    requires j < |s.readers| && (ByReader(a) ==> a.j != j)
    ensures |Apply(s, a).readers| == |s.readers| && Stirred(s.readers[j], Apply(s, a).readers[j])
  {
    hide Apply;
    if ByReader(a) { ReaderStirs(s, a, j); } else { ProcessStirs(s, a, j); }
  }

  // ---- wrapped counters --------------------------------------------------------------------------------------

  /** The commits of a slot, the increments of the futex word and the publishes of a file when the call began. */
  function Since(at: Entry, fid: nat, i: nat): nat {
    if fid < |at.marks| && i < |at.marks[fid].commits| then at.marks[fid].commits[i] else 0
  }

  function IncsSince(at: Entry, fid: nat): nat {
    if fid < |at.marks| then at.marks[fid].incs else 0
  }

  function PubsSince(at: Entry, fid: nat): nat {
    if fid < |at.marks| then at.marks[fid].pubs else 0
  }

  /** A slot was committed 2^27 times since the call began. */
  ghost predicate Wrapped(f: File, at: Entry, fid: nat) {
    exists i :: 0 <= i < |f.commits| && f.commits[i] >= Since(at, fid, i) + TAGS
  }

  ghost predicate Marked(f: File, at: Entry, fid: nat) {
    && (forall i :: 0 <= i < |f.commits| ==> Since(at, fid, i) <= f.commits[i])
    && IncsSince(at, fid) <= f.incs && PubsSince(at, fid) <= |f.log|
  }

  /** A waiter between its load of `notify` and its sleep. */
  predicate Armed(r: Reader) {
    r.op.Wait? && (r.pc.CheckRetired? || r.pc.LoadLatest? || r.pc.LoadSeq? || r.pc.Copy? || r.pc.Futex?)
  }

  ghost predicate Counted(f: File, at: Entry, fid: nat, r: Reader) {
    && PubsSince(at, fid) <= r.first
    && (r.pc.LoadSeq? || r.pc.Copy? ==> r.i < |f.commits| && Since(at, fid, r.i) <= r.c0)
    && (r.pc.Futex? ==> r.op.Wait?) && (Armed(r) ==> IncsSince(at, fid) <= r.nInc)
    && (!r.ok ==> Wrapped(f, at, fid) || ((r.pc.Asleep? || r.pc.Restart?) && f.incs >= IncsSince(at, fid) + U32))
  }

  /** `ok` is lost only to a counter that wrapped during the call. */
  ghost predicate WrapInv(fs: seq<Obj>, rp: RProc) {
    && |rp.at.marks| <= |fs| && (forall fid: nat :: fid < |fs| ==> Marked(fs[fid].f, rp.at, fid))
    && (rp.pc.InRing? && rp.att.Some? && rp.att.value < |fs| ==> Counted(fs[rp.att.value].f, rp.at, rp.att.value, rp.r))
    && (forall k :: 0 <= k < |rp.results| ==> ResultWrap(fs, rp.results[k]))
  }

  ghost predicate ResultWrap(fs: seq<Obj>, res: Result) {
    res.fid < |fs| && PubsSince(res.at, res.fid) <= res.first && (res.ok || Wrapped(fs[res.fid].f, res.at, res.fid))
  }

  lemma WrappedGrew(f: File, g: File, at: Entry, fid: nat)
    requires FileGrew(f, g) && Wrapped(f, at, fid)
    ensures Wrapped(g, at, fid)
  {
    var i :| 0 <= i < |f.commits| && f.commits[i] >= Since(at, fid, i) + TAGS;
    assert g.commits[i] >= Since(at, fid, i) + TAGS;
  }

  lemma CountedGrew(f: File, g: File, at: Entry, fid: nat, r: Reader, r': Reader)
    requires FileGrew(f, g) && Counted(f, at, fid, r) && (r' == r || r' == Woken(r))
    ensures Counted(g, at, fid, r')
  {
    hide Wrapped;
    if Wrapped(f, at, fid) { WrappedGrew(f, g, at, fid); }
  }

  lemma MarkedGrew(f: File, g: File, at: Entry, fid: nat)
    requires FileGrew(f, g) && Marked(f, at, fid)
    ensures Marked(g, at, fid)
  {}

  lemma NewMarked(g: File, at: Entry, fid: nat)
    requires |at.marks| <= fid
    ensures Marked(g, at, fid)
  {}

  /** The files grow under a reader that is at most woken. */
  lemma WrapGrew(fs: seq<Obj>, ft: seq<Obj>, rp: RProc, rp': RProc)
    requires FilesGrew(fs, ft) && WrapInv(fs, rp) && Stirred(rp, rp')
    requires rp.att.Some? ==> rp.att.value < |fs|
    ensures WrapInv(ft, rp')
  {
    hide FileGrew, Marked, Counted, Wrapped;
    forall fid: nat | fid < |ft|
      ensures Marked(ft[fid].f, rp.at, fid)
    {
      if fid < |fs| { MarkedGrew(fs[fid].f, ft[fid].f, rp.at, fid); } else { NewMarked(ft[fid].f, rp.at, fid); }
    }
    if rp.pc.InRing? && rp.att.Some? {
      var fid := rp.att.value;
      CountedGrew(fs[fid].f, ft[fid].f, rp.at, fid, rp.r, rp'.r);
    }
    forall k | 0 <= k < |rp.results|
      ensures ResultWrap(ft, rp.results[k])
    {
      var res := rp.results[k];
      assert ResultWrap(fs, res);
      if !res.ok { WrappedGrew(fs[res.fid].f, ft[res.fid].f, res.at, res.fid); }
    }
  }

  // ---- the reader's own loads ----------------------------------------------------------------------------------

  lemma LoadCounted(f: File, at: Entry, fid: nat, r: Reader)
    requires RReady(f, r) && Marked(f, at, fid) && Counted(f, at, fid, r)
    ensures Counted(f, at, fid, RNext(f, r))
  {
    hide Wanted, Report, Latest, Since, Wrapped;
    if r.pc.Copy? { if |r.got| >= Wanted(f, r) { CheckCounted(f, at, fid, r); } }
  }

  lemma CheckCounted(f: File, at: Entry, fid: nat, r: Reader)
    requires RReady(f, r) && Counted(f, at, fid, r) && r.pc.Copy? && |r.got| == Wanted(f, r)
    ensures Counted(f, at, fid, Rechecked(f, r))
  {
    hide Wanted, Report, Latest, Since;
    if !(f.commits[r.i] < r.c0 + TAGS) {
      assert f.commits[r.i] >= Since(at, fid, r.i) + TAGS;
      assert Wrapped(f, at, fid);
    }
  }

  lemma EnterCounted(f: File, at: Entry, fid: nat, rp: RProc)
    requires !rp.only && Marked(f, at, fid)
    ensures Counted(f, at, fid, Enter(rp, f).r)
  {}

  lemma BeginMarked(s: Sys, fid: nat)
    requires fid < |s.files|
    ensures Marked(s.files[fid].f, EntryOf(s), fid)
  {}

  /** A load of the reader. */
  lemma LoadWraps(s: Sys, j: nat)
    requires ReadersInv(s) && j < |s.readers| && WrapInv(s.files, s.readers[j])
    ensures |LoadStep(s, j).readers| == |s.readers| && WrapInv(s.files, LoadStep(s, j).readers[j])
  {
    hide Marked, Counted, Wrapped, RNext, RReady, FileInv, RInv, Ordered, HeaderValid, ResultInv;
    var rp := s.readers[j];
    assert ReaderInv(s.files, rp);
    if rp.pc.InRing? {
      var fid := rp.att.value;
      if rp.r.pc.Finished? { ReturnWraps(s, j, fid); }
      else if !rp.r.pc.Restart? && RReady(s.files[fid].f, rp.r) { LoadCounted(s.files[fid].f, rp.at, fid, rp.r); }
    } else if (rp.pc.Sync? || rp.pc.Attached?) && rp.att.Some? && !s.files[rp.att.value].f.retired && !rp.only {
      EnterCounted(s.files[rp.att.value].f, rp.at, rp.att.value, rp);
    }
  }

  lemma ReturnWraps(s: Sys, j: nat, fid: nat)
    requires j < |s.readers| && WrapInv(s.files, s.readers[j]) && fid < |s.files|
    requires s.readers[j].pc.InRing? && s.readers[j].r.pc.Finished? && s.readers[j].att == Some(fid)
    ensures |LoadStep(s, j).readers| == |s.readers| && WrapInv(s.files, LoadStep(s, j).readers[j])
  {
    hide Marked, Wrapped;
  }

  /** Any step the reader takes. */
  lemma OwnWraps(s: Sys, a: Act, j: nat)
    requires ReadersInv(s) && j < |s.readers| && WrapInv(s.files, s.readers[j])
    requires ByReader(a) && a.j == j
    ensures |Apply(s, a).readers| == |s.readers| && WrapInv(s.files, Apply(s, a).readers[j])
  {
    hide LoadStep, ReadersInv, Wrapped;
    match a
    case Load(_) => LoadWraps(s, j);
    case Call(_, _) => CallWraps(s, j, a.op);
    case _ =>
  }

  lemma CallWraps(s: Sys, j: nat, op: Op)
    requires j < |s.readers| && WrapInv(s.files, s.readers[j])
    ensures |Apply(s, Call(j, op)).readers| == |s.readers| && WrapInv(s.files, Apply(s, Call(j, op)).readers[j])
  {
    hide Marked, Wrapped;
    forall fid: nat | fid < |s.files|
      ensures Marked(s.files[fid].f, EntryOf(s), fid)
    {
      BeginMarked(s, fid);
    }
  }

  // ---- every run -----------------------------------------------------------------------------------------------

  ghost predicate WrapsInv(s: Sys) {
    forall j :: 0 <= j < |s.readers| ==> WrapInv(s.files, s.readers[j])
  }

  lemma WrapStep(s: Sys, a: Act)
    requires SysInv(s) && WrapsInv(s)
    ensures WrapsInv(Apply(s, a))
  {
    hide Apply, WrapInv, FilesGrew, ReaderInv, LockInv, OwnerInv;
    StepGrew(s, a);
    var t := Apply(s, a);
    SameReaders(s, a);
    forall j | 0 <= j < |t.readers|
      ensures WrapInv(t.files, t.readers[j])
    {
      assert WrapInv(s.files, s.readers[j]);
      if ByReader(a) && a.j == j {
        OwnWraps(s, a, j);
        FilesStay(s, a);
      } else {
        OthersStir(s, a, j);
        AttachedTo(s, j);
        WrapGrew(s.files, t.files, s.readers[j], t.readers[j]);
      }
    }
  }

  lemma AttachedTo(s: Sys, j: nat)
    requires ReadersInv(s) && j < |s.readers|
    ensures s.readers[j].att.Some? ==> s.readers[j].att.value < |s.files|
  {
    hide FilesSound;
    assert ReaderInv(s.files, s.readers[j]);
  }

  lemma SameReaders(s: Sys, a: Act)
    ensures |Apply(s, a).readers| == |s.readers|
  {
    hide Compatible, CarriedGen, HeaderValid, LatestValid, FillTmp, RetireFile, RNext, RReady, WFile, WHandle, WEnabled;
    hide Blank, CrashFile, EntryOf, Enter, WakeReader;
  }

  lemma {:induction false} WrapRun(s: Sys, acts: seq<Act>)
    requires SysInv(s) && WrapsInv(s)
    ensures WrapsInv(Run(s, acts))
    decreases |acts|
  {
    hide SysInv, WrapsInv, Apply;
    if acts != [] {
      StepSafe(s, acts[0]);
      WrapStep(s, acts[0]);
      WrapRun(Apply(s, acts[0]), acts[1..]);
    }
  }

  lemma AllRunsWrap(np: nat, nr: nat, acts: seq<Act>)
    ensures WrapsInv(Run(Init(np, nr), acts))
  {
    InitSafe(np, nr);
    assert WrapsInv(Init(np, nr));
    hide SysInv, WrapsInv, Init;
    WrapRun(Init(np, nr), acts);
  }

  // ---- since the reader was at rest --------------------------------------------------------------------------------

  lemma OwnFresh(s0: Sys, n: nat, s: Sys, a: Act, j: nat)
    requires Grew(s0, s) && j < |s.readers| && FreshInv(s0, n, s.readers[j])
    requires ByReader(a) && a.j == j
    ensures |Apply(s, a).readers| == |s.readers| && FreshInv(s0, n, Apply(s, a).readers[j])
  {
    EntryNewer(s0, s);
    hide Grew, Newer, RNext, RReady, HeaderValid, EntryOf;
  }

  lemma {:induction false} FreshRun(s0: Sys, n: nat, s: Sys, acts: seq<Act>, j: nat)
    requires Grew(s0, s) && j < |s.readers| && FreshInv(s0, n, s.readers[j])
    ensures var t := Run(s, acts);
            Grew(s0, t) && |t.readers| == |s.readers| && FreshInv(s0, n, t.readers[j])
    decreases |acts|
  {
    hide Grew, Newer, Apply;
    if acts != [] {
      var a := acts[0];
      StepGrew(s, a);
      GrewAgain(s0, s, Apply(s, a));
      if ByReader(a) && a.j == j {
        OwnFresh(s0, n, s, a, j);
      } else {
        OthersStir(s, a, j);
      }
      FreshRun(s0, n, Apply(s, a), acts[1..], j);
    }
  }
}
