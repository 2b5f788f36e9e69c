// The whole channel: any number of processes opening, writing, closing, recreating and
// unlinking it, any number of readers, and the paths, locks and files between them.
module System {
  import opened Api
  import opened Bytes
  import opened Layout
  import opened Ring
  import opened RingWriter
  import opened RingReader

  // ---- state ---------------------------------------------------------------------------------

  /** A writer's options after load_options, and the minor format version of its library. */
  datatype Opts = Opts(cap: u32, slotCount: u32, payloadType: u32, notifyOn: bool, recreate: bool, minor: nat)

  predicate OptsValid(o: Opts) {
    o.cap <= MAX_CAPACITY && MIN_SLOTS <= o.slotCount <= MAX_SLOTS
  }

  datatype Goal = OpenWriter(o: Opts) | UnlinkChannel

  /** Where a process is. `ino` is the lock file it has open, `fid` a data file. */
  datatype PPc =
    | Out
    | LockCreate                                     // lock_channel: open(O_CREAT | O_EXCL)
    | LockReopen(seen: nat)                          // it exists: open it
    | LockTry(ino: nat)                              // F_OFD_SETLK
    | LockRefused(ino: nat, current: bool, holder: nat)  // held by `holder`: does the path still name it?
    | LockVerify(ino: nat)                           // taken: does the path still name it?
    | DataOpen(ino: nat)                             // open_data: open(p.data)
    | DataLatest(ino: nat, fid: nat)                 // load latest
    | DataDecide(ino: nat, fid: nat, latest: u32)    // read the generation and RETIRED, then reuse, create or refuse
    | TmpMake(ino: nat, prev: Option<nat>, gen: u32)            // create_file: mkostemp, posix_fallocate
    | TmpFill(ino: nat, prev: Option<nat>, gen: u32, tmp: nat, k: nat)  // header stores, then rename
    | NewRetire(ino: nat, fid: nat, gen: u32, tmp: nat, st: RetireStage)
    | Write(ino: nat, fid: nat, w: Writer, from: Option<nat>)  // an open handle; `from` is the file it replaced
    | UnlinkOpen(ino: nat)                           // psmsgr_state_unlink, lock held
    | UnlinkData(ino: nat, fid: nat)
    | UnlinkRetire(ino: nat, fid: nat, st: RetireStage)
    | UnlinkLock(ino: nat)
    | Closing(ino: nat)                              // close(lock_fd)

  /**
   * A process. History: the unlinks of the lock path when lock_channel was called (`call0`)
   * and when its current iteration began (`iter0`), its restarts, and the last refusal.
   */
  datatype Proc = Proc(pc: PPc, goal: Goal, call0: nat, iter0: nat, restarts: nat, refusal: Option<(bool, nat)>)

  /** A data file inode: its const header, its size, the ring, and whether it was ever named by the path. */
  datatype Obj = Obj(hdr: Header, size: nat, f: File, ready: bool)

  /** Publish number `k` of data file `fid`. */
  datatype Pub = Pub(fid: nat, k: nat)

  /** How often a file was published to, its slots were committed and its futex word was incremented. */
  datatype Mark = Mark(pubs: nat, commits: seq<nat>, incs: nat)

  /** What a call found when it began: the retired files, the orphans, the channel's publishes so far, a mark per file. */
  datatype Entry = Entry(gone: set<nat>, orphans: set<nat>, pubs: nat, marks: seq<Mark>)

  /** One returned result: the file it came from, what its call found, and the channel's publishes when it returned. */
  datatype Result = Result(
    fid: nat, op: Op, o: Outcome, first: nat, base: nat, fin: nat, ok: bool, at: Entry, pubs: nat)

  datatype SyncPc = Resting | Identify | Sync | Attach(k: nat) | Attached(k: nat) | Polling | InRing

  /** A reader handle. `only` marks a call that needs no more than the attachment: describe or writer_alive. */
  datatype RProc = RProc(att: Option<nat>, pc: SyncPc, only: bool, r: Reader, at: Entry, results: seq<Result>)

  /**
   * Lock inodes and data files are numbered in order of creation; a lock inode has at most one holder.
   * `clock` is the machine's monotonic clock when it was last read.
   * History: the unlinks of the lock path, the publishes to all files in order (`pubs`), and the
   * orphans: files taken off the path by a process that will not set their RETIRED bit.
   */
  datatype Sys = Sys(
    lockPath: Option<nat>, holders: seq<Option<nat>>, unlinks: nat,
    dataPath: Option<nat>, files: seq<Obj>,
    procs: seq<Proc>, readers: seq<RProc>,
    clock: u64, pubs: seq<Pub>, orphans: set<nat>)

  datatype Act =
    | Start(p: nat, goal: Goal)
    | Advance(p: nat, random: u32)      // the process's next system call or store
    | Publish(p: nat, a: WAct)          // an action on its open writer handle
    | Close(p: nat)                     // psmsgr_state_writer_close
    | Fail(p: nat)                      // a system call fails
    | MapFail(p: nat)                   // unlink could not map the file: it cannot be retired
    | Crash(p: nat)
    | Call(j: nat, op: Op)
    | Describe(j: nat)
    | WriterAlive(j: nat)
    | Load(j: nat)                      // a reader's next load or system call
    | Deadline(j: nat)                  // wait finds its deadline passed
    | Slice(j: nat)                     // FUTEX_WAIT times out: the orphan check

  // ---- processes ----------------------------------------------------------------------------

  /** The lock inode a process holds. */
  function Held(pc: PPc): Option<nat> {
    match pc
    case LockVerify(ino) => Some(ino)
    case Closing(ino) => Some(ino)
    case _ => Section(pc)
  }

  /** The lock inode of a process between its identity check and its close or unlink of the lock file. */
  function Section(pc: PPc): Option<nat> {
    match pc
    case DataOpen(ino) => Some(ino)
    case DataLatest(ino, _) => Some(ino)
    case DataDecide(ino, _, _) => Some(ino)
    case TmpMake(ino, _, _) => Some(ino)
    case TmpFill(ino, _, _, _, _) => Some(ino)
    case NewRetire(ino, _, _, _, _) => Some(ino)
    case Write(ino, _, _, _) => Some(ino)
    case UnlinkOpen(ino) => Some(ino)
    case UnlinkData(ino, _) => Some(ino)
    case UnlinkRetire(ino, _, _) => Some(ino)
    case UnlinkLock(ino) => Some(ino)
    case _ => None
  }

  /** What a process is doing to data file `fid`. */
  function AgentOf(pc: PPc, fid: nat): Agent {
    match pc
    case Write(_, f, w, _) => if f == fid then Writing(w) else NoAgent
    case NewRetire(_, prev, _, _, st) => if prev == fid then Retiring(st) else NoAgent
    case UnlinkRetire(_, f, st) => if f == fid then Retiring(st) else NoAgent
    case _ => NoAgent
  }

  function SetPc(s: Sys, p: nat, pc: PPc): Sys
    requires p < |s.procs|
  {
    s.(procs := s.procs[p := s.procs[p].(pc := pc)])
  }

  /** lock_channel starts over. */
  function Restarted(s: Sys, p: nat): Sys
    requires p < |s.procs|
  {
    s.(procs := s.procs[p := s.procs[p].(pc := LockCreate, iter0 := s.unlinks, restarts := s.procs[p].restarts + 1)])
  }

  function Release(s: Sys, ino: nat): Sys {
    if ino < |s.holders| then s.(holders := s.holders[ino := None]) else s
  }

  /** A store into data file `fid`; `wake` is the store after which its waiters are woken. */
  function SetFile(s: Sys, fid: nat, g: File, wake: bool): Sys
    requires fid < |s.files|
  {
    s.(files := s.files[fid := s.files[fid].(f := g)],
       readers := if wake then WakeReaders(s.readers, fid) else s.readers)
  }

  function WakeReaders(rs: seq<RProc>, fid: nat): (rs': seq<RProc>)
    ensures |rs'| == |rs|
    ensures forall j :: 0 <= j < |rs| ==> rs'[j] == WakeReader(rs[j], fid)
  {
    seq(|rs|, j requires 0 <= j < |rs| => WakeReader(rs[j], fid))
  }

  function WakeReader(rp: RProc, fid: nat): RProc {
    if rp.att == Some(fid) && rp.pc.InRing? then rp.(r := Woken(rp.r)) else rp
  }

  function LockStep(s: Sys, p: nat): Sys
    requires p < |s.procs|
  {
    match s.procs[p].pc
    case LockCreate =>
      (match s.lockPath
       case None => SetPc(s.(lockPath := Some(|s.holders|), holders := s.holders + [None]), p, LockTry(|s.holders|))
       case Some(ino) => SetPc(s, p, LockReopen(ino)))
    case LockReopen(_) =>
      (match s.lockPath
       case None => Restarted(s, p)
       case Some(ino) => SetPc(s, p, LockTry(ino)))
    case LockTry(ino) =>
      if ino >= |s.holders| then s
      else if s.holders[ino].None? then SetPc(s.(holders := s.holders[ino := Some(p)]), p, LockVerify(ino))
      else SetPc(s, p, LockRefused(ino, s.lockPath == Some(ino), s.holders[ino].value))
    case LockRefused(ino, current, holder) =>
      if s.lockPath == Some(ino) then
        s.(procs := s.procs[p := s.procs[p].(pc := Out, refusal := Some((current, holder)))])
      else Restarted(s, p)
    case LockVerify(ino) =>
      if s.lockPath == Some(ino) then
        SetPc(s, p, if s.procs[p].goal.UnlinkChannel? then UnlinkOpen(ino) else DataOpen(ino))
      else Restarted(Release(s, ino), p)
    case Closing(ino) => SetPc(Release(s, ino), p, Out)
    case _ => s
  }

  // ---- open_data and create_file ---------------------------------------------------------------

  const HEADER_STORES: nat := 11

  /** The header after `k` of create_file's stores; `latest` is the eleventh. */
  function HeaderUpTo(o: Opts, k: nat): Header
    requires OptsValid(o)
  {
    Header(if k > 0 then MAGIC else 0, if k > 1 then VERSION_MAJOR else 0, if k > 2 then o.minor else 0,
           if k > 3 then HEADER_SIZE else 0, if k > 4 then SLOT_HEADER_SIZE else 0,
           if k > 5 then o.slotCount else 0, if k > 6 then SlotStride(o.cap) else 0,
           if k > 7 then o.cap else 0, if k > 8 then o.payloadType else 0,
           if k > 9 then ConfigFlags(o.notifyOn) else 0)
  }

  function ConfigFlags(notifyOn: bool): u32 {
    if notifyOn then 0 else 1
  }

  /** create_file's store number `k` into the header. */
  function StoreField(h: Header, o: Opts, k: nat): Header
    requires OptsValid(o)
  {
    match k
    case 0 => h.(magic := MAGIC)
    case 1 => h.(major := VERSION_MAJOR)
    case 2 => h.(minor := o.minor)
    case 3 => h.(headerSize := HEADER_SIZE)
    case 4 => h.(slotHeaderSize := SLOT_HEADER_SIZE)
    case 5 => h.(slotCount := o.slotCount)
    case 6 => h.(slotStride := SlotStride(o.cap))
    case 7 => h.(capacity := o.cap)
    case 8 => h.(payloadType := o.payloadType)
    case 9 => h.(configFlags := ConfigFlags(o.notifyOn))
    case _ => h
  }

  /** The zero-filled file posix_fallocate leaves: `latest` is 0 until create_file stores it. */
  function Blank(o: Opts): Obj
    requires OptsValid(o)
  {
    Obj(HeaderUpTo(o, 0), FileSize(o.slotCount, SlotStride(o.cap)),
        Fresh(o.cap, o.slotCount, o.payloadType, o.notifyOn, o.minor, 0).(latest := 0), false)
  }

  function FillTmp(ob: Obj, o: Opts, k: nat): Obj
    requires OptsValid(o)
  {
    if k == HEADER_STORES - 1 then ob.(f := ob.f.(latest := NONE)) else ob.(hdr := StoreField(ob.hdr, o, k))
  }

  predicate Compatible(h: Header, o: Opts) {
    && h.capacity == o.cap && h.slotCount == o.slotCount && h.payloadType == o.payloadType
    && h.configFlags == ConfigFlags(o.notifyOn)
  }

  /** open_data maps a file that is valid or at least has the magic, and can then retire it. */
  predicate Mappable(ob: Obj) {
    HeaderValid(ob.hdr, ob.size) || (ob.size >= HEADER_SIZE && ob.hdr.magic == MAGIC)
  }

  /** open_data once it has mapped the file: reuse, create or refuse. */
  function Decide(s: Sys, p: nat, o: Opts, ino: nat, fid: nat, latest: u32, random: u32): Sys
    requires p < |s.procs| && fid < |s.files|
  {
    var ob := s.files[fid];
    var valid := HeaderValid(ob.hdr, ob.size) && LatestValid(latest, ob.hdr.slotCount);
    var gen := if valid then CarriedGen(ob.f, latest, random) else random;
    var create := SetPc(s, p, TmpMake(ino, if Mappable(ob) then Some(fid) else None, gen));
    var refuse := SetPc(s, p, Closing(ino));
    if !valid then (if o.recreate then create else refuse)
    else if ob.f.retired then create
    else if !Compatible(ob.hdr, o) then (if o.recreate then create else refuse)
    else if ob.hdr.minor != o.minor then create
    else
      var w := Writer(if latest == NONE then None else Some(LatestSlot(latest)), gen, Idle);
      SetPc(s, p, Write(ino, fid, w, None))
  }

  function OpenStep(s: Sys, p: nat, o: Opts, random: u32): Sys
    requires p < |s.procs| && OptsValid(o) && random != 0
  {
    match s.procs[p].pc
    case DataOpen(ino) =>
      (match s.dataPath
       case None => SetPc(s, p, TmpMake(ino, None, random))
       case Some(fid) => SetPc(s, p, DataLatest(ino, fid)))
    case DataLatest(ino, fid) =>
      if fid < |s.files| then SetPc(s, p, DataDecide(ino, fid, s.files[fid].f.latest)) else s
    case DataDecide(ino, fid, latest) =>
      if fid < |s.files| then Decide(s, p, o, ino, fid, latest, random) else s
    case TmpMake(ino, prev, gen) =>
      SetPc(s.(files := s.files + [Blank(o)]), p, TmpFill(ino, prev, gen, |s.files|, 0))
    case TmpFill(ino, prev, gen, tmp, k) =>
      if tmp >= |s.files| then s
      else if k < HEADER_STORES then
        SetPc(s.(files := s.files[tmp := FillTmp(s.files[tmp], o, k)]), p, TmpFill(ino, prev, gen, tmp, k + 1))
      else // rename
        SetPc(s.(files := s.files[tmp := s.files[tmp].(ready := true)], dataPath := Some(tmp)), p,
              match prev
              case None => Write(ino, tmp, Writer(None, gen, Idle), None)
              case Some(fid) => NewRetire(ino, fid, gen, tmp, SetRetired))
    case NewRetire(ino, prev, gen, tmp, st) =>
      if prev >= |s.files| then s
      else
        var s' := SetFile(s, prev, RetireFile(s.files[prev].f, st), st.WakeRetired?);
        SetPc(s', p, match RetireAgent(st)
                     case Retiring(st') => NewRetire(ino, prev, gen, tmp, st')
                     case _ => Write(ino, tmp, Writer(None, gen, Idle), Some(prev)))
    case _ => s
  }

  function UnlinkStep(s: Sys, p: nat): Sys
    requires p < |s.procs|
  {
    match s.procs[p].pc
    case UnlinkOpen(ino) =>
      (match s.dataPath
       case None => SetPc(s, p, UnlinkLock(ino))
       case Some(fid) => SetPc(s, p, UnlinkData(ino, fid)))
    case UnlinkData(ino, fid) => SetPc(s.(dataPath := None), p, UnlinkRetire(ino, fid, SetRetired))
    case UnlinkRetire(ino, fid, st) =>
      if fid >= |s.files| then s
      else
        var s' := SetFile(s, fid, RetireFile(s.files[fid].f, st), st.WakeRetired?);
        SetPc(s', p, match RetireAgent(st)
                     case Retiring(st') => UnlinkRetire(ino, fid, st')
                     case _ => UnlinkLock(ino))
    case UnlinkLock(ino) => SetPc(s.(lockPath := None, unlinks := s.unlinks + 1), p, Closing(ino))
    case _ => s
  }

  /** The file goes without being retired, since unlink could not map it. */
  function UnlinkUnmapped(s: Sys, p: nat): Sys
    requires p < |s.procs| && s.procs[p].pc.UnlinkData?
  {
    var pc := s.procs[p].pc;
    SetPc(s.(dataPath := None, orphans := s.orphans + {pc.fid}), p, UnlinkLock(pc.ino))
  }

  function PublishStep(s: Sys, p: nat, a: WAct): Sys
    requires p < |s.procs|
  {
    match s.procs[p].pc
    case Write(ino, fid, w, from) =>
      if fid < |s.files| && WEnabled(s.files[fid].f, w, a) && (a.Stamp? ==> s.clock <= a.t) then
        var f := s.files[fid].f;
        var s' := SetPc(SetFile(s, fid, WFile(f, w, a), Wakes(w, a)), p, Write(ino, fid, WHandle(f, w, a), from));
        s'.(clock := if a.Stamp? then a.t else s.clock,
            pubs := if Publishes(w, a) then s.pubs + [Pub(fid, |f.log|)] else s.pubs)
      else s
    case _ => s
  }

  /** The application may close its handle between calls, also with a begin open. */
  predicate MayClose(pc: PPc) {
    pc.Write? && (pc.w.pc.Idle? || (pc.w.pc.Filling? && pc.w.pc.st.Open?))
  }

  predicate MayFail(pc: PPc) {
    pc.DataOpen? || pc.DataLatest? || pc.DataDecide? || pc.TmpMake? || pc.TmpFill? || pc.UnlinkOpen? || pc.UnlinkData?
  }

  /** The file a process has taken off the path and not yet retired. */
  function Dropped(pc: PPc): set<nat> {
    match pc
    case NewRetire(_, fid, _, _, SetRetired) => {fid}
    case UnlinkRetire(_, fid, SetRetired) => {fid}
    case _ => {}
  }

  /** The kernel closes the dead process's descriptors, which releases its lock. */
  function Crashed(s: Sys, p: nat): Sys
    requires p < |s.procs|
  {
    var pc := s.procs[p].pc;
    var s1 := if Held(pc).Some? then Release(s, Held(pc).value) else s;
    var s2 := match pc
              case Write(_, fid, w, _) =>
                if fid < |s.files| then SetFile(s1, fid, CrashFile(s.files[fid].f, Writing(w)), false) else s1
              case NewRetire(_, fid, _, _, st) =>
                if fid < |s.files| then SetFile(s1, fid, CrashFile(s.files[fid].f, Retiring(st)), false) else s1
              case UnlinkRetire(_, fid, st) =>
                if fid < |s.files| then SetFile(s1, fid, CrashFile(s.files[fid].f, Retiring(st)), false) else s1
              case _ => s1;
    SetPc(s2, p, Out).(orphans := s.orphans + Dropped(pc))
  }

  // ---- readers -----------------------------------------------------------------------------------

  function SetReader(s: Sys, j: nat, rp: RProc): Sys
    requires j < |s.readers|
  {
    s.(readers := s.readers[j := rp])
  }

  function Retired(s: Sys): set<nat> {
    set fid | 0 <= fid < |s.files| && s.files[fid].f.retired
  }

  /** reader_sync succeeded: the call goes on inside the mapped file. */
  function Enter(rp: RProc, f: File): RProc {
    if rp.only then rp.(pc := Resting)
    else rp.(pc := InRing,
        r := Reader(rp.r.op, if rp.r.op.Wait? then LoadNotify else LoadLatest, 0, NONE, 0, 0, [], 0,
                    |f.log|, 0, 0, 0, 0, 0, 0, 0, true))
  }

  /** reader_sync found no usable file: wait polls, the other calls return. */
  function Unattached(rp: RProc): RProc {
    rp.(att := None, pc := if rp.r.op.Wait? && !rp.only then Polling else Resting)
  }

  function EntryOf(s: Sys): Entry {
    Entry(Retired(s), s.orphans, |s.pubs|,
          seq(|s.files|, i requires 0 <= i < |s.files| => Mark(|s.files[i].f.log|, s.files[i].f.commits, s.files[i].f.incs)))
  }

  /** A call begins. */
  function BeginCall(s: Sys, rp: RProc): RProc {
    rp.(pc := Sync, only := false, at := EntryOf(s))
  }

  function LoadStep(s: Sys, j: nat): Sys
    requires j < |s.readers|
  {
    var rp := s.readers[j];
    match rp.pc
    case Identify => SetReader(s, j, rp.(pc := Sync, att := if s.dataPath == rp.att then rp.att else None))
    case Sync =>
      (match rp.att
       case None => SetReader(s, j, rp.(pc := Attach(0)))
       case Some(fid) =>
         if fid >= |s.files| then s
         else if s.files[fid].f.retired then SetReader(s, j, rp.(att := None, pc := Attach(0)))
         else SetReader(s, j, Enter(rp, s.files[fid].f)))
    case Attach(k) =>
      (match s.dataPath
       case None => SetReader(s, j, Unattached(rp))
       case Some(fid) =>
         if fid >= |s.files| then s
         else if HeaderValid(s.files[fid].hdr, s.files[fid].size) then
           SetReader(s, j, rp.(att := Some(fid), pc := Attached(k)))
         else SetReader(s, j, rp.(pc := Resting)))
    case Attached(k) =>
      (match rp.att
       case None => s
       case Some(fid) =>
         if fid >= |s.files| then s
         else if !s.files[fid].f.retired then SetReader(s, j, Enter(rp, s.files[fid].f))
         else if k + 1 < ATTACH_RETRIES then SetReader(s, j, rp.(att := None, pc := Attach(k + 1)))
         else SetReader(s, j, Unattached(rp)))
    case Polling => SetReader(s, j, rp.(pc := Sync))
    case InRing =>
      (match rp.att
       case None => s
       case Some(fid) =>
         if fid >= |s.files| then s
         else
           match rp.r.pc
           case Finished(o) =>
             var res := Result(fid, rp.r.op, o, rp.r.first, rp.r.base, rp.r.fin, rp.r.ok, rp.at, |s.pubs|);
             SetReader(s, j, rp.(pc := Resting, results := rp.results + [res]))
           case Restart => SetReader(s, j, rp.(pc := Sync))
           case _ =>
             if RReady(s.files[fid].f, rp.r) then SetReader(s, j, rp.(r := RNext(s.files[fid].f, rp.r))) else s)
    case Resting => s
  }

  /** wait returns TIMEOUT instead of sleeping. */
  function DeadlineStep(s: Sys, j: nat): Sys
    requires j < |s.readers|
  {
    var rp := s.readers[j];
    if rp.pc.Polling? then SetReader(s, j, rp.(pc := Resting))
    else if rp.pc.InRing? && rp.r.pc.Futex? then SetReader(s, j, rp.(r := rp.r.(pc := Finished(TimedOut))))
    else s
  }

  /** The sleep ends without a wake: identity_check comes next, then the top of the loop. */
  function SliceStep(s: Sys, j: nat): Sys
    requires j < |s.readers|
  {
    var rp := s.readers[j];
    if rp.pc.InRing? && rp.r.pc.Asleep? then
      SetReader(s, j, rp.(pc := Identify))
    else s
  }

  // ---- runs ------------------------------------------------------------------------------------------

  /** One step; an action that is not possible in `s` changes nothing. */
  function Apply(s: Sys, a: Act): Sys {
    match a
    case Start(p, goal) =>
      if p < |s.procs| && s.procs[p].pc.Out? && (goal.OpenWriter? ==> OptsValid(goal.o)) then
        s.(procs := s.procs[p := Proc(LockCreate, goal, s.unlinks, s.unlinks, 0, None)])
      else s
    case Advance(p, random) =>
      if p < |s.procs| && random != 0 then
        var pc := s.procs[p].pc;
        if Section(pc).None? then LockStep(s, p)
        else if s.procs[p].goal.OpenWriter? then
          (if OptsValid(s.procs[p].goal.o) then OpenStep(s, p, s.procs[p].goal.o, random) else s)
        else UnlinkStep(s, p)
      else s
    case Publish(p, wa) => if p < |s.procs| then PublishStep(s, p, wa) else s
    case Close(p) =>
      if p < |s.procs| && MayClose(s.procs[p].pc) then SetPc(s, p, Closing(s.procs[p].pc.ino)) else s
    case Fail(p) =>
      if p < |s.procs| && MayFail(s.procs[p].pc) then SetPc(s, p, Closing(s.procs[p].pc.ino)) else s
    case MapFail(p) => if p < |s.procs| && s.procs[p].pc.UnlinkData? then UnlinkUnmapped(s, p) else s
    case Crash(p) => if p < |s.procs| then Crashed(s, p) else s
    case Call(j, op) =>
      if j < |s.readers| && s.readers[j].pc.Resting? then
        SetReader(s, j, BeginCall(s, s.readers[j]).(r := s.readers[j].r.(op := op)))
      else s
    case Describe(j) =>
      if j < |s.readers| && s.readers[j].pc.Resting? then SetReader(s, j, s.readers[j].(pc := Sync, only := true)) else s
    case WriterAlive(j) =>
      if j < |s.readers| && s.readers[j].pc.Resting? then SetReader(s, j, s.readers[j].(pc := Identify, only := true)) else s
    case Load(j) => if j < |s.readers| then LoadStep(s, j) else s
    case Deadline(j) => if j < |s.readers| then DeadlineStep(s, j) else s
    case Slice(j) => if j < |s.readers| then SliceStep(s, j) else s
  }

  function Run(s: Sys, acts: seq<Act>): Sys
    decreases |acts|
  {
    if acts == [] then s else Run(Apply(s, acts[0]), acts[1..])
  }

  lemma {:induction false} RunAppend(s: Sys, a: seq<Act>, b: seq<Act>)
    ensures Run(s, a + b) == Run(Run(s, a), b)
    decreases |a|
  {
    if a == [] {
      assert a + b == b;
    } else {
      assert (a + b)[0] == a[0] && (a + b)[1..] == a[1..] + b;
      RunAppend(Apply(s, a[0]), a[1..], b);
    }
  }

  /** No channel yet; `np` processes and `nr` readers that have not called anything. */
  function Init(np: nat, nr: nat): Sys {
    Sys(None, [], 0, None, [],
        seq(np, _ => Proc(Out, UnlinkChannel, 0, 0, 0, None)),
        seq(nr, _ => RProc(None, Resting, false,
          Reader(Peek, Restart, 0, NONE, 0, 0, [], 0, 0, 0, 0, 0, 0, 0, 0, 0, true), Entry({}, {}, 0, []), [])),
        0, [], {})
  }
}
