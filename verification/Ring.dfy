// One data file, the process that may store into it, and the readers of it:
// the seqlock slot ring of src/state.c as atomic steps.
module Ring {
  import opened Bytes
  import opened Layout

  const READ_RETRIES: nat := 64

  // ---- memory ----------------------------------------------------------------

  /** A slot: its seq word, and bytes 4-19 of its header followed by its payload. */
  datatype Slot = Slot(seqno: u32, body: seq<byte>)

  const META: nat := 16 // generation (4), timestamp (8), length (4)

  /** A published value. */
  datatype Record = Record(gen: u32, ts: u64, bytes: seq<byte>)

  /**
   * A data file. The first two lines are fixed at creation, the third is the
   * shared memory. The rest is history: the publishes so far, the commits of
   * each slot and whether it is being written, the clock readings, and the
   * `notify` increments. `next` is the slot after the last publish's. A file taken
   * over with unknown contents is `adopted`, and `dirty` are its slots not written since.
   */
  datatype File = File(
    cap: nat, notifyOn: bool,
    payloadType: u32, minor: nat,
    slots: seq<Slot>, latest: u32, notify: u32, retired: bool,
    next: nat, log: seq<Record>, commits: seq<nat>, odd: seq<bool>, clock: u64,
    incs: nat, acked: nat, unnotified: bool, unwoken: bool, lost: bool,
    adopted: bool, dirty: set<nat>)

  /** The file `create_file` renames into place. */
  function Fresh(cap: nat, n: nat, payloadType: u32, notifyOn: bool, minor: nat, clock: u64): File {
    File(cap, notifyOn, payloadType, minor,
         seq(n, _ => Slot(0, seq(META + cap, _ => 0))), NONE, 0, false,
         0, [], seq(n, _ => 0), seq(n, _ => false), clock,
         0, 0, false, false, false, false, {})
  }

  function NextGen(g: u32): (r: u32) {
    if g == 0xFFFF_FFFF then 1 else g + 1
  }

  /** The bytes a slot holds for a record. */
  function Image(r: Record): (s: seq<byte>)
    requires |r.bytes| < U32
    ensures |s| == META + |r.bytes|
  {
    LittleEndian(r.gen, 4) + LittleEndian(r.ts, 8) + LittleEndian(|r.bytes|, 4) + r.bytes
  }

  function MetaGen(got: seq<byte>): u32 requires |got| >= META { Load32(got[..4]) }
  function MetaTs(got: seq<byte>): u64 requires |got| >= META { Load64(got[4..12]) }
  function MetaLen(got: seq<byte>): u32 requires |got| >= META { Load32(got[12..16]) }

  /** What the header copy of a slot holding a record decodes to. */
  lemma ImageDecodes(r: Record, got: seq<byte>)
    requires |r.bytes| < U32 && |got| >= META
    requires got <= Image(r) || Image(r) <= got
    ensures MetaGen(got) == r.gen && MetaTs(got) == r.ts && MetaLen(got) == |r.bytes|
  {
    var s := Image(r);
    assert s[..4] == LittleEndian(r.gen, 4);
    assert s[4..12] == LittleEndian(r.ts, 8);
    assert s[12..16] == LittleEndian(|r.bytes|, 4);
    assert got[..4] == s[..4] && got[4..12] == s[4..12] && got[12..16] == s[12..16];
    Word32RoundTrip(r.gen);
    Word64RoundTrip(r.ts);
    Word32RoundTrip(|r.bytes|);
  }

  // ---- the writer: begin_slot and commit_slot ------------------------------------

  /** Where the payload of an open slot comes from: `publish` copies, `begin` lets the application store. */
  datatype Source = FromApp | FromCaller(data: seq<byte>)

  /** What happens next to the open slot: the application's or `publish`'s bytes, then the stores of commit_slot. */
  datatype Stage =
    | Begun(src: Source)
    | Open
    | Copying(data: seq<byte>, k: nat)
    | PutGen(pay: seq<byte>)
    | PutLen(pay: seq<byte>)
    | PutTs(pay: seq<byte>)
    | PutSeq(pay: seq<byte>, ts: u64)
    | PutLatest(pay: seq<byte>, ts: u64)

  /** Where a writer handle is. `i` and `q` are `open_slot` and `open_seq`. */
  datatype Pc = Idle | Filling(i: nat, q: u32, st: Stage) | AddNotify | WakeAll

  /** `W.latest` and `W.gen`; the rest of the handle is `pc`. */
  datatype Writer = Writer(latest: Option<nat>, gen: u32, pc: Pc)

  datatype WAct =
    | Begin(src: Source)            // begin_slot up to its load of seq
    | Store                         // the next store of begin_slot, the copy or commit_slot
    | AppStore(k: nat, b: byte)     // the application fills the slot it holds open
    | Commit(len: nat)
    | Abort
    | Stamp(t: u64)                 // commit_slot reads the clock and stores the timestamp

  /** The slot `begin_slot` picks. */
  function TargetSlot(w: Writer, n: nat): nat
    requires n > 0
  {
    if w.latest.None? then 0 else (w.latest.value + 1) % n
  }

  /** The bytes on their way into the slot. */
  function Payload(st: Stage): seq<byte> {
    match st
    case Begun(FromCaller(data)) => data
    case Begun(FromApp) => []
    case Open => []
    case Copying(data, _) => data
    case PutGen(pay) => pay
    case PutLen(pay) => pay
    case PutTs(pay) => pay
    case PutSeq(pay, _) => pay
    case PutLatest(pay, _) => pay
  }

  /** The handle's slot index is one of the file's, and its payload fits. */
  predicate PcFits(f: File, pc: Pc) {
    pc.Filling? ==>
      && pc.i < |f.slots| == |f.commits| == |f.odd|
      && |f.slots| <= MAX_SLOTS
      && |f.slots[pc.i].body| == META + f.cap
      && pc.q + 1 < U32
      && |Payload(pc.st)| <= f.cap < U32
      && (pc.st.Copying? ==> pc.st.k <= |pc.st.data|)
  }

  predicate WEnabled(f: File, w: Writer, a: WAct) {
    && PcFits(f, w.pc)
    && match a
       case Begin(src) => w.pc.Idle? && |Payload(Begun(src))| <= f.cap < U32
                          && 0 < |f.slots| && TargetSlot(w, |f.slots|) < |f.slots|
       case Store => !w.pc.Idle? && (w.pc.Filling? ==> !w.pc.st.Open? && !w.pc.st.PutTs?)
       case AppStore(k, _) => w.pc.Filling? && w.pc.st.Open? && k < f.cap
       case Commit(len) => w.pc.Filling? && w.pc.st.Open? && len <= f.cap
       case Abort => w.pc.Filling? && w.pc.st.Open?
       case Stamp(t) => w.pc.Filling? && w.pc.st.PutTs? && f.clock <= t
  }

  /** begin_slot: the slot becomes unreadable. */
  function Opening(f: File, i: nat, q: u32): File
    requires i < |f.slots| == |f.odd| && q + 1 < U32
  {
    f.(slots := f.slots[i := f.slots[i].(seqno := q + 1)], odd := f.odd[i := true])
  }

  /** commit_slot: the slot becomes readable again, one commit later. */
  function Committed(f: File, i: nat, q: u32): File
    requires i < |f.slots| == |f.commits| == |f.odd|
  {
    f.(slots := f.slots[i := f.slots[i].(seqno := (q + 2) % U32)],
       commits := f.commits[i := f.commits[i] + 1], odd := f.odd[i := false])
  }

  function SetBody(f: File, i: nat, off: nat, bs: seq<byte>): File
    requires i < |f.slots| && off + |bs| <= |f.slots[i].body|
  {
    f.(slots := f.slots[i := f.slots[i].(body := Put(f.slots[i].body, off, bs))])
  }

  /** The slot after `i` in the ring. */
  function After(i: nat, n: nat): nat {
    if i + 1 == n then 0 else i + 1
  }

  function Stamped(f: File, i: nat, t: u64): File
    requires i < |f.slots| && 12 <= |f.slots[i].body|
  {
    SetBody(f, i, 4, LittleEndian(t, 8)).(clock := t)
  }

  /** commit_slot: the value becomes the latest one. */
  function Published(f: File, i: nat, q: u32, r: Record): File
    requires i < MAX_SLOTS
  {
    f.(latest := Latest(i, (q + 2) % U32), log := f.log + [r], next := After(i, |f.slots|),
       unnotified := f.unnotified || f.notifyOn, dirty := f.dirty - {i})
  }

  /** commit_slot: waiters about to sleep see the word change. */
  function Notified(f: File): File {
    f.(notify := (f.notify + 1) % U32, incs := f.incs + 1, acked := |f.log|, unnotified := false, unwoken := true)
  }

  /** FUTEX_WAKE: nobody sleeps any more, also for what a dead process left undone. */
  function Awakened(f: File): File {
    f.(unwoken := false, lost := false)
  }

  /** One store into or about the open slot. */
  function FillFile(f: File, gen: u32, i: nat, q: u32, st: Stage): File
    requires PcFits(f, Filling(i, q, st))
  {
    match st
    case Begun(_) => Opening(f, i, q)
    case Copying(data, k) => if k < |data| then SetBody(f, i, META + k, [data[k]]) else f
    case PutGen(_) => SetBody(f, i, 0, LittleEndian(gen, 4))
    case PutLen(pay) => SetBody(f, i, 12, LittleEndian(|pay|, 4))
    case PutSeq(_, _) => Committed(f, i, q)
    case PutLatest(pay, ts) => Published(f, i, q, Record(gen, ts, pay))
    case _ => f
  }

  /** The stage after that store. */
  function NextStage(st: Stage): Stage {
    match st
    case Begun(FromApp) => Open
    case Begun(FromCaller(data)) => Copying(data, 0)
    case Copying(data, k) => if k < |data| then Copying(data, k + 1) else PutGen(data)
    case PutGen(pay) => PutLen(pay)
    case PutLen(pay) => PutTs(pay)
    case PutSeq(pay, ts) => PutLatest(pay, ts)
    case _ => st
  }

  /** The handle after the store of `latest`. */
  function PublishedHandle(w: Writer, i: nat, notifyOn: bool): Writer {
    if notifyOn then w.(latest := Some(i), pc := AddNotify)
    else Writer(Some(i), NextGen(w.gen), Idle)
  }

  /** True of the store that publishes: that of `latest`. */
  predicate Publishes(w: Writer, a: WAct) {
    a.Store? && w.pc.Filling? && w.pc.st.PutLatest?
  }

  /** The file after one action of its writer. */
  function WFile(f: File, w: Writer, a: WAct): File
    requires WEnabled(f, w, a)
  {
    match a
    case Begin(_) | Commit(_) | Abort => f
    case AppStore(k, b) => SetBody(f, w.pc.i, META + k, [b])
    case Stamp(t) => Stamped(f, w.pc.i, t)
    case Store =>
      match w.pc
      case Filling(i, q, st) => FillFile(f, w.gen, i, q, st)
      case AddNotify => Notified(f)
      case _ => Awakened(f)
  }

  /** The handle after that action. */
  function WHandle(f: File, w: Writer, a: WAct): Writer
    requires WEnabled(f, w, a)
  {
    match a
    case Begin(src) =>
      var i := TargetSlot(w, |f.slots|);
      w.(pc := Filling(i, f.slots[i].seqno / 2 * 2, Begun(src)))
    case AppStore(_, _) => w
    case Commit(len) => w.(pc := w.pc.(st := PutGen(f.slots[w.pc.i].body[META..META + len])))
    case Abort => w.(pc := Idle)
    case Stamp(t) => w.(pc := w.pc.(st := PutSeq(w.pc.st.pay, t)))
    case Store =>
      match w.pc
      case Filling(i, _, PutLatest(_, _)) => PublishedHandle(w, i, f.notifyOn)
      case Filling(i, q, st) => w.(pc := Filling(i, q, NextStage(st)))
      case AddNotify => w.(pc := WakeAll)
      case _ => w.(gen := NextGen(w.gen), pc := Idle)
  }

  lemma LogAfter(f: File, w: Writer, a: WAct)
    requires WEnabled(f, w, a)
    ensures if Publishes(w, a) then WFile(f, w, a).log == f.log + [Record(w.gen, w.pc.st.ts, w.pc.st.pay)]
            else WFile(f, w, a).log == f.log
  {
    if w.pc.Filling? && a.Store? { FillLog(f, w.gen, w.pc.i, w.pc.q, w.pc.st); }
  }

  lemma FillLog(f: File, gen: u32, i: nat, q: u32, st: Stage)
    requires PcFits(f, Filling(i, q, st))
    ensures FillFile(f, gen, i, q, st).log == if st.PutLatest? then f.log + [Record(gen, st.ts, st.pay)] else f.log
  {}

  lemma ClockAfter(f: File, w: Writer, a: WAct)
    requires WEnabled(f, w, a)
    ensures WFile(f, w, a).clock == if a.Stamp? then a.t else f.clock
  {
    if w.pc.Filling? && a.Store? { FillRest(f, w.gen, w.pc.i, w.pc.q, w.pc.st); }
  }

  lemma RetiredAfter(f: File, w: Writer, a: WAct)
    requires WEnabled(f, w, a)
    ensures WFile(f, w, a).retired == f.retired
  {
    if w.pc.Filling? && a.Store? { FillRest(f, w.gen, w.pc.i, w.pc.q, w.pc.st); }
  }

  lemma FillRest(f: File, gen: u32, i: nat, q: u32, st: Stage)
    requires PcFits(f, Filling(i, q, st))
    ensures FillFile(f, gen, i, q, st).retired == f.retired && FillFile(f, gen, i, q, st).clock == f.clock
  {
    match st
    case Copying(data, k) => if k < |data| { BodyRest(f, i, META + k, [data[k]]); }
    case PutGen(_) => BodyRest(f, i, 0, LittleEndian(gen, 4));
    case PutLen(pay) => BodyRest(f, i, 12, LittleEndian(|pay|, 4));
    case _ =>
  }

  lemma BodyRest(f: File, i: nat, off: nat, bs: seq<byte>)
    requires i < |f.slots| && off + |bs| <= |f.slots[i].body|
    ensures SetBody(f, i, off, bs).retired == f.retired && SetBody(f, i, off, bs).clock == f.clock
  {}

  // ---- who may store into the file -------------------------------------------------

  /** The steps of `retire`. */
  datatype RetireStage = SetRetired | AddRetireNotify | WakeRetired

  datatype Agent = NoAgent | Writing(w: Writer) | Retiring(stage: RetireStage)

  function RetireFile(f: File, st: RetireStage): File {
    match st
    case SetRetired => f.(retired := true, unnotified := true)
    case AddRetireNotify =>
      f.(notify := (f.notify + 1) % U32, incs := f.incs + 1, acked := |f.log|, unnotified := false, unwoken := true)
    case WakeRetired => Awakened(f)
  }

  function RetireAgent(st: RetireStage): Agent {
    match st
    case SetRetired => Retiring(AddRetireNotify)
    case AddRetireNotify => Retiring(WakeRetired)
    case WakeRetired => NoAgent
  }

  /** A change of the file's value or of its RETIRED bit that the agent has not woken waiters for yet. */
  predicate Owes(a: Agent) {
    || (a.Writing? && (a.w.pc.AddNotify? || a.w.pc.WakeAll?))
    || (a.Retiring? && !a.stage.SetRetired?)
  }

  /** The process dies, or closes its handle: the memory stays as it is. */
  function CrashFile(f: File, a: Agent): File {
    f.(lost := f.lost || Owes(a))
  }

  /** The generation `open_data` continues with: the successor of the value `latest` names, else `random`. */
  function CarriedGen(f: File, latest: u32, random: u32): u32 {
    if latest != NONE && LatestSlot(latest) < |f.slots| && |f.slots[LatestSlot(latest)].body| >= META
    then NextGen(MetaGen(f.slots[LatestSlot(latest)].body)) else random
  }

  /** The handle `open_data` builds when it reuses a file. */
  function Reopen(f: File, random: u32): Writer {
    Writer(if f.latest == NONE then None else Some(LatestSlot(f.latest)), CarriedGen(f, f.latest, random), Idle)
  }
}
