// Every step of a writer, a retirer, a crash and a reuse keeps the file's invariant,
// and changes the file only in ways a concurrent reader can tolerate.
module RingWriter {
  import opened Bytes
  import opened Layout
  import opened Ring
  import opened RingInvariant

  /**
   * How a file changes in one step, as far as a reader can depend on it: a slot
   * that is even with an unchanged commit count was not touched, only the next slot is
   * ever touched, and waiters are owed a wake-up for every change. `wake` marks
   * the step that wakes all waiters.
   */
  ghost predicate Evolves(f: File, g: File, wake: bool) {
    && Shape(f) && Shape(g)
    && |g.slots| == |f.slots| && g.cap == f.cap && g.notifyOn == f.notifyOn
    && g.payloadType == f.payloadType && g.minor == f.minor && g.adopted == f.adopted
    && ((g.log == f.log && g.next == f.next)
        || (f.log <= g.log && |g.log| == |f.log| + 1 && g.next == After(f.next, |f.slots|)))
    && (forall j :: 0 <= j < |f.slots| ==> f.commits[j] <= g.commits[j])
    && (forall j :: 0 <= j < |f.slots| && g.commits[j] == f.commits[j] && !g.odd[j] ==>
          !f.odd[j] && g.slots[j] == f.slots[j])
    && (forall j :: 0 <= j < |f.slots| && j != f.next ==>
          g.slots[j] == f.slots[j] && g.commits[j] == f.commits[j] && g.odd[j] == f.odd[j])
    && NotifyEvolves(f, g, wake)
  }

  ghost predicate NotifyEvolves(f: File, g: File, wake: bool) {
    && f.incs <= g.incs
    && (f.incs == g.incs ==> f.acked == g.acked && (f.unnotified ==> g.unnotified))
    && (f.retired ==> g.retired)
    && (g.retired && !f.retired ==> g.unnotified)
    && (f.log != g.log && f.notifyOn ==> g.unnotified)
    && ((f.unnotified || f.unwoken) && !wake ==> g.unnotified || g.unwoken)
  }

  // ---- the stores, one file operation each ---------------------------------------------------

  /** A store into the body of the odd slot is invisible to every invariant of the file. */
  lemma BodyStore(f: File, i: nat, off: nat, bs: seq<byte>)
    requires FileInv(f)
    requires i == f.next && f.odd[i]
    requires off + |bs| <= META + f.cap
    ensures FileInv(SetBody(f, i, off, bs))
  {}

  lemma BodyStoreEvolves(f: File, i: nat, off: nat, bs: seq<byte>)
    requires FileInv(f)
    requires i == f.next && f.odd[i]
    requires off + |bs| <= META + f.cap
    ensures Evolves(f, SetBody(f, i, off, bs), false)
  {}

  lemma StoreOdd(f: File, i: nat, q: u32)
    requires FileInv(f)
    requires i == f.next && q == SeqWord(f.commits[i], false) && q + 1 < U32
    ensures FileInv(Opening(f, i, q))
  {
    SeqOdd(f.commits[i]);
    LogUntouched(f, Opening(f, i, q));
    hide LogInv, NotifyInv, Image, SeqWord;
  }

  lemma StoreOddEvolves(f: File, i: nat, q: u32)
    requires FileInv(f)
    requires i == f.next && q + 1 < U32
    ensures Evolves(f, Opening(f, i, q), false)
  {}

  lemma StoreEven(f: File, i: nat, q: u32)
    requires FileInv(f)
    requires i == f.next && q == SeqWord(f.commits[i], false)
    ensures FileInv(Committed(f, i, q))
  {
    SeqBump(f.commits[i]);
    LogUntouched(f, Committed(f, i, q));
    hide LogInv, NotifyInv, Image, SeqWord;
  }

  /** A store into the slots is in neither the log nor the futex word. */
  lemma LogUntouched(f: File, g: File)
    requires LogInv(f) && NotifyInv(f) && g == f.(slots := g.slots, commits := g.commits, odd := g.odd)
    ensures LogInv(g) && NotifyInv(g)
  {}

  lemma StoreEvenEvolves(f: File, i: nat, q: u32)
    requires FileInv(f)
    requires i == f.next
    ensures Evolves(f, Committed(f, i, q), false)
  {}

  lemma PublishLog(f: File, i: nat, q: u32, r: Record)
    requires LogInv(f) && i < MAX_SLOTS && |r.bytes| <= f.cap && Timely(f, r.ts) && r.gen != 0
    requires f.log != [] ==> r.gen == NextGen(f.log[|f.log| - 1].gen)
    ensures LogInv(Published(f, i, q, r))
  {
    hide NextGen, Latest, After;
    var g := Published(f, i, q, r);
    var n := |f.log|;
    assert g.log == f.log + [r] && g.cap == f.cap && g.clock == f.clock;
    forall k, m | 0 <= k < m < |g.log|
      ensures g.log[k].ts <= g.log[m].ts
    {
      if m == n && k < n - 1 { assert f.log[k].ts <= f.log[n - 1].ts; }
    }
    forall k | 0 <= k < |g.log| - 1
      ensures g.log[k + 1].gen == NextGen(g.log[k].gen)
    {
      if k < n - 1 { assert f.log[k + 1].gen == NextGen(f.log[k].gen); }
    }
  }

  /** The store of `latest` is the publish: the new value becomes the last one of the log. */
  lemma Publish(f: File, i: nat, q: u32, r: Record)
    requires FileInv(f)
    requires i == f.next && f.slots[i].seqno == (q + 2) % U32 && !f.odd[i]
    requires |r.bytes| <= f.cap && Image(r) <= f.slots[i].body && Timely(f, r.ts) && r.gen != 0
    requires f.log != [] ==> r.gen == NextGen(f.log[|f.log| - 1].gen)
    ensures FileInv(Published(f, i, q, r))
  {
    var g := Published(f, i, q, r);
    assert CurSlot(g) == i;
    assert LatestInv(g);
    PublishLog(f, i, q, r);
  }

  lemma PublishEvolves(f: File, i: nat, q: u32, r: Record)
    requires FileInv(f) && i == f.next
    ensures Evolves(f, Published(f, i, q, r), false)
  {}

  lemma NotifyCounts(f: File)
    requires f.notify == f.incs % U32
    ensures (f.notify + 1) % U32 == (f.incs + 1) % U32
  {}

  lemma Notify(f: File)
    requires FileInv(f)
    ensures FileInv(Notified(f))
  {
    NotifyCounts(f);
  }

  lemma AddNotifyEvolves(f: File)
    requires FileInv(f)
    ensures Evolves(f, Notified(f), false)
  {}

  lemma Unchanged(f: File)
    requires FileInv(f)
    ensures Evolves(f, f, false)
  {}

  // ---- commit_slot and the copy, one stage each ---------------------------------------------------

  ghost predicate At(f: File, w: Writer, i: nat, q: u32, st: Stage) {
    FileInv(f) && WriterInv(f, w) && w.pc == Filling(i, q, st)
  }

  lemma FillKeepsFile(f: File, w: Writer, i: nat, q: u32, st: Stage)
    requires At(f, w, i, q, st) && !st.Open? && !st.PutTs?
    ensures FileInv(FillFile(f, w.gen, i, q, st))
  {
    hide SeqInv, OddInv, LatestInv, LogInv;
    match st
    case Begun(_) => StoreOdd(f, i, q);
    case Copying(data, k) => if k < |data| { BodyStore(f, i, META + k, [data[k]]); }
    case PutGen(_) => BodyStore(f, i, 0, LittleEndian(w.gen, 4));
    case PutLen(pay) => BodyStore(f, i, 12, LittleEndian(|pay|, 4));
    case PutSeq(_, _) => StoreEven(f, i, q);
    case PutLatest(pay, ts) => Publish(f, i, q, Record(w.gen, ts, pay));
  }

  lemma FillEvolves(f: File, w: Writer, i: nat, q: u32, st: Stage)
    requires At(f, w, i, q, st) && !st.Open? && !st.PutTs?
    ensures Evolves(f, FillFile(f, w.gen, i, q, st), false)
  {
    match st
    case Begun(_) => StoreOddEvolves(f, i, q);
    case Copying(data, k) => if k < |data| { BodyStoreEvolves(f, i, META + k, [data[k]]); }
    case PutGen(_) => BodyStoreEvolves(f, i, 0, LittleEndian(w.gen, 4));
    case PutLen(pay) => BodyStoreEvolves(f, i, 12, LittleEndian(|pay|, 4));
    case PutSeq(_, _) => StoreEvenEvolves(f, i, q);
    case PutLatest(pay, ts) => PublishEvolves(f, i, q, Record(w.gen, ts, pay));
  }

  lemma CopyByte(b: seq<byte>, data: seq<byte>, k: nat)
    requires k < |data| && META + |data| <= |b| && b[META..META + k] == data[..k]
    ensures Put(b, META + k, [data[k]])[META..META + (k + 1)] == data[..k + 1]
  {
    var b' := Put(b, META + k, [data[k]]);
    assert b'[META..META + (k + 1)] == b[META..META + k] + [data[k]];
  }

  lemma PutGenBytes(b: seq<byte>, n: nat, bs: seq<byte>)
    requires |bs| == 4 && META + n <= |b|
    ensures Put(b, 0, bs)[..4] == bs
    ensures Put(b, 0, bs)[META..META + n] == b[META..META + n]
  {}

  lemma PutLenBytes(b: seq<byte>, n: nat, bs: seq<byte>)
    requires |bs| == 4 && META + n <= |b|
    ensures Put(b, 12, bs)[..4] == b[..4] && Put(b, 12, bs)[12..16] == bs
    ensures Put(b, 12, bs)[META..META + n] == b[META..META + n]
  {}

  lemma PutTsBytes(b: seq<byte>, n: nat, bs: seq<byte>)
    requires |bs| == 8 && META + n <= |b|
    ensures Put(b, 4, bs)[..4] == b[..4] && Put(b, 4, bs)[4..12] == bs && Put(b, 4, bs)[12..16] == b[12..16]
    ensures Put(b, 4, bs)[META..META + n] == b[META..META + n]
  {}

  /** The body facts the next stage starts from. */
  lemma CopyFills(f: File, w: Writer, i: nat, q: u32, data: seq<byte>, k: nat)
    requires At(f, w, i, q, Copying(data, k))
    ensures var g := FillFile(f, w.gen, i, q, Copying(data, k));
            Shape(g) && Filled(g, w.gen, i, NextStage(Copying(data, k)))
  {
    if k < |data| { CopyByte(f.slots[i].body, data, k); } else { assert data[..k] == data; }
  }

  lemma FieldFills(f: File, w: Writer, i: nat, q: u32, st: Stage)
    requires At(f, w, i, q, st) && (st.PutGen? || st.PutLen?)
    ensures var g := FillFile(f, w.gen, i, q, st);
            Shape(g) && Filled(g, w.gen, i, NextStage(st))
  {
    var b := f.slots[i].body;
    match st
    case PutGen(pay) => PutGenBytes(b, |pay|, LittleEndian(w.gen, 4));
    case PutLen(pay) => PutLenBytes(b, |pay|, LittleEndian(|pay|, 4));
  }

  lemma CopyKeepsHandle(f: File, w: Writer, i: nat, q: u32, data: seq<byte>, k: nat)
    requires At(f, w, i, q, Copying(data, k))
    ensures var g := FillFile(f, w.gen, i, q, Copying(data, k));
            Shape(g) && WriterInv(g, w.(pc := Filling(i, q, NextStage(Copying(data, k)))))
  {
    CopyFills(f, w, i, q, data, k);
    hide SeqInv, OddInv, LatestInv, LogInv, NotifyInv, Put, LittleEndian, Image;
  }

  lemma FieldKeepsHandle(f: File, w: Writer, i: nat, q: u32, st: Stage)
    requires At(f, w, i, q, st) && (st.PutGen? || st.PutLen?)
    ensures var g := FillFile(f, w.gen, i, q, st);
            Shape(g) && WriterInv(g, w.(pc := Filling(i, q, NextStage(st))))
  {
    FieldFills(f, w, i, q, st);
    hide SeqInv, OddInv, LatestInv, LogInv, NotifyInv, Put, LittleEndian;
  }

  lemma SeqKeepsHandle(f: File, w: Writer, i: nat, q: u32, st: Stage)
    requires At(f, w, i, q, st) && (st.Begun? || st.PutSeq?)
    ensures var g := FillFile(f, w.gen, i, q, st);
            Shape(g) && WriterInv(g, w.(pc := Filling(i, q, NextStage(st))))
  {}

  lemma FillKeepsHandle(f: File, w: Writer, i: nat, q: u32, st: Stage)
    requires At(f, w, i, q, st) && !st.Open? && !st.PutTs? && !st.PutLatest?
    ensures var g := FillFile(f, w.gen, i, q, st);
            Shape(g) && WriterInv(g, w.(pc := Filling(i, q, NextStage(st))))
  {
    if st.Copying? { CopyKeepsHandle(f, w, i, q, st.data, st.k); }
    else if st.PutGen? || st.PutLen? { FieldKeepsHandle(f, w, i, q, st); }
    else { SeqKeepsHandle(f, w, i, q, st); }
  }

  lemma PublishKeepsHandle(f: File, w: Writer, i: nat, q: u32, st: Stage)
    requires At(f, w, i, q, st) && st.PutLatest?
    ensures var g := FillFile(f, w.gen, i, q, st);
            Shape(g) && WriterInv(g, PublishedHandle(w, i, f.notifyOn))
  {}

  lemma BeginKeeps(f: File, w: Writer, src: Source)
    requires AgentInv(f, Writing(w)) && WEnabled(f, w, Begin(src))
    ensures AgentInv(f, Writing(WHandle(f, w, Begin(src))))
  {
    if w.latest.Some? {
      AfterIsMod(w.latest.value, |f.slots|);
    }
    var i := TargetSlot(w, |f.slots|);
    assert i == f.next;
    SeqParity(f.commits[i], f.odd[i]);
    SeqOdd(f.commits[i]);
  }

  lemma AppStoreKeepsFile(f: File, w: Writer, i: nat, q: u32, k: nat, b: byte)
    requires At(f, w, i, q, Open) && k < f.cap
    ensures FileInv(SetBody(f, i, META + k, [b]))
  {
    hide SeqInv, OddInv, LatestInv, LogInv, NotifyInv;
    BodyStore(f, i, META + k, [b]);
  }

  lemma AppStoreKeepsHandle(f: File, w: Writer, i: nat, q: u32, k: nat, b: byte)
    requires At(f, w, i, q, Open) && k < f.cap
    ensures Shape(SetBody(f, i, META + k, [b])) && WriterInv(SetBody(f, i, META + k, [b]), w)
  {}

  lemma CommitKeeps(f: File, w: Writer, len: nat)
    requires AgentInv(f, Writing(w)) && WEnabled(f, w, Commit(len))
    ensures AgentInv(f, Writing(WHandle(f, w, Commit(len))))
  {}

  lemma AbortKeeps(f: File, w: Writer)
    requires AgentInv(f, Writing(w)) && WEnabled(f, w, Abort)
    ensures AgentInv(f, Writing(WHandle(f, w, Abort)))
  {}

  /** The three fields and the payload together are the record's image. */
  lemma BodyIsImage(b: seq<byte>, r: Record)
    requires |r.bytes| < U32 && META + |r.bytes| <= |b|
    requires b[..4] == LittleEndian(r.gen, 4) && b[4..12] == LittleEndian(r.ts, 8)
    requires b[12..16] == LittleEndian(|r.bytes|, 4) && b[META..META + |r.bytes|] == r.bytes
    ensures Image(r) <= b
  {
    var n := META + |r.bytes|;
    calc {
      b[..n];
    ==  { assert b[..n] == b[..16] + b[16..n]; }
      b[..16] + b[16..n];
    ==  { assert b[..16] == b[..12] + b[12..16]; }
      b[..12] + b[12..16] + b[16..n];
    ==  { assert b[..12] == b[..4] + b[4..12]; }
      b[..4] + b[4..12] + b[12..16] + b[16..n];
    ==
      Image(r);
    }
  }

  lemma StampKeepsFile(f: File, w: Writer, i: nat, q: u32, pay: seq<byte>, t: u64)
    requires At(f, w, i, q, PutTs(pay)) && f.clock <= t
    ensures FileInv(Stamped(f, i, t))
  {
    BodyStore(f, i, 4, LittleEndian(t, 8));
    ClockAdvances(SetBody(f, i, 4, LittleEndian(t, 8)), t);
  }

  lemma ClockAdvances(f: File, t: u64)
    requires FileInv(f) && f.clock <= t
    ensures FileInv(f.(clock := t))
  {}

  lemma StampEvolves(f: File, w: Writer, i: nat, q: u32, pay: seq<byte>, t: u64)
    requires At(f, w, i, q, PutTs(pay))
    ensures Evolves(f, Stamped(f, i, t), false)
  {
    BodyStoreEvolves(f, i, 4, LittleEndian(t, 8));
  }

  lemma StampKeepsHandle(f: File, w: Writer, i: nat, q: u32, pay: seq<byte>, t: u64)
    requires At(f, w, i, q, PutTs(pay)) && f.clock <= t
    ensures Shape(Stamped(f, i, t)) && WriterInv(Stamped(f, i, t), w.(pc := Filling(i, q, PutSeq(pay, t))))
  {
    PutTsBytes(f.slots[i].body, |pay|, LittleEndian(t, 8));
    BodyIsImage(Put(f.slots[i].body, 4, LittleEndian(t, 8)), Record(w.gen, t, pay));
  }

  lemma NotifyKeepsHandle(f: File, w: Writer)
    requires FileInv(f) && WriterInv(f, w) && w.pc.AddNotify?
    ensures Shape(Notified(f)) && WriterInv(Notified(f), w.(pc := WakeAll))
  {}

  lemma WakeKeeps(f: File, w: Writer)
    requires FileInv(f) && WriterInv(f, w) && w.pc.WakeAll?
    ensures AgentInv(Awakened(f), Writing(w.(gen := NextGen(w.gen), pc := Idle)))
  {}

  lemma WakeEvolves(f: File)
    requires FileInv(f)
    ensures Evolves(f, Awakened(f), true)
  {}

  // ---- all actions --------------------------------------------------------------------------------

  /** True of the action that wakes the waiters of the file. */
  predicate Wakes(w: Writer, a: WAct) {
    a.Store? && w.pc.WakeAll?
  }

  lemma StoreKeeps(f: File, w: Writer)
    requires AgentInv(f, Writing(w)) && WEnabled(f, w, Store)
    ensures AgentInv(WFile(f, w, Store), Writing(WHandle(f, w, Store)))
  {
    hide FileInv, WriterInv, FillFile, NextStage, PublishedHandle, Notified;
    match w.pc
    case Filling(i, q, st) =>
      FillKeepsFile(f, w, i, q, st);
      if st.PutLatest? { PublishKeepsHandle(f, w, i, q, st); } else { FillKeepsHandle(f, w, i, q, st); }
    case AddNotify =>
      Notify(f);
      NotifyKeepsHandle(f, w);
    case WakeAll => WakeKeeps(f, w);
  }

  /** Every action of the writer keeps the channel invariant. */
  lemma WriterKeeps(f: File, w: Writer, a: WAct)
    requires AgentInv(f, Writing(w)) && WEnabled(f, w, a)
    ensures AgentInv(WFile(f, w, a), Writing(WHandle(f, w, a)))
  {
    if a.Store? {
      hide *;
      StoreKeeps(f, w);
    } else {
      OtherKeeps(f, w, a);
    }
  }

  lemma OtherKeeps(f: File, w: Writer, a: WAct)
    requires AgentInv(f, Writing(w)) && WEnabled(f, w, a) && !a.Store?
    ensures AgentInv(WFile(f, w, a), Writing(WHandle(f, w, a)))
  {
    hide FileInv, WriterInv, SetBody, Stamped, PcFits;
    match a
    case Begin(src) => BeginKeeps(f, w, src);
    case Commit(len) => CommitKeeps(f, w, len);
    case Abort => AbortKeeps(f, w);
    case AppStore(k, b) =>
      AppStoreKeepsFile(f, w, w.pc.i, w.pc.q, k, b);
      AppStoreKeepsHandle(f, w, w.pc.i, w.pc.q, k, b);
    case Stamp(t) =>
      StampKeepsFile(f, w, w.pc.i, w.pc.q, w.pc.st.pay, t);
      StampKeepsHandle(f, w, w.pc.i, w.pc.q, w.pc.st.pay, t);
  }

  /** Every action of the writer is tolerable to readers. */
  lemma WriterEvolves(f: File, w: Writer, a: WAct)
    requires AgentInv(f, Writing(w)) && WEnabled(f, w, a)
    ensures Evolves(f, WFile(f, w, a), Wakes(w, a))
  {
    hide FileInv, WriterInv, FillFile, SetBody, Stamped, Evolves, Notified;
    if w.pc.Filling? && (a.AppStore? || a.Stamp?) { OddTarget(f, w); }
    match a
    case Begin(_) => Unchanged(f);
    case Commit(_) => Unchanged(f);
    case Abort => Unchanged(f);
    case AppStore(k, b) => BodyStoreEvolves(f, w.pc.i, META + k, [b]);
    case Stamp(t) => StampEvolves(f, w, w.pc.i, w.pc.q, w.pc.st.pay, t);
    case Store =>
      match w.pc
      case Filling(i, q, st) => FillEvolves(f, w, i, q, st);
      case AddNotify => AddNotifyEvolves(f);
      case WakeAll => WakeEvolves(f);
  }

  /** The slot being filled is the next one, and odd. */
  lemma OddTarget(f: File, w: Writer)
    requires AgentInv(f, Writing(w)) && w.pc.Filling? && (w.pc.st.Open? || w.pc.st.PutTs?)
    ensures w.pc.i < |f.slots| == |f.odd| && w.pc.i == f.next && f.odd[w.pc.i]
  {}

  // ---- retire, crash, reuse, create ---------------------------------------------------------

  lemma RetireNotify(f: File)
    requires FileInv(f)
    ensures FileInv(RetireFile(f, AddRetireNotify))
  {
    NotifyCounts(f);
  }

  lemma RetireKeepsFile(f: File, st: RetireStage)
    requires AgentInv(f, Retiring(st))
    ensures FileInv(RetireFile(f, st))
  {
    match st
    case SetRetired => FlagOnly(f, RetireFile(f, st));
    case AddRetireNotify => RetireNotify(f);
    case WakeRetired => FlagOnly(f, RetireFile(f, st));
  }

  /** The RETIRED bit and the record of a wake-up are in no invariant of the file itself. */
  lemma FlagOnly(f: File, g: File)
    requires FileInv(f) && g == f.(retired := g.retired, unnotified := g.unnotified, unwoken := g.unwoken, lost := g.lost)
    requires f.unnotified ==> g.unnotified
    ensures FileInv(g)
  {}

  lemma RetireEvolves(f: File, st: RetireStage)
    requires AgentInv(f, Retiring(st))
    ensures Evolves(f, RetireFile(f, st), st.WakeRetired?)
  {
    hide SeqInv, OddInv, LatestInv, LogInv, WriterInv, After;
  }

  lemma RetireKeeps(f: File, st: RetireStage)
    requires AgentInv(f, Retiring(st))
    ensures AgentInv(RetireFile(f, st), RetireAgent(st))
  {
    RetireKeepsFile(f, st);
  }

  lemma StartRetire(f: File)
    requires AgentInv(f, NoAgent)
    ensures AgentInv(f, Retiring(SetRetired))
  {}

  /** A crash or close at any point leaves a sound file: the value of `latest` is the old or the new one. */
  lemma CrashKeeps(f: File, a: Agent)
    requires AgentInv(f, a)
    ensures AgentInv(CrashFile(f, a), NoAgent)
    ensures Evolves(f, CrashFile(f, a), false)
    ensures CrashFile(f, a).slots == f.slots && CrashFile(f, a).latest == f.latest && CrashFile(f, a).log == f.log
  {
    LostOnly(f, CrashFile(f, a));
    LostEvolves(f, CrashFile(f, a));
    hide FileInv, Evolves;
  }

  lemma LostOnly(f: File, g: File)
    requires FileInv(f) && g == f.(lost := g.lost)
    ensures FileInv(g)
  {}

  lemma LostEvolves(f: File, g: File)
    requires FileInv(f) && g == f.(lost := g.lost)
    ensures Evolves(f, g, false)
  {}

  /** `latest` names the even slot that begins with the image of the last publish, with its commit count. */
  lemma LatestHolds(f: File)
    requires FileInv(f)
    ensures Live(f) ==> (f.latest == NONE <==> f.log == [])
    ensures LatestValid(f.latest, |f.slots|)
    ensures f.log != [] ==>
      var j := LatestSlot(f.latest);
      && j == CurSlot(f) && MetaGen(f.slots[j].body) == f.log[|f.log| - 1].gen
      && f.slots[j].seqno % 2 == 0 && f.latest == Latest(j, f.slots[j].seqno) && f.latest / 16 == f.commits[j] % TAGS
      && |f.log[|f.log| - 1].bytes| <= f.cap && Image(f.log[|f.log| - 1]) <= f.slots[j].body
  {
    if f.log != [] {
      var j := CurSlot(f);
      LatestDecodes(j, f.slots[j].seqno, |f.slots|);
      SeqParity(f.commits[j], false);
      TagOfCommits(f.commits[j]);
      ImageDecodes(f.log[|f.log| - 1], f.slots[j].body);
    }
  }

  /** Reuse: the new handle continues where the crashed or closed one stopped. */
  lemma ReuseKeeps(f: File, random: u32)
    requires AgentInv(f, NoAgent) && !f.retired && random != 0
    ensures f.latest != NONE ==> LatestSlot(f.latest) < |f.slots|
    ensures AgentInv(f, Writing(Reopen(f, random)))
  {
    LatestHolds(f);
  }

  lemma FreshIsSound(cap: nat, n: nat, payloadType: u32, notifyOn: bool, minor: nat, clock: u64)
    requires cap <= MAX_CAPACITY && MIN_SLOTS <= n <= MAX_SLOTS
    ensures AgentInv(Fresh(cap, n, payloadType, notifyOn, minor, clock), NoAgent)
  {}
}
