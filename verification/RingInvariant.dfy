// What every store of a writer or retirer keeps true of a data file.
module RingInvariant {
  import opened Bytes
  import opened Layout
  import opened Ring
  import Bits

  // ---- slots and sequence numbers -----------------------------------------------------

  ghost predicate Shape(f: File) {
    && MIN_SLOTS <= |f.slots| <= MAX_SLOTS
    && |f.commits| == |f.slots| == |f.odd|
    && f.cap <= MAX_CAPACITY
    && f.next < |f.slots|
    && forall j :: 0 <= j < |f.slots| ==> |f.slots[j].body| == META + f.cap
  }

  /** The slot of the last publish. */
  ghost function CurSlot(f: File): (j: nat)
    requires Shape(f)
    ensures j < |f.slots| && j != f.next && After(j, |f.slots|) == f.next
  {
    if f.next == 0 then |f.slots| - 1 else f.next - 1
  }

  ghost function SeqWord(c: nat, odd: bool): u32 {
    (2 * c + if odd then 1 else 0) % U32
  }

  /** A seq word is twice the slot's commit count, plus one while it is being written. */
  ghost predicate SeqInv(f: File)
    requires Shape(f)
  {
    forall j :: 0 <= j < |f.slots| ==>
      f.slots[j].seqno == SeqWord(f.commits[j], f.odd[j])
  }

  /** Publishes until slot `i` is the next one to be written. */
  ghost function Ahead(f: File, i: nat): int {
    if i >= f.next then i - f.next else i + |f.slots| - f.next
  }

  /** At most one slot is odd, and it is the next one to be written, but for slots not written since an adoption. */
  ghost predicate OddInv(f: File)
    requires Shape(f)
  {
    && (forall j :: 0 <= j < |f.slots| && j != f.next && j !in f.dirty ==> !f.odd[j])
    && (!f.adopted ==> f.dirty == {})
    && (forall j :: j in f.dirty ==> j < |f.slots| && Ahead(f, j) + |f.log| < |f.slots|)
  }

  /** The file holds values of its own: it was created empty, or published to since it was adopted. */
  ghost predicate Live(f: File) {
    f.adopted ==> f.log != []
  }

  /** `latest` names the even slot that holds the last publish, with its commit count. */
  ghost predicate LatestInv(f: File)
    requires Shape(f)
  {
    if f.log == [] then
      LatestValid(f.latest, |f.slots|) && (!f.adopted ==> f.latest == NONE)
      && f.next == (if f.latest == NONE then 0 else After(LatestSlot(f.latest), |f.slots|))
    else
      var j := CurSlot(f);
      var r := f.log[|f.log| - 1];
      && !f.odd[j]
      && f.latest == Latest(j, f.slots[j].seqno)
      && |r.bytes| <= f.cap
      && Image(r) <= f.slots[j].body
  }

  ghost predicate LogInv(f: File) {
    && (forall k :: 0 <= k < |f.log| ==> f.log[k].gen != 0 && |f.log[k].bytes| <= f.cap && f.log[k].ts <= f.clock)
    && (forall k :: 0 <= k < |f.log| - 1 ==> f.log[k + 1].gen == NextGen(f.log[k].gen))
    && (forall k, m :: 0 <= k < m < |f.log| ==> f.log[k].ts <= f.log[m].ts)
  }

  /** The futex word counts increments, and one is still to come after a publish it does not cover. */
  ghost predicate NotifyInv(f: File) {
    && f.notify == f.incs % U32
    && f.acked <= |f.log|
    && (f.notifyOn ==> |f.log| == f.acked || f.unnotified)
  }

  ghost predicate FileInv(f: File) {
    && Shape(f) && SeqInv(f) && OddInv(f) && LatestInv(f) && LogInv(f) && NotifyInv(f)
  }

  // ---- the agent ------------------------------------------------------------------------

  ghost predicate GenReady(f: File, w: Writer) {
    f.log != [] ==> w.gen == NextGen(f.log[|f.log| - 1].gen)
  }

  /** What the body of the open slot holds so far. */
  ghost predicate Filled(f: File, gen: u32, i: nat, st: Stage)
    requires Shape(f) && i < |f.slots| && |Payload(st)| <= f.cap
  {
    var b := f.slots[i].body;
    match st
    case Begun(_) => true
    case Open => true
    case Copying(data, k) => k <= |data| && b[META..META + k] == data[..k]
    case PutGen(pay) => b[META..META + |pay|] == pay
    case PutLen(pay) => b[META..META + |pay|] == pay && b[..4] == LittleEndian(gen, 4)
    case PutTs(pay) =>
      b[META..META + |pay|] == pay && b[..4] == LittleEndian(gen, 4) && b[12..16] == LittleEndian(|pay|, 4)
    case PutSeq(pay, ts) => Image(Record(gen, ts, pay)) <= b && Timely(f, ts)
    case PutLatest(pay, ts) => Image(Record(gen, ts, pay)) <= b && Timely(f, ts)
  }

  ghost predicate Timely(f: File, ts: u64) {
    ts <= f.clock && (f.log != [] ==> f.log[|f.log| - 1].ts <= ts)
  }

  ghost predicate PcInv(f: File, w: Writer)
    requires Shape(f) && PcFits(f, w.pc)
  {
    match w.pc
    case Idle => GenReady(f, w)
    case Filling(i, q, st) =>
      && GenReady(f, w)
      && i == f.next
      && (if st.PutLatest? then f.slots[i].seqno == (q + 2) % U32 && !f.odd[i]
          else q == SeqWord(f.commits[i], false) && (st.Begun? || f.odd[i]))
      && Filled(f, w.gen, i, st)
    case AddNotify => f.log != [] && w.gen == f.log[|f.log| - 1].gen && f.notifyOn
    case WakeAll => f.log != [] && w.gen == f.log[|f.log| - 1].gen && f.notifyOn && !f.unnotified
  }

  ghost predicate WriterInv(f: File, w: Writer)
    requires Shape(f)
  {
    && w.gen != 0
    && PcFits(f, w.pc)
    && w.latest == (if f.log != [] then Some(CurSlot(f)) else if f.latest == NONE then None else Some(LatestSlot(f.latest)))
    && !f.retired
    && PcInv(f, w)
    && (!f.lost ==> f.unnotified == w.pc.AddNotify? && f.unwoken == w.pc.WakeAll?)
  }

  ghost predicate AgentInv(f: File, a: Agent) {
    && FileInv(f)
    && match a
       case NoAgent => !f.lost ==> !f.unnotified && !f.unwoken
       case Writing(w) => WriterInv(f, w)
       case Retiring(st) =>
         && (st.WakeRetired? ==> !f.unnotified)
         && (!f.lost ==> f.unnotified == st.AddRetireNotify? && f.unwoken == st.WakeRetired?)
  }

  // ---- arithmetic ---------------------------------------------------------------------------

  /** begin_slot's `(latest + 1) % slot_count`. */
  lemma AfterIsMod(i: nat, n: nat)
    requires i < n
    ensures (i + 1) % n == After(i, n)
  {
    Bits.DivModUnique(i + 1, n, if i + 1 == n then 1 else 0, After(i, n));
  }

  /** Equal seq words with fewer than 2^27 commits between them: nothing was written in between. */
  lemma SeqMatch(c1: nat, c2: nat, odd: bool)
    requires c1 <= c2 < c1 + TAGS
    requires SeqWord(c2, odd) == SeqWord(c1, false)
    ensures c2 == c1 && !odd
  {
    var d := 2 * (c2 - c1) + if odd then 1 else 0;
    assert d < U32;
    assert (2 * c1 + d) % U32 == 2 * c1 % U32;
  }

  /** The tag of a slot's `latest` word is its commit count modulo 2^27. */
  lemma TagOfCommits(c: nat)
    ensures SeqWord(c, false) / 2 % TAGS == c % TAGS
  {
    var h := c / 0x8000_0000;
    var l := c % 0x8000_0000;
    Bits.DivModUnique(2 * c, U32, h, 2 * l);
    Bits.DivModUnique(c, TAGS, 16 * h + l / TAGS, l % TAGS);
  }

  lemma SeqBump(c: nat)
    ensures SeqWord(c + 1, false) == (SeqWord(c, false) + 2) % U32
  {}

  lemma SeqOdd(c: nat)
    ensures SeqWord(c, false) + 1 < U32
    ensures SeqWord(c, true) == SeqWord(c, false) + 1
  {
    var h, l := c / 0x8000_0000, c % 0x8000_0000;
    Bits.DivModUnique(2 * c, U32, h, 2 * l);
    Bits.DivModUnique(2 * c + 1, U32, h, 2 * l + 1);
  }

  /** The parity of a seq word tells whether the slot is being written; clearing it gives `open_seq`. */
  lemma SeqParity(c: nat, odd: bool)
    ensures SeqWord(c, odd) % 2 == if odd then 1 else 0
    ensures SeqWord(c, odd) / 2 * 2 == SeqWord(c, false)
  {}
}
