// Readers of a data file: read_latest and the wait loop around it, as atomic loads.
module RingReader {
  import opened Bytes
  import opened Layout
  import opened Ring

  datatype Op = Read(size: u32) | Peek | Wait(last: u32)

  datatype Outcome =
    | Value(gen: u32, ts: u64, len: u32, bytes: seq<byte>)
    | TooSmall(gen: u32, ts: u64, len: u32)
    | NoData
    | Busy
    | Format
    | NotSup
    | TimedOut

  /** The load a reader executes next. */
  datatype RPc =
    | LoadNotify             // wait: `notify`, before anything else
    | CheckRetired           // wait: the RETIRED bit
    | LoadLatest             // read_latest: the top of an attempt
    | LoadSeq
    | Copy                   // one byte of the slot per step, then the second load of seq
    | Futex(o: Outcome)      // wait: nothing new, about to compare `notify` and sleep
    | Asleep
    | Restart                // wait: back to the top of its loop
    | Finished(o: Outcome)

  /**
   * A reader inside a call. History: `first` and `base` are the numbers of publishes
   * when read_latest started and when the current attempt loaded `latest`, `fin` when
   * it returned; `c0` and `c1` the slot's commits at the loads of `latest` and `seq`; `nInc`, `nAck` and
   * `nLog` the file's counts at the load of `notify`. `ok` says the counters did not
   * wrap: fewer than 2^27 commits of the slot during the attempt, fewer than 2^32
   * increments of `notify` before sleeping.
   */
  datatype Reader = Reader(
    op: Op, pc: RPc, attempt: nat, l: u32, i: nat, q1: u32, got: seq<byte>, n: u32,
    first: nat, base: nat, fin: nat, c0: nat, c1: nat, nInc: nat, nAck: nat, nLog: nat, ok: bool)

  /** How many slot bytes the attempt copies: the header fields, then the payload if it is wanted and fits. */
  function Wanted(f: File, r: Reader): nat {
    if |r.got| >= META && r.op.Read? && MetaLen(r.got) <= r.op.size && MetaLen(r.got) <= f.cap
    then META + MetaLen(r.got) else META
  }

  /** What read_latest reports for a copy that passed its second look at seq. */
  function Report(f: File, r: Reader): Outcome
    requires |r.got| >= META
  {
    var gen, ts, len := MetaGen(r.got), MetaTs(r.got), MetaLen(r.got);
    if len > f.cap then Format
    else if r.op.Read? && len > r.op.size then TooSmall(gen, ts, len)
    else Value(gen, ts, len, r.got[META..])
  }

  /** read_latest returned `o`. */
  function Returned(f: File, r: Reader, o: Outcome): Reader {
    if r.op.Wait? && !o.Format? && !(o.Value? && o.gen != r.op.last) then r.(pc := Futex(o), fin := |f.log|)
    else r.(pc := Finished(o), fin := |f.log|)
  }

  /** The attempt failed. */
  function Retry(f: File, r: Reader): Reader {
    if r.attempt + 1 < READ_RETRIES then r.(pc := LoadLatest, attempt := r.attempt + 1)
    else Returned(f, r.(attempt := r.attempt + 1), Busy)
  }

  predicate RReady(f: File, r: Reader) {
    && !r.pc.Asleep? && !r.pc.Restart? && !r.pc.Finished?
    && |f.slots| <= MAX_SLOTS && |f.commits| == |f.slots|
    && (r.pc.LoadSeq? || r.pc.Copy? ==> r.i < |f.slots| && |f.slots[r.i].body| == META + f.cap)
    && (r.pc.Copy? ==> |r.got| <= Wanted(f, r))
  }

  function LoadedNotify(f: File, r: Reader): Reader {
    r.(pc := CheckRetired, n := f.notify, nInc := f.incs, nAck := f.acked, nLog := |f.log|)
  }

  function StartRead(f: File, r: Reader): Reader {
    r.(pc := LoadLatest, attempt := 0, first := |f.log|)
  }

  function LoadedLatest(f: File, r: Reader): Reader
    requires |f.slots| == |f.commits|
  {
    var r' := r.(l := f.latest, base := |f.log|, ok := true);
    if f.latest == NONE then Returned(f, r', NoData)
    else if !LatestValid(f.latest, |f.slots|) then Returned(f, r', Format)
    else
      var i := LatestSlot(f.latest);
      r'.(pc := LoadSeq, i := i, c0 := f.commits[i])
  }

  function LoadedSeq(f: File, r: Reader): Reader
    requires r.i < |f.slots| == |f.commits| && |f.slots| <= MAX_SLOTS
  {
    var s := f.slots[r.i].seqno;
    if s % 2 == 0 && Latest(r.i, s) == r.l then r.(pc := Copy, q1 := s, got := [], c1 := f.commits[r.i])
    else Retry(f, r)
  }

  function Rechecked(f: File, r: Reader): Reader
    requires r.i < |f.slots| == |f.commits| && |r.got| >= META
  {
    if f.slots[r.i].seqno == r.q1
    then Returned(f, r.(ok := f.commits[r.i] < r.c0 + TAGS), Report(f, r))
    else Retry(f, r)
  }

  /** FUTEX_WAIT: an atomic compare-and-sleep. */
  function Slept(f: File, r: Reader): Reader {
    if f.notify == r.n then r.(pc := Asleep, ok := r.ok && f.incs < r.nInc + U32)
    else r.(pc := Restart)
  }

  /** One load of the reader. */
  function RNext(f: File, r: Reader): Reader
    requires RReady(f, r)
  {
    match r.pc
    case LoadNotify => if f.notifyOn then LoadedNotify(f, r) else r.(pc := Finished(NotSup))
    case CheckRetired => if f.retired then r.(pc := Restart) else StartRead(f, r)
    case LoadLatest => LoadedLatest(f, r)
    case LoadSeq => LoadedSeq(f, r)
    case Copy =>
      if |r.got| < Wanted(f, r) then r.(got := r.got + [f.slots[r.i].body[|r.got|]])
      else Rechecked(f, r)
    case _ => Slept(f, r)
  }

  /** FUTEX_WAKE. */
  function Woken(r: Reader): Reader {
    if r.pc.Asleep? then r.(pc := Restart) else r
  }

  // ---- what a result means -------------------------------------------------------------------

  ghost predicate Matches(rec: Record, gen: u32, ts: u64, len: u32) {
    gen == rec.gen && ts == rec.ts && len == |rec.bytes|
  }

  /**
   * A call that found `first` publishes when it started, loaded `latest` after `base` of
   * them and returned `o` after `fin` of them: `o` is publish number `base - 1`, whole.
   */
  ghost predicate Explained(f: File, op: Op, o: Outcome, first: nat, base: nat, fin: nat, ok: bool) {
    && (o.Value? || o.TooSmall? || o.NoData? ==> first <= base <= fin)
    && (o.Value? || o.TooSmall? || o.NoData? || o.Busy? ==> fin <= |f.log|)
    && match o
       case Value(gen, ts, len, bytes) =>
         && base > 0
         && (op.Wait? ==> gen != op.last)
         && (ok ==>
               && Matches(f.log[base - 1], gen, ts, len)
               && (op.Read? ==> len <= op.size && bytes == f.log[base - 1].bytes))
       case TooSmall(gen, ts, len) =>
         op.Read? && base > 0 && len > op.size && (ok ==> Matches(f.log[base - 1], gen, ts, len))
       case NoData => base == 0
       case Busy => fin >= first + READ_RETRIES * (|f.slots| - 1)
       case Format => !ok
       case NotSup => op.Wait? && !f.notifyOn
       case TimedOut => op.Wait?
  }
}
