// With nobody storing, the first attempt of a read decides and a wait sees at once whether the
// value is another than the one it knows; and the version check is
// exactly a comparison of commit counts modulo 2^27.
module RingQuiet {
  import opened Bytes
  import opened Layout
  import opened Ring
  import opened RingInvariant
  import opened RingWriter
  import opened RingReader
  import opened RingReading

  /** `k` loads of a reader while the file does not change. */
  function Loads(f: File, r: Reader, k: nat): Reader
    decreases k
  {
    if k == 0 || !RReady(f, r) then r else Loads(f, RNext(f, r), k - 1)
  }

  /** A call inside the mapped file, about to load `latest` for the first time. */
  function NewCall(f: File, op: Op): Reader {
    Reader(op, LoadLatest, 0, NONE, 0, 0, [], 0, |f.log|, 0, 0, 0, 0, 0, 0, 0, true)
  }

  /** The bytes a read of `rec` copies in all. */
  function CopyTotal(op: Op, rec: Record): nat {
    if op.Read? && |rec.bytes| <= op.size then META + |rec.bytes| else META
  }

  function ResultFor(op: Op, rec: Record): Outcome
    requires |rec.bytes| < U32
  {
    if op.Read? && |rec.bytes| > op.size then TooSmall(rec.gen, rec.ts, |rec.bytes|)
    else Value(rec.gen, rec.ts, |rec.bytes|, if op.Read? then rec.bytes else [])
  }

  /** Where a call of `op` is once it has read `rec`: a wait that knows the value goes on to sleep. */
  function PcFor(op: Op, rec: Record): RPc
    requires |rec.bytes| < U32
  {
    if op.Wait? && rec.gen == op.last then Futex(ResultFor(op, rec)) else Finished(ResultFor(op, rec))
  }

  /** A reader copying from the slot that holds `rec`. */
  ghost predicate CopyingFrom(f: File, r: Reader, rec: Record) {
    && Shape(f) && r.pc.Copy? && r.i < |f.slots|
    && f.slots[r.i].seqno == r.q1 && r.c0 == f.commits[r.i]
    && |rec.bytes| <= f.cap && Image(rec) <= f.slots[r.i].body
    && |r.got| <= CopyTotal(r.op, rec) && r.got <= f.slots[r.i].body
  }

  lemma WantedIs(f: File, r: Reader, rec: Record)
    requires CopyingFrom(f, r, rec)
    ensures |r.got| <= Wanted(f, r)
    ensures |r.got| == Wanted(f, r) <==> |r.got| == CopyTotal(r.op, rec)
    ensures |r.got| >= META ==> MetaGen(r.got) == rec.gen && MetaTs(r.got) == rec.ts && MetaLen(r.got) == |rec.bytes|
  {
    if |r.got| >= META {
      ImageDecodes(rec, r.got);
    }
  }

  lemma LastLook(f: File, r: Reader, rec: Record)
    requires CopyingFrom(f, r, rec) && |r.got| == CopyTotal(r.op, rec)
    ensures RReady(f, r) && RNext(f, r).pc == PcFor(r.op, rec) && RNext(f, r).attempt == r.attempt
    ensures RNext(f, r).ok && RNext(f, r).n == r.n
  {
    WantedIs(f, r, rec);
    if r.op.Read? && |rec.bytes| <= r.op.size {
      assert r.got == Image(rec);
    }
    assert Image(rec)[META..] == rec.bytes;
    assert r.op.Read? && |rec.bytes| <= r.op.size ==> r.got[META..] == rec.bytes;
    assert !r.op.Read? ==> r.got[META..] == [];
  }

  lemma {:induction false} CopyFinishes(f: File, r: Reader, rec: Record)
    requires CopyingFrom(f, r, rec)
    ensures var last := Loads(f, r, CopyTotal(r.op, rec) - |r.got| + 1);
            last.pc == PcFor(r.op, rec) && last.attempt == r.attempt && last.ok && last.n == r.n
    decreases CopyTotal(r.op, rec) - |r.got|
  {
    hide CopyingFrom, RReady, RNext, CopyTotal, PcFor;
    AtMostTotal(f, r, rec);
    if |r.got| == CopyTotal(r.op, rec) {
      LastLook(f, r, rec);
      assert Loads(f, RNext(f, r), 0) == RNext(f, r);
    } else {
      CopyMore(f, r, rec);
      CopyFinishes(f, RNext(f, r), rec);
    }
  }

  lemma AtMostTotal(f: File, r: Reader, rec: Record)
    requires CopyingFrom(f, r, rec)
    ensures |r.got| <= CopyTotal(r.op, rec)
  {}

  lemma CopyMore(f: File, r: Reader, rec: Record)
    requires CopyingFrom(f, r, rec) && |r.got| < CopyTotal(r.op, rec)
    ensures RReady(f, r) && CopyingFrom(f, RNext(f, r), rec)
    ensures |RNext(f, r).got| == |r.got| + 1 && RNext(f, r).op == r.op && RNext(f, r).attempt == r.attempt && RNext(f, r).n == r.n
  {
    WantedIs(f, r, rec);
    assert RNext(f, r) == r.(got := r.got + [f.slots[r.i].body[|r.got|]]);
  }

  /** The loads of `latest` and seq. */
  lemma TwoLoads(f: File, r0: Reader)
    requires FileInv(f) && f.log != [] && r0.pc.LoadLatest?
    ensures RReady(f, r0)
            && var r1 := RNext(f, r0);
               RReady(f, r1)
               && var r2 := RNext(f, r1);
                  && CopyingFrom(f, r2, f.log[|f.log| - 1]) && r2.got == []
                  && r2.op == r0.op && r2.attempt == r0.attempt && r2.n == r0.n
  {
    LatestHolds(f);
    var j := CurSlot(f);
    LatestDecodes(j, f.slots[j].seqno, |f.slots|);
    SeqParity(f.commits[j], f.odd[j]);
    var r1 := RNext(f, r0);
    assert r1 == LoadedLatest(f, r0) && r1.pc.LoadSeq? && r1.i == j;
    assert RNext(f, r1) == LoadedSeq(f, r1);
  }

  lemma LoadsTwice(f: File, r: Reader, k: nat)
    requires RReady(f, r) && RReady(f, RNext(f, r))
    ensures Loads(f, r, k + 2) == Loads(f, RNext(f, RNext(f, r)), k)
  {
    assert Loads(f, r, k + 2) == Loads(f, RNext(f, r), k + 1);
  }

  /** An attempt of any call that nobody disturbs ends with the last publish. */
  lemma QuietAttempt(f: File, r0: Reader)
    requires FileInv(f) && f.log != [] && r0.pc.LoadLatest?
    ensures var rec := f.log[|f.log| - 1];
            var last := Loads(f, r0, CopyTotal(r0.op, rec) + 3);
            |rec.bytes| <= f.cap < U32 && last.pc == PcFor(r0.op, rec) && last.attempt == r0.attempt && last.ok && last.n == r0.n
  {
    hide *;
    var rec := f.log[|f.log| - 1];
    TwoLoads(f, r0);
    RecordFits(f);
    CopyFinishes(f, RNext(f, RNext(f, r0)), rec);
    LoadsTwice(f, r0, CopyTotal(r0.op, rec) + 1);
  }

  /** The first attempt of a read or peek returns the latest value, or says that its buffer is too small. */
  lemma QuietRead(f: File, op: Op)
    requires FileInv(f) && f.log != [] && !op.Wait?
    ensures var rec := f.log[|f.log| - 1];
            var last := Loads(f, NewCall(f, op), CopyTotal(op, rec) + 3);
            |rec.bytes| <= f.cap && last.pc == Finished(ResultFor(op, rec)) && last.attempt == 0 && last.ok
  {
    hide FileInv, Loads, CopyTotal, ResultFor;
    QuietAttempt(f, NewCall(f, op));
  }

  /** A read or peek of a file that holds no value says so at its first load. */
  lemma QuietNoData(f: File, op: Op)
    requires FileInv(f) && Live(f) && f.log == [] && !op.Wait?
    ensures Loads(f, NewCall(f, op), 1).pc == Finished(NoData) && Loads(f, NewCall(f, op), 1).ok
  {
    LatestHolds(f);
    assert Loads(f, RNext(f, NewCall(f, op)), 0) == RNext(f, NewCall(f, op));
  }

  /** A wait inside the mapped file, about to load `notify`. */
  function NewWait(f: File, last: u32): Reader {
    NewCall(f, Wait(last)).(pc := LoadNotify)
  }

  /** The two loads before read_latest. */
  lemma WaitStarts(f: File, r0: Reader)
    requires FileInv(f) && f.notifyOn && !f.retired && r0.pc.LoadNotify?
    ensures RReady(f, r0) && RReady(f, RNext(f, r0))
    ensures var r2 := RNext(f, RNext(f, r0));
            r2.pc.LoadLatest? && r2.op == r0.op && r2.n == f.notify && r2.attempt == 0
  {}

  /**
   * A wait that nobody disturbs returns OK with the last publish if and only if its generation is
   * not the one the caller knows; otherwise it sleeps on the word as it is.
   */
  lemma QuietWait(f: File, last: u32)
    requires FileInv(f) && f.notifyOn && !f.retired && f.log != []
    ensures var rec := f.log[|f.log| - 1];
            var r := Loads(f, NewWait(f, last), META + 5);
            && |rec.bytes| <= f.cap < U32
            && (rec.gen != last <==> r.pc == Finished(Value(rec.gen, rec.ts, |rec.bytes|, [])))
            && (rec.gen == last <==> r.pc == Futex(Value(rec.gen, rec.ts, |rec.bytes|, [])))
            && (rec.gen == last ==> RReady(f, r) && RNext(f, r).pc.Asleep?)
            && r.ok
  {
    var rec := f.log[|f.log| - 1];
    var r0 := NewWait(f, last);
    var r2 := RNext(f, RNext(f, r0));
    WaitStarts(f, r0);
    QuietAttempt(f, r2);
    assert CopyTotal(r2.op, rec) == META;
    LoadsTwice(f, r0, META + 3);
    assert ResultFor(r2.op, rec) == Value(rec.gen, rec.ts, |rec.bytes|, []);
  }

  /** With no value yet a wait sleeps; on a retired file it starts over; without notifications it refuses. */
  lemma QuietWaitOther(f: File, last: u32)
    requires FileInv(f) && Live(f)
    ensures !f.notifyOn ==> Loads(f, NewWait(f, last), 1).pc == Finished(NotSup) && Loads(f, NewWait(f, last), 1).ok
    ensures f.notifyOn && f.retired ==> Loads(f, NewWait(f, last), 2).pc.Restart?
    ensures f.notifyOn && !f.retired && f.log == [] ==> Loads(f, NewWait(f, last), 4).pc.Asleep?
  {
    var r0 := NewWait(f, last);
    var r1 := RNext(f, r0);
    LatestHolds(f);
    assert Loads(f, r0, 1) == Loads(f, r1, 0) == r1;
    if f.notifyOn {
      var r2 := RNext(f, r1);
      LoadsTwice(f, r0, 0);
      assert Loads(f, r2, 0) == r2;
      if !f.retired && f.log == [] {
        var r3 := RNext(f, r2);
        LoadsTwice(f, r0, 2);
        LoadsTwice(f, r2, 0);
        assert r3 == LoadedLatest(f, r2);
        assert Loads(f, RNext(f, r3), 0) == RNext(f, r3);
      }
    }
  }

  lemma RecordFits(f: File)
    requires FileInv(f) && f.log != []
    ensures |f.log[|f.log| - 1].bytes| <= f.cap < U32
  {}

  /** A failed attempt contains at least slot_count - 1 publishes. */
  lemma FailedAttempt(f: File, r: Reader)
    requires FileInv(f) && RInv(f, r) && RReady(f, r) && (r.pc.LoadSeq? || r.pc.Copy?)
    requires RNext(f, r).attempt == r.attempt + 1
    ensures |f.log| - r.base >= |f.slots| - 1
  {
    if r.pc.LoadSeq? {
      SeqParity(f.commits[r.i], f.odd[r.i]);
    } else if |r.got| == Wanted(f, r) {
      RecheckFails(f, r);
    }
  }

  /**
   * The check of `latest` against seq accepts a slot exactly when it is even and was committed a
   * multiple of 2^27 times since `latest` was loaded: below 2^27, exactly when it is untouched.
   */
  lemma VersionCheckExact(f: File, r: Reader)
    requires FileInv(f) && r.pc.LoadSeq? && RInv(f, r)
    ensures LoadedSeq(f, r).pc.Copy? <==> !f.odd[r.i] && (f.commits[r.i] - r.c0) % TAGS == 0
    ensures f.commits[r.i] < r.c0 + TAGS ==> (LoadedSeq(f, r).pc.Copy? <==> Untouched(f, r.i, r.c0))
  {
    hide SeqWord, Latest;
    var c := f.commits[r.i];
    assert f.slots[r.i].seqno == SeqWord(c, f.odd[r.i]) && r.l == Latest(r.i, SeqWord(r.c0, false));
    CheckExact(r.i, r.c0, c, f.odd[r.i]);
    SmallDifference(c - r.c0);
  }

  lemma CheckExact(i: nat, c0: nat, c: nat, odd: bool)
    requires i < MAX_SLOTS && c0 <= c
    ensures SeqWord(c, odd) % 2 == 0 && Latest(i, SeqWord(c, odd)) == Latest(i, SeqWord(c0, false))
            <==> !odd && (c - c0) % TAGS == 0
  {
    SeqParity(c, odd);
    TagOfCommits(c);
    TagOfCommits(c0);
    LatestInjective(i, SeqWord(c, false), i, SeqWord(c0, false));
    SameTagExact(c0, c);
  }

  lemma SmallDifference(d: nat)
    ensures d < TAGS ==> (d % TAGS == 0 <==> d == 0)
  {}

  lemma SameTagExact(c0: nat, c: nat)
    requires c0 <= c
    ensures c0 % TAGS == c % TAGS <==> (c - c0) % TAGS == 0
  {}
}
