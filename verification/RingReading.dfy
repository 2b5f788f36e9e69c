// Whatever the writer does between a reader's loads, what the reader returns is a
// publish, whole; and a waiter sleeps only while nothing happened that it must see.
module RingReading {
  import opened Bytes
  import opened Layout
  import opened Ring
  import opened RingInvariant
  import opened RingWriter
  import opened RingReader

  // ---- what is true between two loads -----------------------------------------------------------

  /** The slot is as it was when the reader loaded `latest`. */
  ghost predicate Untouched(f: File, i: nat, c: nat)
    requires Shape(f) && i < |f.slots|
  {
    f.commits[i] == c && !f.odd[i]
  }

  /** After the load of `latest`: the slot named holds publish `base - 1` until it is opened again, a ring turn later. */
  ghost predicate NamedHolds(f: File, r: Reader)
    requires Shape(f)
  {
    && 0 < r.base <= |f.log|
    && r.i < |f.slots|
    && r.c0 <= f.commits[r.i]
    && r.l == Latest(r.i, SeqWord(r.c0, false))
    && |f.log[r.base - 1].bytes| <= f.cap
    && (Untouched(f, r.i, r.c0) ==> Image(f.log[r.base - 1]) <= f.slots[r.i].body)
    && (|f.log| < r.base + |f.slots| - 1 ==>
          Untouched(f, r.i, r.c0) && Ahead(f, r.i) == |f.slots| - 1 - (|f.log| - r.base))
  }

  /** After the load of seq: the bytes copied so far are the slot's, unless it was opened since. */
  ghost predicate Copied(f: File, r: Reader)
    requires Shape(f) && r.i < |f.slots|
  {
    && r.c0 <= r.c1 <= f.commits[r.i]
    && r.q1 == SeqWord(r.c1, false)
    && Latest(r.i, r.q1) == r.l
    && |r.got| <= Wanted(f, r)
    && (Untouched(f, r.i, r.c1) ==> r.got <= f.slots[r.i].body)
  }

  /** Each failed attempt so far took a whole turn of the ring but one slot. */
  ghost predicate Patient(f: File, r: Reader, seen: nat)
    requires Shape(f)
  {
    r.first <= r.first + r.attempt * (|f.slots| - 1) <= seen <= |f.log|
  }

  ghost predicate Reading(f: File, r: Reader)
    requires Shape(f)
  {
    && r.attempt < READ_RETRIES
    && (r.pc.LoadLatest? ==> Patient(f, r, |f.log|))
    && (r.pc.LoadSeq? ==> Patient(f, r, r.base) && NamedHolds(f, r))
    && (r.pc.Copy? ==> Patient(f, r, r.base) && NamedHolds(f, r) && Copied(f, r))
  }

  /** A waiter after its load of `notify`. */
  ghost predicate Watching(f: File, r: Reader) {
    && f.notifyOn
    && r.n == r.nInc % U32
    && r.nInc <= f.incs
    && (f.incs == r.nInc ==> f.acked == r.nAck)
    && r.nAck <= r.nLog <= |f.log|
  }

  /** A waiter that saw the RETIRED bit clear. */
  ghost predicate SeenLive(f: File, r: Reader) {
    && r.nLog <= r.first <= |f.log|
    && (f.retired && f.incs == r.nInc ==> f.unnotified)
  }

  /** read_latest told the waiter that nothing changed. */
  ghost predicate NothingNew(f: File, r: Reader, o: Outcome)
    requires r.op.Wait?
  {
    if o.Busy? then |f.log| >= r.first + READ_RETRIES
    else
      && r.first <= r.base <= |f.log|
      && (o.Value? || o.NoData?)
      && (r.base > 0 && r.ok ==> f.log[r.base - 1].gen == r.op.last)
  }

  /** A value other than the one the waiter knows, or a retired file. */
  ghost predicate Changed(f: File, last: u32) {
    (f.log != [] && f.log[|f.log| - 1].gen != last) || f.retired
  }

  ghost predicate RInv(f: File, r: Reader)
    requires Shape(f)
  {
    match r.pc
    case LoadNotify => r.op.Wait?
    case CheckRetired => r.op.Wait? && Watching(f, r)
    case LoadLatest => Reading(f, r) && (r.op.Wait? ==> Watching(f, r) && SeenLive(f, r))
    case LoadSeq => Reading(f, r) && (r.op.Wait? ==> Watching(f, r) && SeenLive(f, r))
    case Copy => Reading(f, r) && (r.op.Wait? ==> Watching(f, r) && SeenLive(f, r))
    case Futex(o) => r.op.Wait? && Watching(f, r) && SeenLive(f, r) && NothingNew(f, r, o)
    case Asleep => r.op.Wait? && f.notifyOn && (r.ok && Changed(f, r.op.last) ==> f.unnotified || f.unwoken)
    case Restart => r.op.Wait?
    case Finished(o) => Explained(f, r.op, o, r.first, r.base, r.fin, r.ok)
  }

  // ---- the writer's steps ---------------------------------------------------------------------------

  /** A slot opened by this step was a whole turn of the ring behind. */
  lemma NamedHoldsEvolves(f: File, g: File, r: Reader, wake: bool)
    requires FileInv(f) && FileInv(g) && Evolves(f, g, wake) && NamedHolds(f, r)
    ensures NamedHolds(g, r)
  {}

  lemma CopiedEvolves(f: File, g: File, r: Reader, wake: bool)
    requires Evolves(f, g, wake) && r.i < |f.slots| && Copied(f, r)
    ensures Copied(g, r)
  {}

  lemma WaitEvolves(f: File, g: File, r: Reader, wake: bool)
    requires FileInv(g) && Evolves(f, g, wake) && Watching(f, r)
    ensures Watching(g, r)
    ensures SeenLive(f, r) ==> SeenLive(g, r)
  {}

  lemma AsleepEvolves(f: File, g: File, r: Reader)
    requires Evolves(f, g, false) && r.pc.Asleep? && RInv(f, r)
    ensures RInv(g, r)
  {}

  lemma ExplainedEvolves(f: File, g: File, wake: bool, op: Op, o: Outcome, first: nat, base: nat, fin: nat, ok: bool)
    requires Evolves(f, g, wake) && Explained(f, op, o, first, base, fin, ok)
    ensures Explained(g, op, o, first, base, fin, ok)
  {}

  lemma ReadingEvolves(f: File, g: File, wake: bool, r: Reader)
    requires FileInv(f) && FileInv(g) && Evolves(f, g, wake) && Reading(f, r)
    requires r.pc.LoadLatest? || r.pc.LoadSeq? || r.pc.Copy?
    ensures Reading(g, r)
  {
    hide SeqInv, OddInv, LatestInv, LogInv, NotifyInv, NamedHolds, Copied;
    assert |f.slots| - 1 == |g.slots| - 1;
    if r.pc.LoadSeq? || r.pc.Copy? { NamedHoldsEvolves(f, g, r, wake); }
    if r.pc.Copy? { CopiedEvolves(f, g, r, wake); }
  }

  lemma ReadingPartEvolves(f: File, g: File, wake: bool, r: Reader)
    requires FileInv(f) && FileInv(g) && Evolves(f, g, wake) && RInv(f, r)
    requires r.pc.LoadLatest? || r.pc.LoadSeq? || r.pc.Copy?
    ensures RInv(g, r)
  {
    ReadingEvolves(f, g, wake, r);
    if r.op.Wait? { WaitEvolves(f, g, r, wake); }
  }

  lemma WaitingPartEvolves(f: File, g: File, wake: bool, r: Reader)
    requires FileInv(f) && FileInv(g) && Evolves(f, g, wake) && RInv(f, r)
    requires r.pc.LoadNotify? || r.pc.CheckRetired? || r.pc.Futex? || r.pc.Asleep? || r.pc.Restart?
    ensures RInv(g, if wake then Woken(r) else r)
  {
    if r.pc.CheckRetired? || r.pc.Futex? { WaitEvolves(f, g, r, wake); }
    if r.pc.Asleep? && !wake { AsleepEvolves(f, g, r); }
  }

  /** A reader's knowledge survives every step of the writer or retirer; the wake step wakes it. */
  lemma ReaderEvolves(f: File, g: File, wake: bool, r: Reader)
    requires FileInv(f) && FileInv(g) && Evolves(f, g, wake) && RInv(f, r)
    ensures RInv(g, if wake then Woken(r) else r)
  {
    if r.pc.LoadLatest? || r.pc.LoadSeq? || r.pc.Copy? {
      ReadingPartEvolves(f, g, wake, r);
    } else if r.pc.Finished? {
      ExplainedEvolves(f, g, wake, r.op, r.pc.o, r.first, r.base, r.fin, r.ok);
    } else {
      WaitingPartEvolves(f, g, wake, r);
    }
  }

  // ---- the reader's own loads ----------------------------------------------------------------------------

  ghost predicate WaitPart(f: File, r: Reader) {
    r.op.Wait? ==> Watching(f, r) && SeenLive(f, r)
  }

  /** The load of `latest` is the linearization point: the slot it names holds the last publish. */
  lemma LoadLatestKeeps(f: File, r: Reader)
    requires FileInv(f) && Live(f) && r.pc.LoadLatest? && RInv(f, r)
    ensures RInv(f, LoadedLatest(f, r))
  {
    LatestHolds(f);
    if f.log != [] {
      var j := CurSlot(f);
      assert f.slots[j].seqno == SeqWord(f.commits[j], false);
      assert NamedHolds(f, LoadedLatest(f, r));
    }
  }

  lemma NextTurn(a: nat, n: nat)
    requires n > 0
    ensures a * (n - 1) + (n - 1) == (a + 1) * (n - 1)
  {}

  lemma ManyTurns(n: nat)
    requires n >= MIN_SLOTS
    ensures READ_RETRIES * (n - 1) >= READ_RETRIES
  {}

  /** A failed attempt means the ring turned past the slot. */
  lemma RetryKeeps(f: File, r: Reader)
    requires FileInv(f) && r.attempt < READ_RETRIES && WaitPart(f, r)
    requires Patient(f, r, r.base) && |f.log| >= r.base + |f.slots| - 1
    ensures RInv(f, Retry(f, r))
  {
    NextTurn(r.attempt, |f.slots|);
    ManyTurns(|f.slots|);
  }

  lemma LoadSeqKeeps(f: File, r: Reader)
    requires FileInv(f) && r.pc.LoadSeq? && RInv(f, r)
    ensures RInv(f, LoadedSeq(f, r))
  {
    var c := f.commits[r.i];
    var s := f.slots[r.i].seqno;
    assert s == SeqWord(c, f.odd[r.i]);
    SeqParity(c, f.odd[r.i]);
    if s % 2 == 0 && Latest(r.i, s) == r.l {
      assert Copied(f, LoadedSeq(f, r));
    } else {
      RetryKeeps(f, r);
    }
  }

  lemma CopyByteCopied(f: File, r: Reader)
    requires Shape(f) && r.i < |f.slots| && Copied(f, r) && |r.got| < Wanted(f, r)
    ensures Copied(f, r.(got := r.got + [f.slots[r.i].body[|r.got|]]))
  {
    var r' := r.(got := r.got + [f.slots[r.i].body[|r.got|]]);
    if |r.got| >= META {
      assert r'.got[12..16] == r.got[12..16];
    }
  }

  lemma CopyByteKeeps(f: File, r: Reader)
    requires FileInv(f) && r.pc.Copy? && RInv(f, r) && |r.got| < Wanted(f, r)
    ensures RInv(f, r.(got := r.got + [f.slots[r.i].body[|r.got|]]))
  {
    CopyByteCopied(f, r);
  }

  /** Both looks at seq agree: with fewer than 2^27 commits meanwhile, the copy is publish `base - 1`. */
  lemma RecheckSound(f: File, r: Reader)
    requires FileInv(f) && r.pc.Copy? && RInv(f, r) && f.slots[r.i].seqno == r.q1
    requires f.commits[r.i] < r.c0 + TAGS
    ensures Untouched(f, r.i, r.c0) && r.c1 == r.c0
    ensures r.got <= f.slots[r.i].body && Image(f.log[r.base - 1]) <= f.slots[r.i].body
  {
    TagOfCommits(r.c0);
    TagOfCommits(r.c1);
    LatestInjective(r.i, SeqWord(r.c0, false), r.i, SeqWord(r.c1, false));
    SameTag(r.c0, r.c1);
    SeqMatch(r.c1, f.commits[r.i], f.odd[r.i]);
  }

  lemma SameTag(c0: nat, c1: nat)
    requires c0 <= c1 < c0 + TAGS && c0 % TAGS == c1 % TAGS
    ensures c0 == c1
  {}

  /** A copied prefix that covers the record decodes to it. */
  lemma CopyIsRecord(f: File, r: Reader, rec: Record, body: seq<byte>)
    requires |rec.bytes| <= f.cap < U32
    requires r.got <= body && Image(rec) <= body && |r.got| == Wanted(f, r)
    ensures |r.got| >= META && MetaGen(r.got) == rec.gen && MetaTs(r.got) == rec.ts && MetaLen(r.got) == |rec.bytes|
    ensures r.op.Read? && |rec.bytes| <= r.op.size ==> r.got[META..] == rec.bytes
  {
    ImageDecodes(rec, r.got);
    if r.op.Read? && |rec.bytes| <= r.op.size {
      assert r.got == Image(rec);
      assert Image(rec)[META..] == rec.bytes;
    }
  }

  /** The record that the copy passes for, when the counters did not wrap. */
  lemma CopySound(f: File, r: Reader)
    requires FileInv(f) && r.pc.Copy? && RInv(f, r) && |r.got| == Wanted(f, r)
    requires f.slots[r.i].seqno == r.q1 && f.commits[r.i] < r.c0 + TAGS
    ensures Matches(f.log[r.base - 1], MetaGen(r.got), MetaTs(r.got), MetaLen(r.got)) && MetaLen(r.got) <= f.cap
    ensures r.op.Read? && MetaLen(r.got) <= r.op.size ==> r.got[META..] == f.log[r.base - 1].bytes
  {
    RecheckSound(f, r);
    CopyIsRecord(f, r, f.log[r.base - 1], f.slots[r.i].body);
  }

  lemma ReportExplained(f: File, r: Reader)
    requires FileInv(f) && r.pc.Copy? && RInv(f, r) && |r.got| == Wanted(f, r)
    requires f.slots[r.i].seqno == r.q1
    requires r.op.Wait? ==> MetaLen(r.got) > f.cap || MetaGen(r.got) != r.op.last
    ensures Explained(f, r.op, Report(f, r), r.first, r.base, |f.log|, f.commits[r.i] < r.c0 + TAGS)
  {
    if f.commits[r.i] < r.c0 + TAGS {
      CopySound(f, r);
    }
  }

  lemma ReportNothingNew(f: File, r: Reader)
    requires FileInv(f) && r.pc.Copy? && RInv(f, r) && |r.got| == Wanted(f, r)
    requires f.slots[r.i].seqno == r.q1
    requires r.op.Wait? && MetaLen(r.got) <= f.cap && MetaGen(r.got) == r.op.last
    ensures NothingNew(f, r.(ok := f.commits[r.i] < r.c0 + TAGS), Report(f, r))
  {
    if f.commits[r.i] < r.c0 + TAGS {
      CopySound(f, r);
    }
  }

  lemma RecheckPasses(f: File, r: Reader)
    requires FileInv(f) && r.pc.Copy? && RInv(f, r) && |r.got| == Wanted(f, r)
    requires f.slots[r.i].seqno == r.q1
    ensures RInv(f, Rechecked(f, r))
  {
    hide Explained, SeqInv, OddInv, LatestInv, LogInv, NotifyInv;
    if r.op.Wait? && MetaLen(r.got) <= f.cap && MetaGen(r.got) == r.op.last {
      ReportNothingNew(f, r);
    } else {
      ReportExplained(f, r);
    }
  }

  lemma RecheckKeeps(f: File, r: Reader)
    requires FileInv(f) && r.pc.Copy? && RInv(f, r) && |r.got| == Wanted(f, r)
    ensures RInv(f, Rechecked(f, r))
  {
    if f.slots[r.i].seqno == r.q1 {
      RecheckPasses(f, r);
    } else {
      RecheckFails(f, r);
      RetryKeeps(f, r);
    }
  }

  lemma RecheckFails(f: File, r: Reader)
    requires FileInv(f) && r.pc.Copy? && RInv(f, r) && f.slots[r.i].seqno != r.q1
    ensures |f.log| >= r.base + |f.slots| - 1
  {
    assert f.slots[r.i].seqno == SeqWord(f.commits[r.i], f.odd[r.i]);
  }

  /** The compare of FUTEX_WAIT succeeds only if no publish or retire was announced since `notify` was loaded. */
  lemma SleepKeeps(f: File, r: Reader)
    requires FileInv(f) && r.pc.Futex? && RInv(f, r)
    ensures RInv(f, Slept(f, r))
  {
    if f.notify == r.n && f.incs < r.nInc + U32 {
      SameCount(r.nInc, f.incs);
    }
  }

  lemma SameCount(a: nat, b: nat)
    requires a <= b < a + U32 && a % U32 == b % U32
    ensures a == b
  {}

  /** Every load of a reader keeps what it knows. */
  lemma ReaderKeeps(f: File, r: Reader)
    requires FileInv(f) && Live(f) && RInv(f, r) && RReady(f, r)
    ensures RInv(f, RNext(f, r))
  {
    match r.pc
    case LoadNotify =>
    case CheckRetired =>
    case LoadLatest => LoadLatestKeeps(f, r);
    case LoadSeq => LoadSeqKeeps(f, r);
    case Copy => if |r.got| < Wanted(f, r) { CopyByteKeeps(f, r); } else { RecheckKeeps(f, r); }
    case Futex(_) => SleepKeeps(f, r);
  }

  /** A reader in a call always has a next load. */
  lemma ReaderProgress(f: File, r: Reader)
    requires FileInv(f) && RInv(f, r) && !r.pc.Asleep? && !r.pc.Restart? && !r.pc.Finished?
    ensures RReady(f, r)
  {}
}
