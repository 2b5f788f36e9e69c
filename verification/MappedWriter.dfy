// psmsgr_state_writer: the handle and its stores into the mapped bytes.
module MappedWriter {
  import opened Api
  import opened Bytes
  import opened Layout
  import opened Ring
  import opened RingInvariant
  import RW = RingWriter
  import opened MappedBytes

  /** What a store does not change. */
  ghost predicate SameHistory(f: File, f': File) {
    f'.log == f.log && f'.cap == f.cap && |f'.slots| == |f.slots| && f'.notifyOn == f.notifyOn && f'.commits == f.commits
  }

  /** Nor is the futex word touched. */
  ghost predicate Undisturbed(f: File, f': File) {
    SameHistory(f, f') && f'.notify == f.notify && f'.incs == f.incs
  }

  /** One more commit of slot `i`. */
  ghost predicate Bumped(c: seq<nat>, c': seq<nat>, i: nat) {
    i < |c| && c' == c[i := c[i] + 1]
  }

  /** What a completed commit leaves of the futex word: one increment and nobody asleep, or nothing. */
  ghost predicate Announced(f: File, f': File) {
    if f.notifyOn then
      && f'.notify == (f.notify + 1) % U32 && f'.incs == f.incs + 1
      && !f'.lost && !f'.unwoken && !f'.unnotified
    else f'.notify == f.notify && f'.incs == f.incs
  }

  /** The slot after `latest`. */
  function NextIndex(latest: u32, n: nat): nat
    requires n > 0
  {
    if latest == NONE then 0 else (latest + 1) % n
  }

  ghost predicate SameShape(f: File, f': File) {
    f'.cap == f.cap && |f'.slots| == |f.slots| && f'.notifyOn == f.notifyOn
  }

  /** begin_slot's choice: `i` and `q` are the slot it opens and its seq, made even. */
  lemma BeginPlan(f: File, w: Writer, l: u32, src: Source) returns (i: nat, q: u32)
    requires w.latest == if l == NONE then None else Some(l)
    requires AgentInv(f, Writing(w)) && w.pc.Idle? && |Payload(Begun(src))| <= f.cap
    ensures 0 < |f.slots| && i == NextIndex(l, |f.slots|)
    ensures i < |f.slots| == |f.odd| && q == f.slots[i].seqno / 2 * 2 && q + 1 < U32
    ensures AgentInv(Opening(f, i, q), Writing(w.(pc := Filling(i, q, NextStage(Begun(src))))))
  {
    hide SeqInv, OddInv, LatestInv, LogInv, NotifyInv, PcInv, Filled;
    i := TargetSlot(w, |f.slots|);
    RW.BeginKeeps(f, w, src);
    q := f.slots[i].seqno / 2 * 2;
    RW.StoreKeeps(f, WHandle(f, w, Begin(src)));
  }

  lemma CopyPlan(f: File, w: Writer, i: nat, q: u32, data: seq<byte>, k: nat)
    requires AgentInv(f, Writing(w)) && w.pc == Filling(i, q, Copying(data, k)) && k < |data|
    ensures |data| <= f.cap && i < |f.slots| && |f.slots[i].body| == META + f.cap
    ensures var f' := SetBody(f, i, META + k, [data[k]]);
            && AgentInv(f', Writing(w.(pc := Filling(i, q, Copying(data, k + 1)))))
            && Undisturbed(f, f') && f'.clock == f.clock
            && MemFile(f') == WithBody(MemFile(f), i, META + k, [data[k]])
  {
    hide SeqInv, OddInv, LatestInv, LogInv, NotifyInv, PcInv;
    RW.StoreKeeps(f, w);
  }

  lemma CopyDonePlan(f: File, w: Writer, i: nat, q: u32, data: seq<byte>)
    requires AgentInv(f, Writing(w)) && w.pc == Filling(i, q, Copying(data, |data|))
    ensures AgentInv(f, Writing(w.(pc := Filling(i, q, PutGen(data)))))
  {
    hide SeqInv, OddInv, LatestInv, LogInv, NotifyInv, PcInv;
    RW.StoreKeeps(f, w);
  }

  lemma PutGenPlan(f: File, w: Writer, i: nat, q: u32, pay: seq<byte>)
    requires AgentInv(f, Writing(w)) && w.pc == Filling(i, q, PutGen(pay))
    ensures i < |f.slots| && |f.slots[i].body| == META + f.cap
    ensures var f' := SetBody(f, i, 0, LittleEndian(w.gen, 4));
            && AgentInv(f', Writing(w.(pc := Filling(i, q, PutLen(pay)))))
            && Undisturbed(f, f') && f'.clock == f.clock
            && MemFile(f') == WithBody(MemFile(f), i, 0, LittleEndian(w.gen, 4))
  {
    hide SeqInv, OddInv, LatestInv, LogInv, NotifyInv, PcInv;
    RW.StoreKeeps(f, w);
  }

  lemma PutLenPlan(f: File, w: Writer, i: nat, q: u32, pay: seq<byte>)
    requires AgentInv(f, Writing(w)) && w.pc == Filling(i, q, PutLen(pay))
    ensures i < |f.slots| && |f.slots[i].body| == META + f.cap
    ensures var f' := SetBody(f, i, 12, LittleEndian(|pay|, 4));
            && AgentInv(f', Writing(w.(pc := Filling(i, q, PutTs(pay)))))
            && Undisturbed(f, f') && f'.clock == f.clock
            && MemFile(f') == WithBody(MemFile(f), i, 12, LittleEndian(|pay|, 4))
  {
    hide AgentInv, LittleEndian, Put;
    LenStore(f, w, i, q, pay);
    RW.StoreKeeps(f, w);
  }

  lemma LenStore(f: File, w: Writer, i: nat, q: u32, pay: seq<byte>)
    requires AgentInv(f, Writing(w)) && w.pc == Filling(i, q, PutLen(pay))
    ensures WEnabled(f, w, Store) && i < |f.slots| && |f.slots[i].body| == META + f.cap && |pay| < U32
    ensures WFile(f, w, Store) == SetBody(f, i, 12, LittleEndian(|pay|, 4))
    ensures WHandle(f, w, Store) == w.(pc := Filling(i, q, PutTs(pay)))
  {
    hide SeqInv, OddInv, LatestInv, LogInv, NotifyInv, PcInv, LittleEndian, Put;
  }

  lemma StampPlan(f: File, w: Writer, i: nat, q: u32, pay: seq<byte>, t: u64)
    requires AgentInv(f, Writing(w)) && w.pc == Filling(i, q, PutTs(pay)) && f.clock <= t
    ensures i < |f.slots| && |f.slots[i].body| == META + f.cap
    ensures var f' := Stamped(f, i, t);
            && AgentInv(f', Writing(w.(pc := Filling(i, q, PutSeq(pay, t)))))
            && Undisturbed(f, f') && f'.clock == t
            && MemFile(f') == WithBody(MemFile(f), i, 4, LittleEndian(t, 8))
  {
    hide SeqInv, OddInv, LatestInv, LogInv, NotifyInv, PcInv;
    RW.WriterKeeps(f, w, Stamp(t));
  }

  lemma PutSeqPlan(f: File, w: Writer, i: nat, q: u32, pay: seq<byte>, t: u64)
    requires AgentInv(f, Writing(w)) && w.pc == Filling(i, q, PutSeq(pay, t))
    ensures i < |f.slots| == |f.commits| == |f.odd|
    ensures var f' := Committed(f, i, q);
            && AgentInv(f', Writing(w.(pc := Filling(i, q, PutLatest(pay, t)))))
            && f'.log == f.log && SameShape(f, f') && f'.notify == f.notify && f'.incs == f.incs
            && Bumped(f.commits, f'.commits, i) && f'.clock == f.clock
            && MemFile(f') == WithSeq(MemFile(f), i, (q + 2) % U32)
  {
    hide SeqInv, OddInv, LatestInv, LogInv, NotifyInv, PcInv;
    RW.StoreKeeps(f, w);
  }

  lemma PutLatestPlan(f: File, w: Writer, i: nat, q: u32, pay: seq<byte>, t: u64)
    requires AgentInv(f, Writing(w)) && w.pc == Filling(i, q, PutLatest(pay, t))
    ensures i < |f.slots| <= MAX_SLOTS
    ensures var f' := Published(f, i, q, Record(w.gen, t, pay));
            && AgentInv(f', Writing(PublishedHandle(w, i, f.notifyOn)))
            && f'.log == f.log + [Record(w.gen, t, pay)] && f'.clock == f.clock
            && SameShape(f, f') && f'.commits == f.commits && f'.notify == f.notify && f'.incs == f.incs
            && MemFile(f') == MemFile(f).(latest := Latest(i, (q + 2) % U32))
  {
    hide SeqInv, OddInv, LatestInv, LogInv, NotifyInv, PcInv;
    RW.StoreKeeps(f, w);
  }

  lemma NotifyPlan(f: File, w: Writer)
    requires AgentInv(f, Writing(w)) && w.pc.AddNotify?
    ensures var f' := Notified(f);
            && AgentInv(f', Writing(w.(pc := WakeAll))) && SameHistory(f, f') && f'.clock == f.clock && f'.incs == f.incs + 1
            && MemFile(f') == MemFile(f).(notify := (f.notify + 1) % U32)
  {
    hide SeqInv, OddInv, LatestInv, LogInv, NotifyInv, PcInv;
    RW.StoreKeeps(f, w);
  }

  lemma WakePlan(f: File, w: Writer)
    requires AgentInv(f, Writing(w)) && w.pc.WakeAll?
    ensures var f' := Awakened(f);
            && AgentInv(f', Writing(w.(gen := NextGen(w.gen), pc := Idle))) && Undisturbed(f, f')
            && MemFile(f') == MemFile(f) && !f'.lost && !f'.unwoken && !f'.unnotified
  {
    hide SeqInv, OddInv, LatestInv, LogInv, NotifyInv;
    RW.StoreKeeps(f, w);
  }

  lemma FillPlan(f: File, w: Writer, i: nat, q: u32, k: nat, b: byte)
    requires AgentInv(f, Writing(w)) && w.pc == Filling(i, q, Open) && k < f.cap
    ensures i < |f.slots| && |f.slots[i].body| == META + f.cap
    ensures var f' := SetBody(f, i, META + k, [b]);
            && AgentInv(f', Writing(w)) && Undisturbed(f, f') && f'.clock == f.clock
            && MemFile(f') == WithBody(MemFile(f), i, META + k, [b])
  {
    hide SeqInv, OddInv, LatestInv, LogInv, NotifyInv, PcInv;
    RW.WriterKeeps(f, w, AppStore(k, b));
  }

  lemma CommitPlan(f: File, w: Writer, i: nat, q: u32, len: nat)
    requires AgentInv(f, Writing(w)) && w.pc == Filling(i, q, Open) && len <= f.cap
    ensures i < |f.slots| && |f.slots[i].body| == META + f.cap
    ensures AgentInv(f, Writing(w.(pc := Filling(i, q, PutGen(f.slots[i].body[META..META + len])))))
  {
    RW.CommitKeeps(f, w, len);
  }

  lemma AbortPlan(f: File, w: Writer)
    requires AgentInv(f, Writing(w)) && w.pc.Filling? && w.pc.st.Open?
    ensures AgentInv(f, Writing(w.(pc := Idle)))
  {
    RW.AbortKeeps(f, w);
  }

  class StateWriter {
    const mem: array<byte>
    const g: Geo
    const notifyOn: bool
    var latest: u32      // `Handle(pc).latest`, with NONE for None
    var gen: u32         // `Handle(pc).gen`
    var openSlot: u32    // between calls, NONE iff `pc` is Idle, else its `i`
    var openSeq: u32     // and its `q`
    var wakes: nat       // calls of FUTEX_WAKE
    ghost var file: File // of which `mem` is the memory

    /** The mapped bytes are the file. */
    ghost predicate Mapped()
      reads this, mem
    {
      && GeoOk(g) && mem.Length == MapSize(g)
      && file.cap == g.cap && |file.slots| == g.n && file.notifyOn == notifyOn
      && MemOf(mem[..], g) == MemFile(file)
    }

    /** The handle in the protocol's terms, at `pc`. */
    ghost function Handle(pc: Pc): Writer
      reads this
    {
      Writer(if latest == NONE then None else Some(latest), gen, pc)
    }

    /** A sound channel, and a handle that is at `pc` in writing it. */
    ghost predicate At(pc: Pc)
      reads this, mem
    {
      Mapped() && AgentInv(file, Writing(Handle(pc)))
    }

    /** Between calls. */
    ghost predicate Valid()
      reads this, mem
    {
      At(if openSlot == NONE then Idle else Filling(openSlot, openSeq, Open))
    }

    /** open_data on a compatible file: the new handle continues where the last one stopped. */
    constructor Reuse(mem: array<byte>, g: Geo, notifyOn: bool, random: u32, ghost file: File)
      requires GeoOk(g) && mem.Length == MapSize(g) && MemOf(mem[..], g) == MemFile(file)
      requires file.cap == g.cap && |file.slots| == g.n && file.notifyOn == notifyOn
      requires AgentInv(file, NoAgent) && !file.retired && random != 0
      ensures Valid() && openSlot == NONE && this.file == file && this.mem == mem
      ensures file.log != [] ==> gen == NextGen(file.log[|file.log| - 1].gen)
    {
      RW.LatestHolds(file);
      RW.ReuseKeeps(file, random);
      MapHasHeader(g);
      var l := Word(mem[..], LATEST_AT);
      this.mem, this.g, this.notifyOn, this.file := mem, g, notifyOn, file;
      this.openSlot, this.openSeq, this.wakes := NONE, 0, 0;
      if l == NONE {
        this.latest, this.gen := NONE, random;
      } else {
        GenerationAt(mem[..], g, LatestSlot(l));
        this.latest, this.gen := LatestSlot(l), NextGen(Word(mem[..], SlotAt(g, LatestSlot(l)) + META_AT));
      }
    }

    /** One or more bytes stored at once. */
    method Store(off: nat, bs: seq<byte>)
      requires off + |bs| <= mem.Length
      modifies mem
      ensures mem[..] == Put(old(mem[..]), off, bs)
    {
      forall k | 0 <= k < |bs| {
        mem[off + k] := bs[k];
      }
    }

    method LoadSeq(i: nat) returns (s: u32)
      requires Mapped() && i < g.n
      ensures s == file.slots[i].seqno
    {
      SlotInside(g, i);
      s := Word(mem[..], SlotAt(g, i));
      assert SlotIn(mem[..], g, i) == file.slots[i];
    }

    method StoreSeq(i: nat, v: u32, ghost f': File)
      requires Mapped() && i < g.n
      requires SameShape(file, f') && MemFile(f') == WithSeq(MemFile(file), i, v)
      modifies mem, this`file
      ensures Mapped() && file == f'
    {
      SlotInside(g, i);
      SeqStore(mem[..], g, i, v);
      Store(SlotAt(g, i), LittleEndian(v, 4));
      file := f';
    }

    method StoreBody(i: nat, k: nat, bs: seq<byte>, ghost f': File)
      requires Mapped() && i < g.n && (k + |bs| <= META || (META <= k && k + |bs| <= META + g.cap))
      requires |file.slots[i].body| == META + g.cap
      requires SameShape(file, f') && MemFile(f') == WithBody(MemFile(file), i, k, bs)
      modifies mem, this`file
      ensures Mapped() && file == f'
    {
      MappedBytes.BodyStore(mem[..], g, i, k, bs);
      Store(BodyAt(g, i, k), bs);
      file := f';
    }

    method StoreLatest(v: u32, ghost f': File)
      requires Mapped() && SameShape(file, f') && MemFile(f') == MemFile(file).(latest := v)
      modifies mem, this`file
      ensures Mapped() && file == f'
    {
      LatestStore(mem[..], g, v);
      Store(LATEST_AT, LittleEndian(v, 4));
      file := f';
    }

    /** fetch_add on the futex word. */
    method AddNotify(ghost f': File)
      requires Mapped() && SameShape(file, f') && MemFile(f') == MemFile(file).(notify := (file.notify + 1) % U32)
      modifies mem, this`file
      ensures Mapped() && file == f'
    {
      MapHasHeader(g);
      var v := (Word(mem[..], NOTIFY_AT) + 1) % U32;
      NotifyStore(mem[..], g, v);
      Store(NOTIFY_AT, LittleEndian(v, 4));
      file := f';
    }

    /** Slot `i` becomes odd. */
    method OpenSlotAt(i: nat, ghost q: u32)
      requires Mapped() && i < g.n && |file.odd| == g.n && q == file.slots[i].seqno / 2 * 2 && q + 1 < U32
      modifies this, mem
      ensures Mapped() && file == Opening(old(file), i, q)
      ensures latest == old(latest) && gen == old(gen) && openSlot == i && openSeq == q && wakes == old(wakes)
    {
      var s := LoadSeq(i);
      openSlot, openSeq := i, s / 2 * 2;
      StoreSeq(i, openSeq + 1, Opening(file, i, q));
    }

    /** begin_slot: picks the slot after `latest` and makes it odd. */
    method BeginSlot(ghost src: Source)
      requires Valid() && openSlot == NONE && |Payload(Begun(src))| <= g.cap
      modifies this, mem
      ensures latest == old(latest) && gen == old(gen) && openSlot < g.n && wakes == old(wakes)
      ensures g.n > 0 && openSlot == NextIndex(latest, g.n)
      ensures At(Filling(openSlot, openSeq, NextStage(Begun(src))))
      ensures Undisturbed(old(file), file) && file.clock == old(file.clock)
    {
      hide AgentInv;
      ghost var i, q := BeginPlan(file, Handle(Idle), latest, src);
      var k := NextIndex(latest, g.n);
      OpenSlotAt(k, q);
      assert Handle(Filling(i, q, NextStage(Begun(src)))) == old(Handle(Idle)).(pc := Filling(i, q, NextStage(Begun(src))));
    }

    method PutGeneration(ghost pay: seq<byte>)
      requires openSlot < g.n && At(Filling(openSlot, openSeq, PutGen(pay)))
      modifies mem, this`file
      ensures At(Filling(openSlot, openSeq, PutLen(pay)))
      ensures Undisturbed(old(file), file) && file.clock == old(file.clock)
    {
      hide AgentInv;
      PutGenPlan(file, Handle(Filling(openSlot, openSeq, PutGen(pay))), openSlot, openSeq, pay);
      StoreBody(openSlot, 0, LittleEndian(gen, 4), SetBody(file, openSlot, 0, LittleEndian(gen, 4)));
    }

    method PutLength(len: u32, ghost pay: seq<byte>)
      requires openSlot < g.n && At(Filling(openSlot, openSeq, PutLen(pay))) && len == |pay|
      modifies mem, this`file
      ensures At(Filling(openSlot, openSeq, PutTs(pay)))
      ensures Undisturbed(old(file), file) && file.clock == old(file.clock)
    {
      hide AgentInv;
      PutLenPlan(file, Handle(Filling(openSlot, openSeq, PutLen(pay))), openSlot, openSeq, pay);
      StoreBody(openSlot, 12, LittleEndian(len, 4), SetBody(file, openSlot, 12, LittleEndian(len, 4)));
    }

    method PutTimestamp(now: u64, ghost pay: seq<byte>)
      requires openSlot < g.n && At(Filling(openSlot, openSeq, PutTs(pay))) && file.clock <= now
      modifies mem, this`file
      ensures At(Filling(openSlot, openSeq, PutSeq(pay, now)))
      ensures Undisturbed(old(file), file) && file.clock == now
    {
      hide AgentInv;
      StampPlan(file, Handle(Filling(openSlot, openSeq, PutTs(pay))), openSlot, openSeq, pay, now);
      StoreBody(openSlot, 4, LittleEndian(now, 8), Stamped(file, openSlot, now));
    }

    /** The slot becomes readable. */
    method PutSequence(ghost pay: seq<byte>, ghost now: u64)
      requires openSlot < g.n && At(Filling(openSlot, openSeq, PutSeq(pay, now)))
      modifies mem, this`file
      ensures At(Filling(openSlot, openSeq, PutLatest(pay, now)))
      ensures file.log == old(file.log) && SameShape(old(file), file) && file.notify == old(file.notify) && file.incs == old(file.incs)
      ensures Bumped(old(file.commits), file.commits, openSlot) && file.clock == old(file.clock)
    {
      hide AgentInv;
      PutSeqPlan(file, Handle(Filling(openSlot, openSeq, PutSeq(pay, now))), openSlot, openSeq, pay, now);
      StoreSeq(openSlot, (openSeq + 2) % U32, Committed(file, openSlot, openSeq));
    }

    /** The slot becomes the latest. */
    method PutLatestWord(ghost pay: seq<byte>, ghost now: u64)
      requires openSlot < g.n && At(Filling(openSlot, openSeq, PutLatest(pay, now)))
      modifies mem, this
      ensures At(if notifyOn then Pc.AddNotify else Idle) && openSlot == NONE
      ensures gen == if notifyOn then old(gen) else NextGen(old(gen))
      ensures file.log == old(file.log) + [Record(old(gen), now, pay)] && file.clock == old(file.clock) && wakes == old(wakes)
      ensures SameShape(old(file), file) && file.commits == old(file.commits)
      ensures file.notify == old(file.notify) && file.incs == old(file.incs)
    {
      hide AgentInv;
      PutLatestPlan(file, Handle(Filling(openSlot, openSeq, PutLatest(pay, now))), openSlot, openSeq, pay, now);
      var i := openSlot;
      StoreLatest(Latest(i, (openSeq + 2) % U32), Published(file, i, openSeq, Record(gen, now, pay)));
      latest, openSlot := i, NONE;
      if !notifyOn { gen := NextGen(gen); }
    }

    /** fetch_add and FUTEX_WAKE. */
    method Announce()
      requires At(Pc.AddNotify) && openSlot == NONE && notifyOn
      modifies mem, this
      ensures Valid() && openSlot == NONE && gen == NextGen(old(gen)) && latest == old(latest)
      ensures SameHistory(old(file), file) && file.clock == old(file.clock)
      ensures Announced(old(file), file) && wakes == old(wakes) + 1
    {
      hide AgentInv;
      NotifyPlan(file, Handle(Pc.AddNotify));
      AddNotify(Notified(file));
      WakePlan(file, Handle(WakeAll));
      wakes, file := wakes + 1, Awakened(file);
      gen := NextGen(gen);
    }

    /** The futex word, where the readers look for it. */
    ghost function FutexWord(): (v: u32)
      requires Mapped()
      reads this, mem
      ensures v == file.notify
    {
      MapHasHeader(g);
      Word(mem[..], NOTIFY_AT)
    }

    /** commit_slot: `now` is its reading of the clock. */
    method CommitSlot(len: u32, now: u64, ghost pay: seq<byte>) returns (published: u32)
      requires openSlot < g.n && At(Filling(openSlot, openSeq, PutGen(pay))) && len == |pay| && file.clock <= now
      requires file.notifyOn == notifyOn
      modifies this, mem
      ensures Valid() && openSlot == NONE && published == old(gen) && gen == NextGen(old(gen))
      ensures file.log == old(file.log) + [Record(old(gen), now, pay)] && file.clock == now
      ensures Announced(old(file), file) && Bumped(old(file.commits), file.commits, old(openSlot))
      ensures wakes == old(wakes) + if notifyOn then 1 else 0
    {
      hide AgentInv, StateWriter.Mapped;
      published := gen;
      PutGeneration(pay);
      PutLength(len, pay);
      PutTimestamp(now, pay);
      PutSequence(pay, now);
      PutLatestWord(pay, now);
      if notifyOn { Announce(); }
    }

    method CopyByte(data: seq<byte>, k: nat)
      requires openSlot < g.n && k < |data| <= g.cap && At(Filling(openSlot, openSeq, Copying(data, k)))
      modifies mem, this`file
      ensures At(Filling(openSlot, openSeq, Copying(data, k + 1)))
      ensures Undisturbed(old(file), file) && file.clock == old(file.clock)
    {
      hide AgentInv;
      CopyPlan(file, Handle(Filling(openSlot, openSeq, Copying(data, k))), openSlot, openSeq, data, k);
      StoreBody(openSlot, META + k, [data[k]], SetBody(file, openSlot, META + k, [data[k]]));
    }

    /** psmi_seq_copy of the caller's bytes into the open slot. */
    method CopyIn(data: seq<byte>)
      requires openSlot < g.n && At(Filling(openSlot, openSeq, Copying(data, 0))) && |data| <= g.cap
      modifies mem, this`file
      ensures At(Filling(openSlot, openSeq, PutGen(data)))
      ensures Undisturbed(old(file), file) && file.clock == old(file.clock)
    {
      hide AgentInv, StateWriter.Mapped;
      for k := 0 to |data|
        invariant At(Filling(openSlot, openSeq, Copying(data, k)))
        invariant Undisturbed(old(file), file) && file.clock == old(file.clock)
      {
        CopyByte(data, k);
      }
      CopyDonePlan(file, Handle(Filling(openSlot, openSeq, Copying(data, |data|))), openSlot, openSeq, data);
    }

    /** psmsgr_state_publish: OK appends exactly the caller's bytes; a refused call changes nothing. */
    method Publish(data: seq<byte>, now: u64) returns (rc: Code, published: u32)
      requires Valid() && |data| < U32 && file.clock <= now
      modifies this, mem
      ensures Valid()
      ensures rc == if old(openSlot) != NONE then STATE else if |data| > g.cap then TOOBIG else OK
      ensures rc.OK? ==> openSlot == NONE && published == old(gen) && gen == NextGen(old(gen))
      ensures rc.OK? ==> file.log == old(file.log) + [Record(old(gen), now, data)]
      ensures rc.OK? ==> g.n > 0 && Bumped(old(file.commits), file.commits, NextIndex(old(latest), g.n))
      ensures rc.OK? ==> Announced(old(file), file) && wakes == old(wakes) + if notifyOn then 1 else 0
      ensures FutexWord() == (old(FutexWord()) + if rc.OK? && notifyOn then 1 else 0) % U32
      ensures !rc.OK? ==>
                file == old(file) && mem[..] == old(mem[..]) && gen == old(gen) && openSlot == old(openSlot) && wakes == old(wakes)
    {
      hide AgentInv, MemOf, MemFile, MapSize;
      published := 0;
      if openSlot != NONE { return STATE, 0; }
      if |data| > g.cap { return TOOBIG, 0; }
      rc := OK;
      BeginSlot(FromCaller(data));
      CopyIn(data);
      published := CommitSlot(|data|, now, data);
    }

    /** psmsgr_state_begin: on OK the application may store into the payload of `openSlot`. */
    method Begin() returns (rc: Code)
      requires Valid()
      modifies this, mem
      ensures Valid() && Undisturbed(old(file), file) && file.clock == old(file.clock) && gen == old(gen) && wakes == old(wakes)
      ensures rc == if old(openSlot) != NONE then STATE else OK
      ensures rc.OK? ==> openSlot < g.n && openSlot == NextIndex(latest, g.n)
      ensures !rc.OK? ==> file == old(file) && mem[..] == old(mem[..]) && openSlot == old(openSlot)
    {
      hide AgentInv;
      if openSlot != NONE { return STATE; }
      BeginSlot(FromApp);
      rc := OK;
    }

    /** The application stores one byte of its value. */
    method Fill(k: nat, b: byte)
      requires Valid() && openSlot < g.n && k < g.cap
      modifies mem, this`file
      ensures Valid() && file.log == old(file.log) && file.clock == old(file.clock)
      ensures |old(file).slots| == g.n && |old(file).slots[openSlot].body| == META + g.cap
      ensures file == SetBody(old(file), openSlot, META + k, [b])
    {
      hide AgentInv;
      FillPlan(file, Handle(Filling(openSlot, openSeq, Open)), openSlot, openSeq, k, b);
      StoreBody(openSlot, META + k, [b], SetBody(file, openSlot, META + k, [b]));
    }

    /** psmsgr_state_commit: OK publishes the first `len` bytes the slot holds. */
    method Commit(len: u32, now: u64) returns (rc: Code, published: u32)
      requires Valid() && file.clock <= now
      modifies this, mem
      ensures Valid()
      ensures rc == if old(openSlot) == NONE then STATE else if len > g.cap then TOOBIG else OK
      ensures rc.OK? ==> openSlot == NONE && published == old(gen) && gen == NextGen(old(gen))
      ensures rc.OK? ==> old(openSlot) < |old(file).slots| && META + len <= |old(file).slots[old(openSlot)].body|
      ensures rc.OK? ==>
        var pay := old(file).slots[old(openSlot)].body[META..META + len];
        file.log == old(file.log) + [Record(old(gen), now, pay)]
      ensures rc.OK? ==> Bumped(old(file.commits), file.commits, old(openSlot))
      ensures rc.OK? ==> Announced(old(file), file) && wakes == old(wakes) + if notifyOn then 1 else 0
      ensures FutexWord() == (old(FutexWord()) + if rc.OK? && notifyOn then 1 else 0) % U32
      ensures !rc.OK? ==>
                file == old(file) && mem[..] == old(mem[..]) && gen == old(gen) && openSlot == old(openSlot) && wakes == old(wakes)
    {
      hide AgentInv, MemOf, MemFile, MapSize;
      published := 0;
      if openSlot == NONE { return STATE, 0; }
      if len > g.cap { return TOOBIG, 0; }
      rc := OK;
      CommitPlan(file, Handle(Filling(openSlot, openSeq, Open)), openSlot, openSeq, len);
      published := CommitSlot(len, now, file.slots[openSlot].body[META..META + len]);
    }

    /** psmsgr_state_abort: the slot stays odd, and nothing else changes. */
    method Abort() returns (rc: Code)
      requires Valid()
      modifies this
      ensures Valid() && file == old(file) && gen == old(gen) && latest == old(latest) && openSlot == NONE
      ensures wakes == old(wakes)
      ensures rc == if old(openSlot) == NONE then STATE else OK
    {
      hide AgentInv;
      if openSlot == NONE { return STATE; }
      AbortPlan(file, Handle(Filling(openSlot, openSeq, Open)));
      openSlot := NONE;
      rc := OK;
    }
  }
}
