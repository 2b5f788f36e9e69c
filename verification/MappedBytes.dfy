// The ring as the bytes of a mapped data file, at the offsets of src/layout.h.
module MappedBytes {
  import opened Bytes
  import opened Layout
  import opened Ring

  const LATEST_AT: nat := 40
  const NOTIFY_AT: nat := 44
  const META_AT: nat := 4 // generation, timestamp and length within a slot

  /** The geometry of a valid file. */
  datatype Geo = Geo(n: nat, cap: u32)

  predicate GeoOk(g: Geo) {
    MIN_SLOTS <= g.n <= MAX_SLOTS && g.cap <= MAX_CAPACITY
  }

  function Stride(g: Geo): nat { SlotStride(g.cap) }

  function SlotAt(g: Geo, i: nat): nat { SlotOffset(i, Stride(g)) }

  function MapSize(g: Geo): nat { FileSize(g.n, Stride(g)) }

  lemma StrideFits(g: Geo)
    requires GeoOk(g)
    ensures SLOT_HEADER_SIZE + g.cap <= Stride(g) < U32
  {
    StrideBounds(g.cap);
  }

  /** Slots lie inside the mapping, after the header. */
  lemma SlotInside(g: Geo, i: nat)
    requires GeoOk(g) && i < g.n
    ensures HEADER_SIZE <= SlotAt(g, i)
    ensures SlotAt(g, i) + SLOT_HEADER_SIZE + g.cap <= MapSize(g)
  {
    hide Stride;
    StrideFits(g);
    MulMono(i + 1, g.n, Stride(g));
    assert (i + 1) * Stride(g) == i * Stride(g) + Stride(g);
  }

  lemma MapHasHeader(g: Geo)
    ensures MapSize(g) >= HEADER_SIZE
  {}

  lemma SlotsApart(g: Geo, i: nat, j: nat)
    requires GeoOk(g) && i < j < g.n
    ensures SlotAt(g, i) + SLOT_HEADER_SIZE + g.cap <= SlotAt(g, j)
  {
    hide Stride;
    StrideFits(g);
    MulMono(i + 1, j, Stride(g));
    assert (i + 1) * Stride(g) == i * Stride(g) + Stride(g);
  }

  function Word(m: seq<byte>, off: nat): u32
    requires off + 4 <= |m|
  {
    Load32(m[off..off + 4])
  }

  function SlotIn(m: seq<byte>, g: Geo, i: nat): (s: Slot)
    requires GeoOk(g) && |m| == MapSize(g) && i < g.n
    ensures |s.body| == META + g.cap
  {
    SlotInside(g, i);
    var o := SlotAt(g, i);
    Slot(Word(m, o), m[o + META_AT..o + META_AT + META] + m[o + SLOT_HEADER_SIZE..o + SLOT_HEADER_SIZE + g.cap])
  }

  /** The shared memory of a file. */
  datatype Mem = Mem(slots: seq<Slot>, latest: u32, notify: u32)

  function MemOf(m: seq<byte>, g: Geo): (mem: Mem)
    requires GeoOk(g) && |m| == MapSize(g)
    ensures |mem.slots| == g.n
    ensures forall i :: 0 <= i < g.n ==> mem.slots[i] == SlotIn(m, g, i)
  {
    MapHasHeader(g);
    Mem(seq(g.n, i requires 0 <= i < g.n => SlotIn(m, g, i)), Word(m, LATEST_AT), Word(m, NOTIFY_AT))
  }

  function WithSeq(mem: Mem, i: nat, v: u32): Mem
    requires i < |mem.slots|
  {
    mem.(slots := mem.slots[i := mem.slots[i].(seqno := v)])
  }

  function WithBody(mem: Mem, i: nat, k: nat, bs: seq<byte>): Mem
    requires i < |mem.slots| && k + |bs| <= |mem.slots[i].body|
  {
    mem.(slots := mem.slots[i := mem.slots[i].(body := Put(mem.slots[i].body, k, bs))])
  }

  function MemFile(f: File): Mem { Mem(f.slots, f.latest, f.notify) }

  /** Where byte `k` of a slot's body lies: the header fields, a gap of reserved bytes, then the payload. */
  function BodyAt(g: Geo, i: nat, k: nat): nat {
    if k < META then SlotAt(g, i) + META_AT + k else SlotAt(g, i) + SLOT_HEADER_SIZE + (k - META)
  }

  lemma LoadStored(v: u32)
    ensures Load32(LittleEndian(v, 4)) == v
  {
    Word32RoundTrip(v);
  }

  lemma WordStored(m: seq<byte>, off: nat, v: u32)
    requires off + 4 <= |m|
    ensures Word(Put(m, off, LittleEndian(v, 4)), off) == v
  {
    assert Put(m, off, LittleEndian(v, 4))[off..off + 4] == LittleEndian(v, 4);
    LoadStored(v);
  }

  lemma WordFrame(m: seq<byte>, off: nat, bs: seq<byte>, at: nat)
    requires off + |bs| <= |m| && at + 4 <= |m|
    requires at + 4 <= off || off + |bs| <= at
    ensures Word(Put(m, off, bs), at) == Word(m, at)
  {
    assert Put(m, off, bs)[at..at + 4] == m[at..at + 4];
  }

  /** The generation field of a slot. */
  lemma GenerationAt(m: seq<byte>, g: Geo, i: nat)
    requires GeoOk(g) && |m| == MapSize(g) && i < g.n
    ensures SlotAt(g, i) + META_AT + 4 <= |m|
    ensures Word(m, SlotAt(g, i) + META_AT) == MetaGen(SlotIn(m, g, i).body)
  {
    SlotInside(g, i);
    var o := SlotAt(g, i);
    assert SlotIn(m, g, i).body[..4] == m[o + META_AT..o + META_AT + 4];
  }

  /** A byte of a slot's body, where it lies in the mapping. */
  lemma BodyByte(m: seq<byte>, g: Geo, i: nat, k: nat)
    requires GeoOk(g) && |m| == MapSize(g) && i < g.n && k < META + g.cap
    ensures BodyAt(g, i, k) < |m| && SlotIn(m, g, i).body[k] == m[BodyAt(g, i, k)]
  {
    SlotInside(g, i);
  }

  /** A store outside a slot leaves it alone. */
  lemma SlotFrame(m: seq<byte>, g: Geo, off: nat, bs: seq<byte>, i: nat)
    requires GeoOk(g) && |m| == MapSize(g) && i < g.n && off + |bs| <= |m|
    requires off + |bs| <= SlotAt(g, i) || SlotAt(g, i) + SLOT_HEADER_SIZE + g.cap <= off
    ensures SlotIn(Put(m, off, bs), g, i) == SlotIn(m, g, i)
  {
    SlotInside(g, i);
    var o, m' := SlotAt(g, i), Put(m, off, bs);
    assert m'[o..o + 4] == m[o..o + 4];
    assert m'[o + META_AT..o + META_AT + META] == m[o + META_AT..o + META_AT + META];
    assert m'[o + SLOT_HEADER_SIZE..o + SLOT_HEADER_SIZE + g.cap] == m[o + SLOT_HEADER_SIZE..o + SLOT_HEADER_SIZE + g.cap];
  }

  /** A store inside slot `i` leaves the other slots and the header alone. */
  lemma OtherSlots(m: seq<byte>, g: Geo, i: nat, off: nat, bs: seq<byte>)
    requires GeoOk(g) && |m| == MapSize(g) && i < g.n
    requires SlotAt(g, i) <= off && off + |bs| <= SlotAt(g, i) + SLOT_HEADER_SIZE + g.cap
    ensures off + |bs| <= |m| && SlotAt(g, i) >= HEADER_SIZE
    ensures MemOf(Put(m, off, bs), g)
         == MemOf(m, g).(slots := MemOf(m, g).slots[i := SlotIn(Put(m, off, bs), g, i)])
  {
    SlotInside(g, i);
    var m' := Put(m, off, bs);
    WordFrame(m, off, bs, LATEST_AT);
    WordFrame(m, off, bs, NOTIFY_AT);
    forall j | 0 <= j < g.n && j != i
      ensures SlotIn(m', g, j) == SlotIn(m, g, j)
    {
      if j < i { SlotsApart(g, j, i); } else { SlotsApart(g, i, j); }
      SlotFrame(m, g, off, bs, j);
    }
    assert MemOf(m', g).slots == MemOf(m, g).slots[i := SlotIn(m', g, i)];
  }

  /** A store of a header word leaves the slots alone. */
  lemma HeaderStore(m: seq<byte>, g: Geo, off: nat, v: u32)
    requires GeoOk(g) && |m| == MapSize(g) && off + 4 <= HEADER_SIZE
    ensures off + 4 <= |m| && MemOf(Put(m, off, LittleEndian(v, 4)), g).slots == MemOf(m, g).slots
  {
    MapHasHeader(g);
    forall j | 0 <= j < g.n
      ensures SlotIn(Put(m, off, LittleEndian(v, 4)), g, j) == SlotIn(m, g, j)
    {
      SlotInside(g, j);
      SlotFrame(m, g, off, LittleEndian(v, 4), j);
    }
  }

  lemma LatestStore(m: seq<byte>, g: Geo, v: u32)
    requires GeoOk(g) && |m| == MapSize(g)
    ensures LATEST_AT + 4 <= |m|
    ensures MemOf(Put(m, LATEST_AT, LittleEndian(v, 4)), g) == MemOf(m, g).(latest := v)
  {
    MapHasHeader(g);
    HeaderStore(m, g, LATEST_AT, v);
    WordStored(m, LATEST_AT, v);
    WordFrame(m, LATEST_AT, LittleEndian(v, 4), NOTIFY_AT);
  }

  lemma NotifyStore(m: seq<byte>, g: Geo, v: u32)
    requires GeoOk(g) && |m| == MapSize(g)
    ensures NOTIFY_AT + 4 <= |m|
    ensures MemOf(Put(m, NOTIFY_AT, LittleEndian(v, 4)), g) == MemOf(m, g).(notify := v)
  {
    MapHasHeader(g);
    HeaderStore(m, g, NOTIFY_AT, v);
    WordStored(m, NOTIFY_AT, v);
    WordFrame(m, NOTIFY_AT, LittleEndian(v, 4), LATEST_AT);
  }

  lemma SeqStore(m: seq<byte>, g: Geo, i: nat, v: u32)
    requires GeoOk(g) && |m| == MapSize(g) && i < g.n
    ensures SlotAt(g, i) + 4 <= |m|
    ensures MemOf(Put(m, SlotAt(g, i), LittleEndian(v, 4)), g) == WithSeq(MemOf(m, g), i, v)
  {
    SlotInside(g, i);
    var o, bs := SlotAt(g, i), LittleEndian(v, 4);
    var m' := Put(m, o, bs);
    OtherSlots(m, g, i, o, bs);
    WordStored(m, o, v);
    assert m'[o + META_AT..o + META_AT + META] == m[o + META_AT..o + META_AT + META];
    assert m'[o + SLOT_HEADER_SIZE..o + SLOT_HEADER_SIZE + g.cap] == m[o + SLOT_HEADER_SIZE..o + SLOT_HEADER_SIZE + g.cap];
  }

  /** A store into the header fields or into the payload of a slot is a store into its body. */
  lemma BodyStore(m: seq<byte>, g: Geo, i: nat, k: nat, bs: seq<byte>)
    requires GeoOk(g) && |m| == MapSize(g) && i < g.n
    requires k + |bs| <= META || (META <= k && k + |bs| <= META + g.cap)
    ensures BodyAt(g, i, k) + |bs| <= |m|
    ensures MemOf(Put(m, BodyAt(g, i, k), bs), g) == WithBody(MemOf(m, g), i, k, bs)
  {
    SlotInside(g, i);
    var o, at := SlotAt(g, i), BodyAt(g, i, k);
    OtherSlots(m, g, i, at, bs);
    WordFrame(m, at, bs, o);
    BodyPut(m, g, i, k, bs);
  }

  lemma BodyPut(m: seq<byte>, g: Geo, i: nat, k: nat, bs: seq<byte>)
    requires GeoOk(g) && |m| == MapSize(g) && i < g.n
    requires k + |bs| <= META || (META <= k && k + |bs| <= META + g.cap)
    requires BodyAt(g, i, k) + |bs| <= |m|
    ensures SlotIn(Put(m, BodyAt(g, i, k), bs), g, i).body == Put(SlotIn(m, g, i).body, k, bs)
  {
    hide SlotIn, SlotAt, MapSize;
    if bs == [] {
      assert Put(m, BodyAt(g, i, k), bs) == m;
      assert Put(SlotIn(m, g, i).body, k, bs) == SlotIn(m, g, i).body;
    } else if k < META {
      FieldsPut(m, g, i, k, bs);
    } else {
      PayloadPut(m, g, i, k - META, bs);
    }
  }

  /** A store into the header fields. */
  lemma FieldsPut(m: seq<byte>, g: Geo, i: nat, k: nat, bs: seq<byte>)
    requires GeoOk(g) && |m| == MapSize(g) && i < g.n && k + |bs| <= META
    ensures SlotAt(g, i) + META_AT + k + |bs| <= |m|
    ensures SlotIn(Put(m, SlotAt(g, i) + META_AT + k, bs), g, i).body == Put(SlotIn(m, g, i).body, k, bs)
  {
    hide SlotAt, MapSize, Put;
    SlotInside(g, i);
    var o := SlotAt(g, i);
    var at, pay := o + META_AT, o + SLOT_HEADER_SIZE;
    PutInside(m, at, at + META, at + k, bs);
    PutOutside(m, pay, pay + g.cap, at + k, bs);
    PutFront(m[at..at + META], m[pay..pay + g.cap], k, bs);
  }

  lemma PayloadPut(m: seq<byte>, g: Geo, i: nat, k: nat, bs: seq<byte>)
    requires GeoOk(g) && |m| == MapSize(g) && i < g.n && k + |bs| <= g.cap
    ensures SlotAt(g, i) + SLOT_HEADER_SIZE + k + |bs| <= |m|
    ensures SlotIn(Put(m, SlotAt(g, i) + SLOT_HEADER_SIZE + k, bs), g, i).body == Put(SlotIn(m, g, i).body, META + k, bs)
  {
    hide SlotAt, MapSize, Put;
    SlotInside(g, i);
    var o := SlotAt(g, i);
    var at, pay := o + META_AT, o + SLOT_HEADER_SIZE;
    PutOutside(m, at, at + META, pay + k, bs);
    PutInside(m, pay, pay + g.cap, pay + k, bs);
    PutBack(m[at..at + META], m[pay..pay + g.cap], k, bs);
  }

  lemma PutInside(m: seq<byte>, a: nat, b: nat, off: nat, bs: seq<byte>)
    requires a <= off && off + |bs| <= b <= |m|
    ensures Put(m, off, bs)[a..b] == Put(m[a..b], off - a, bs)
  {}

  lemma PutOutside(m: seq<byte>, a: nat, b: nat, off: nat, bs: seq<byte>)
    requires a <= b <= |m| && off + |bs| <= |m| && (b <= off || off + |bs| <= a)
    ensures Put(m, off, bs)[a..b] == m[a..b]
  {}

  lemma PutFront(a: seq<byte>, b: seq<byte>, k: nat, bs: seq<byte>)
    requires k + |bs| <= |a|
    ensures Put(a, k, bs) + b == Put(a + b, k, bs)
  {}

  lemma PutBack(a: seq<byte>, b: seq<byte>, k: nat, bs: seq<byte>)
    requires k + |bs| <= |b|
    ensures a + Put(b, k, bs) == Put(a + b, |a| + k, bs)
  {}
}
