// Data file layout and the `latest` word, src/layout.h.
module Layout {
  import opened Bytes

  const MAGIC: u32 := 0x534D_5350
  const VERSION_MAJOR: nat := 1
  const HEADER_SIZE: nat := 128
  const SLOT_HEADER_SIZE: nat := 32
  const SLOT_ALIGN: nat := 64
  const MIN_SLOTS: nat := 2
  const MAX_SLOTS: nat := 16
  const MAX_CAPACITY: nat := 0x100_0000
  const NONE: u32 := 0xFFFF_FFFF
  const TAGS: nat := 0x800_0000 // number of distinct tags, 2^27

  /** The const fields of the channel header that attach validates. */
  datatype Header = Header(
    magic: u32, major: nat, minor: nat, headerSize: u32, slotHeaderSize: u32,
    slotCount: u32, slotStride: u32, capacity: u32, payloadType: u32, configFlags: u32)

  /** The word published for slot `i` committed with `s`: the commit count above the index. */
  function Latest(i: nat, s: u32): u32
    requires i < MAX_SLOTS
  {
    (s / 2 % TAGS) * 16 + i
  }

  function LatestSlot(w: u32): nat {
    w % 16
  }

  /** NONE, or bit 31 clear and a slot index below `n`. */
  predicate LatestValid(w: u32, n: nat) {
    w == NONE || (w < 0x8000_0000 && LatestSlot(w) < n)
  }

  /** The slot header and payload rounded up to whole 64-byte lines, in 32-bit arithmetic. */
  function SlotStride(capacity: u32): nat {
    (SLOT_HEADER_SIZE + capacity + SLOT_ALIGN - 1) % U32 / 64 * 64
  }

  function FileSize(n: nat, stride: nat): nat {
    HEADER_SIZE + n * stride
  }

  predicate HeaderValid(h: Header, fileBytes: nat) {
    && h.magic == MAGIC && h.major == VERSION_MAJOR
    && h.headerSize == HEADER_SIZE && h.slotHeaderSize == SLOT_HEADER_SIZE
    && MIN_SLOTS <= h.slotCount <= MAX_SLOTS
    && h.capacity <= MAX_CAPACITY
    && h.slotStride == SlotStride(h.capacity)
    && FileSize(h.slotCount, h.slotStride) <= fileBytes
  }

  /** Offset of slot `i` from the start of the mapping. */
  function SlotOffset(i: nat, stride: nat): nat {
    HEADER_SIZE + i * stride
  }

  /** `latest` names exactly one slot and one commit count, and never looks empty. */
  lemma LatestDecodes(i: nat, s: u32, n: nat)
    requires i < n <= MAX_SLOTS
    ensures LatestSlot(Latest(i, s)) == i
    ensures LatestValid(Latest(i, s), n) && Latest(i, s) != NONE
    ensures Latest(i, s) / 16 == s / 2 % TAGS
  {
    var t := s / 2 % TAGS;
    assert Latest(i, s) == t * 16 + i;
    assert t <= TAGS - 1;
  }

  lemma LatestInjective(i: nat, s: u32, j: nat, t: u32)
    requires i < MAX_SLOTS && j < MAX_SLOTS
    ensures Latest(i, s) == Latest(j, t) <==> i == j && s / 2 % TAGS == t / 2 % TAGS
  {
    LatestDecodes(i, s, MAX_SLOTS);
    LatestDecodes(j, t, MAX_SLOTS);
  }

  lemma StrideBounds(capacity: u32)
    requires capacity <= MAX_CAPACITY
    ensures SlotStride(capacity) % SLOT_ALIGN == 0
    ensures SLOT_HEADER_SIZE + capacity <= SlotStride(capacity) < SLOT_HEADER_SIZE + capacity + SLOT_ALIGN
  {
    var x := SLOT_HEADER_SIZE + capacity + SLOT_ALIGN - 1;
    assert x % U32 == x;
    RoundDown(x);
  }

  lemma RoundDown(x: nat)
    ensures x / 64 * 64 % 64 == 0 && x - 64 < x / 64 * 64 <= x
  {}

  /** No 32-bit quantity of a valid header overflows, and slots are whole cache lines. */
  lemma StrideSound(h: Header, fileBytes: nat)
    requires HeaderValid(h, fileBytes)
    ensures h.slotStride % SLOT_ALIGN == 0
    ensures SLOT_HEADER_SIZE + h.capacity <= h.slotStride < SLOT_HEADER_SIZE + h.capacity + SLOT_ALIGN
    ensures FileSize(h.slotCount, h.slotStride) < U32
  {
    StrideBounds(h.capacity);
    hide SlotStride;
    MulMono(h.slotCount, 16, h.slotStride);
  }

  lemma MulMono(a: nat, b: nat, c: nat)
    requires a <= b
    ensures a * c <= b * c
  {}

  /** Two slots never share a byte; each payload is 32-byte aligned. */
  lemma SlotsDisjoint(h: Header, fileBytes: nat, i: nat, j: nat)
    requires HeaderValid(h, fileBytes)
    requires i < j < h.slotCount
    ensures SlotOffset(i, h.slotStride) + SLOT_HEADER_SIZE + h.capacity <= SlotOffset(j, h.slotStride)
  {
    StrideSound(h, fileBytes);
    hide SlotStride;
    MulMono(i + 1, j, h.slotStride);
    assert (i + 1) * h.slotStride == i * h.slotStride + h.slotStride;
  }

  lemma PayloadAligned(h: Header, fileBytes: nat, i: nat)
    requires HeaderValid(h, fileBytes)
    ensures SlotOffset(i, h.slotStride) % SLOT_ALIGN == 0
    ensures (SlotOffset(i, h.slotStride) + SLOT_HEADER_SIZE) % 32 == 0
  {
    StrideSound(h, fileBytes);
    hide HeaderValid, SlotStride;
    Lines(i, h.slotStride);
  }

  lemma Lines(i: nat, stride: nat)
    requires stride % 64 == 0
    ensures (HEADER_SIZE + i * stride) % 64 == 0 && (HEADER_SIZE + i * stride + SLOT_HEADER_SIZE) % 32 == 0
  {
    var k := stride / 64;
    assert i * stride == (i * k) * 64;
  }

  /**
   * Whatever `latest` and the slot's length field hold, the slot header a read
   * copies and the payload it copies after its two length checks lie in the mapping.
   */
  lemma ReadInsideMapping(h: Header, fileBytes: nat, latest: u32, length: u32)
    requires HeaderValid(h, fileBytes)
    requires latest != NONE && LatestValid(latest, h.slotCount)
    ensures HEADER_SIZE <= SlotOffset(LatestSlot(latest), h.slotStride)
    ensures SlotOffset(LatestSlot(latest), h.slotStride) + SLOT_HEADER_SIZE
         <= FileSize(h.slotCount, h.slotStride) <= fileBytes
    ensures length <= h.capacity ==>
      SlotOffset(LatestSlot(latest), h.slotStride) + SLOT_HEADER_SIZE + length
      <= FileSize(h.slotCount, h.slotStride)
  {
    var i := LatestSlot(latest);
    StrideSound(h, fileBytes);
    hide SlotStride;
    MulMono(i + 1, h.slotCount, h.slotStride);
    assert (i + 1) * h.slotStride == i * h.slotStride + h.slotStride;
  }
}

// The bit expressions of src/layout.h and their meaning.
module LayoutBits {
  import opened Bytes
  import opened Bits
  import opened Layout

  const SLOT_MASK: nat := 0xF
  const TAG_MASK: nat := 0x07FF_FFFF

  function LatestExpr(i: nat, s: u32): nat {
    Or(Shl(And(Shr(s, 1), TAG_MASK), 4), i)
  }

  function LatestSlotExpr(w: u32): nat {
    And(w, SLOT_MASK)
  }

  predicate LatestValidExpr(w: u32, n: nat) {
    w == NONE || (Shr(w, 31) == 0 && LatestSlotExpr(w) < n)
  }

  function SlotStrideExpr(capacity: u32): nat {
    Powers();
    And((SLOT_HEADER_SIZE + capacity + SLOT_ALIGN - 1) % U32, Not(SLOT_ALIGN - 1, 32))
  }

  lemma LatestExprMeans(i: nat, s: u32)
    requires i < MAX_SLOTS
    ensures LatestExpr(i, s) == Latest(i, s)
  {
    Powers();
    assert Shr(s, 1) == s / 2;
    AndLowMask(s / 2, 27);
    OrShifted(s / 2 % TAGS, 4, i);
  }

  lemma LatestSlotExprMeans(w: u32)
    ensures LatestSlotExpr(w) == LatestSlot(w)
  {
    Powers();
    AndLowMask(w, 4);
  }

  lemma LatestValidExprMeans(w: u32, n: nat)
    ensures LatestValidExpr(w, n) <==> LatestValid(w, n)
  {
    Powers();
    ShrZero(w, 31);
    LatestSlotExprMeans(w);
  }

  lemma SlotStrideExprMeans(capacity: u32)
    ensures SlotStrideExpr(capacity) == SlotStride(capacity)
  {
    var x := (SLOT_HEADER_SIZE + capacity + SLOT_ALIGN - 1) % U32;
    Powers();
    AndHighMask(x, 6, 32);
    ClearLow6(x, 6);
  }
}
