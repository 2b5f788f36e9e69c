// read_latest as the loop it is, over the mapped bytes, with other processes at work between its loads.
module MappedReader {
  import opened Api
  import opened Bytes
  import opened Layout
  import opened Ring
  import opened RingInvariant
  import RW = RingWriter
  import opened RingReader
  import opened RingReading
  import opened RingQuiet
  import opened Reuse
  import opened MappedBytes
  import opened Bits

  /** What happens to a file: its log and its commits only grow. */
  ghost predicate Grown(f: File, g: File) {
    && |g.slots| == |f.slots| && g.cap == f.cap && f.log <= g.log
    && |g.commits| == |f.commits| && forall j :: 0 <= j < |f.commits| ==> f.commits[j] <= g.commits[j]
  }

  /** No slot was committed 2^27 times meanwhile. */
  ghost predicate NoWrap(f: File, g: File) {
    |g.commits| == |f.commits| && forall j :: 0 <= j < |f.commits| ==> g.commits[j] < f.commits[j] + TAGS
  }

  /** A sound channel, and a reader in a read or peek that knows what `r` says. */
  ghost predicate Knows(f: File, ag: Agent, r: Reader) {
    AgentInv(f, ag) && Live(f) && RInv(f, r) && !r.op.Wait?
  }

  lemma DoSeen(f: File, w: Writer, a: WAct, r: Reader)
    requires Knows(f, Writing(w), r) && WEnabled(f, w, a)
    requires AgentInv(WFile(f, w, a), Writing(WHandle(f, w, a)))
    ensures var g := WFile(f, w, a);
            RInv(g, r) && Live(g) && Grown(f, g)
  {
    RW.WriterEvolves(f, w, a);
    ReaderEvolves(f, WFile(f, w, a), RW.Wakes(w, a), r);
  }

  lemma DieSeen(f: File, ag: Agent, r: Reader)
    requires Knows(f, ag, r)
    ensures var g := CrashFile(f, ag);
            AgentInv(g, NoAgent) && RInv(g, r) && Live(g) && Grown(f, g)
  {
    RW.CrashKeeps(f, ag);
    ReaderEvolves(f, CrashFile(f, ag), false, r);
  }

  lemma RetireSeen(f: File, st: RetireStage, r: Reader)
    requires Knows(f, Retiring(st), r)
    ensures var g := RetireFile(f, st);
            AgentInv(g, RetireAgent(st)) && RInv(g, r) && Live(g) && Grown(f, g)
  {
    RW.RetireKeeps(f, st);
    RW.RetireEvolves(f, st);
    ReaderEvolves(f, RetireFile(f, st), st.WakeRetired?, r);
  }

  /** What others do leaves the reader's knowledge true. */
  lemma EventSeen(f: File, ag: Agent, e: Event, r: Reader)
    requires Knows(f, ag, r)
    ensures var (g, ag') := After1(f, ag, e);
            Knows(g, ag', r) && Grown(f, g)
  {
    EventKeeps(f, ag, e);
    hide AgentInv, RInv, Live, WFile, WHandle, CrashFile, RetireFile;
    if ag.Writing? && e.Do? && WEnabled(f, ag.w, e.a) {
      DoSeen(f, ag.w, e.a, r);
    } else if e.Die? {
      DieSeen(f, ag, r);
    } else if e.Retire? && ag.Retiring? {
      RetireSeen(f, ag.stage, r);
    }
  }

  lemma {:induction false} EventsSeen(f: File, ag: Agent, es: seq<Event>, r: Reader)
    requires Knows(f, ag, r)
    ensures var (g, ag') := Afterwards(f, ag, es);
            Knows(g, ag', r) && Grown(f, g)
    decreases |es|
  {
    hide Knows, After1;
    if es != [] {
      EventSeen(f, ag, es[0], r);
      var (g, ag') := After1(f, ag, es[0]);
      EventsSeen(g, ag', es[1..], r);
    }
  }

  lemma LoadSeen(f: File, ag: Agent, r: Reader)
    requires Knows(f, ag, r) && !r.pc.Finished?
    ensures RReady(f, r) && Knows(f, ag, RNext(f, r))
  {
    ReaderProgress(f, r);
    ReaderKeeps(f, r);
  }

  lemma Starts(f: File, ag: Agent, op: Op)
    requires AgentInv(f, ag) && Live(f) && !op.Wait?
    ensures Knows(f, ag, NewCall(f, op))
  {}

  lemma Ends(f: File, ag: Agent, r: Reader)
    requires Knows(f, ag, r) && r.pc.Finished?
    ensures AgentInv(f, ag) && Explained(f, r.op, r.pc.o, r.first, r.base, r.fin, r.ok)
  {}

  /** The bytes in `script`, one mapping after the other, are what the others leave by `turns` of theirs. */
  ghost predicate Follows(script: seq<seq<byte>>, turns: seq<seq<Event>>, f: File, ag: Agent, g: Geo)
    requires GeoOk(g)
  {
    && |script| == |turns|
    && (script != [] ==>
          var (f', ag') := Afterwards(f, ag, turns[0]);
          && |script[0]| == MapSize(g) && MemOf(script[0], g) == MemFile(f')
          && Follows(script[1..], turns[1..], f', ag', g))
  }

  /** The file, who may store into it, and what the others will do. */
  datatype Scene = Scene(file: File, agent: Agent, turns: seq<seq<Event>>)

  /** After the next `c` turns of the others. */
  function Later(sc: Scene, c: nat): Scene
    decreases c
  {
    if c == 0 || sc.turns == [] then sc
    else Later(Scene(Afterwards(sc.file, sc.agent, sc.turns[0]).0, Afterwards(sc.file, sc.agent, sc.turns[0]).1, sc.turns[1..]), c - 1)
  }

  /** Nothing but turns of the others came between. */
  ghost predicate Played(sc: Scene, sc': Scene) {
    exists c: nat :: sc' == Later(sc, c)
  }

  lemma {:induction false} LaterAdd(sc: Scene, a: nat, b: nat)
    ensures Later(Later(sc, a), b) == Later(sc, a + b)
    decreases a
  {
    if a > 0 && sc.turns != [] {
      var (f, ag) := Afterwards(sc.file, sc.agent, sc.turns[0]);
      LaterAdd(Scene(f, ag, sc.turns[1..]), a - 1, b);
    } else if sc.turns == [] {
      assert Later(sc, b) == sc == Later(sc, a + b);
    }
  }

  lemma PlayedOn(sc: Scene, sc': Scene, sc'': Scene)
    requires Played(sc, sc') && Played(sc', sc'')
    ensures Played(sc, sc'')
  {
    var a: nat :| sc' == Later(sc, a);
    var b: nat :| sc'' == Later(sc', b);
    LaterAdd(sc, a, b);
  }

  lemma NotPlayed(sc: Scene)
    ensures Played(sc, sc)
  {
    assert sc == Later(sc, 0);
  }

  lemma PlayedOne(sc: Scene)
    requires sc.turns != []
    ensures Played(sc, Scene(Afterwards(sc.file, sc.agent, sc.turns[0]).0, Afterwards(sc.file, sc.agent, sc.turns[0]).1, sc.turns[1..]))
  {
    var next := Scene(Afterwards(sc.file, sc.agent, sc.turns[0]).0, Afterwards(sc.file, sc.agent, sc.turns[0]).1, sc.turns[1..]);
    assert Later(next, 0) == next;
    assert next == Later(sc, 1);
  }

  /** The mapping as one reader finds it: before each of its loads, others take any steps they like. */
  class World {
    const mem: array<byte>
    const g: Geo
    var script: seq<seq<byte>>         // the bytes the others leave before each load
    ghost var turns: seq<seq<Event>>   // the steps that leave them
    ghost var file: File
    ghost var agent: Agent

    /** The mapped bytes are the file, now and after every turn of the others. */
    ghost predicate Mapped()
      reads this, mem
    {
      && GeoOk(g) && mem.Length == MapSize(g) && MemOf(mem[..], g) == MemFile(file)
      && file.cap == g.cap && |file.slots| == g.n
      && Follows(script, turns, file, agent, g)
    }

    ghost function Now(): Scene
      reads this
    {
      Scene(file, agent, turns)
    }

    /** The others take their turn. */
    method Interfere(ghost r: Reader)
      requires Mapped() && Knows(file, agent, r)
      modifies this, mem
      ensures Mapped() && Knows(file, agent, r) && Grown(old(file), file) && Played(old(Now()), Now())
      ensures |file.slots| == g.n && file.cap == g.cap
    {
      hide Knows, AgentInv, Played;
      NotPlayed(Now());
      if script != [] {
        PlayedOne(Now());
        EventsSeen(file, agent, turns[0], r);
        file, agent := Afterwards(file, agent, turns[0]).0, Afterwards(file, agent, turns[0]).1;
        ghost var next := script[0];
        forall k | 0 <= k < mem.Length {
          mem[k] := script[0][k];
        }
        assert mem[..] == next;
        script, turns := script[1..], turns[1..];
      }
    }

    /** The others take their turn, then the reader loads something. */
    method Turn(ghost r: Reader) returns (ghost r': Reader)
      requires Mapped() && Knows(file, agent, r) && !r.pc.Finished?
      modifies this, mem
      ensures Mapped() && Knows(file, agent, r') && Grown(old(file), file) && Played(old(Now()), Now())
      ensures |file.slots| == g.n && file.cap == g.cap
      ensures RReady(file, r) && r' == RNext(file, r)
    {
      hide Knows, Mapped, RReady, RNext, Played;
      Interfere(r);
      LoadSeen(file, agent, r);
      r' := RNext(file, r);
    }

    method LoadLatest() returns (l: u32)
      requires Mapped()
      ensures l == file.latest
    {
      MapHasHeader(g);
      l := Word(mem[..], LATEST_AT);
    }

    method LoadSeq(i: nat) returns (q: u32)
      requires Mapped() && i < g.n
      ensures q == file.slots[i].seqno
    {
      SlotInside(g, i);
      q := Word(mem[..], SlotAt(g, i));
      assert SlotIn(mem[..], g, i) == file.slots[i];
    }

    method LoadByte(i: nat, k: nat) returns (b: byte)
      requires Mapped() && i < g.n && k < META + g.cap
      ensures |file.slots[i].body| == META + g.cap && b == file.slots[i].body[k]
    {
      BodyByte(mem[..], g, i, k);
      b := mem[BodyAt(g, i, k)];
      assert SlotIn(mem[..], g, i) == file.slots[i];
    }
  }

  datatype Info = Info(gen: u32, ts: u64, len: u32)

  /** The code, the info and the bytes, as one outcome. */
  function Told(rc: Code, info: Info, bytes: seq<byte>): Outcome {
    match rc
    case OK => Value(info.gen, info.ts, info.len, bytes)
    case TOOSMALL => TooSmall(info.gen, info.ts, info.len)
    case NODATA => NoData
    case BUSY => Busy
    case _ => Format
  }

  /** psmi_seq_copy of the slot's header fields. */
  method CopyMeta(world: World, i: nat, m: array<byte>, ghost r: Reader) returns (ghost r': Reader)
    requires m.Length == META && m != world.mem && r.pc.Copy? && r.i == i && r.got == []
    requires world.Mapped() && Knows(world.file, world.agent, r)
    modifies world, world.mem, m
    ensures world.Mapped() && Knows(world.file, world.agent, r') && Grown(old(world.file), world.file) && Played(old(world.Now()), world.Now())
    ensures r' == r.(got := m[..])
  {
    hide Played, Knows, World.Mapped;
    NotPlayed(world.Now());
    r' := r;
    var k := 0;
    while k < META
      invariant 0 <= k <= META
      invariant world.Mapped() && Knows(world.file, world.agent, r') && Grown(old(world.file), world.file) && Played(old(world.Now()), world.Now())
      invariant r' == r.(got := m[..k])
    {
      ghost var was := world.Now();
      r' := world.Turn(r');
      PlayedOn(old(world.Now()), was, world.Now());
      m[k] := world.LoadByte(i, k);
      k := k + 1;
    }
  }

  /** psmi_seq_copy of the payload. */
  method CopyPayload(world: World, i: nat, len: nat, buf: array<byte>, ghost r: Reader) returns (ghost r': Reader)
    requires len <= buf.Length && buf != world.mem && r.pc.Copy? && r.i == i
    requires |r.got| == META && len == MetaLen(r.got) && Wanted(world.file, r) == META + len
    requires world.Mapped() && Knows(world.file, world.agent, r)
    modifies world, world.mem, buf
    ensures world.Mapped() && Knows(world.file, world.agent, r') && Grown(old(world.file), world.file) && Played(old(world.Now()), world.Now())
    ensures r' == r.(got := r.got + buf[..len])
    ensures buf[len..] == old(buf[len..])
  {
    hide Played, Knows, World.Mapped;
    NotPlayed(world.Now());
    r' := r;
    var k := 0;
    while k < len
      invariant 0 <= k <= len
      invariant world.Mapped() && Knows(world.file, world.agent, r') && Grown(old(world.file), world.file) && Played(old(world.Now()), world.Now())
      invariant r' == r.(got := r.got + buf[..k])
      invariant buf[len..] == old(buf[len..])
    {
      assert (r.got + buf[..k])[12..16] == r.got[12..16];
      ghost var was := world.Now();
      r' := world.Turn(r');
      PlayedOn(old(world.Now()), was, world.Now());
      buf[k] := world.LoadByte(i, META + k);
      k := k + 1;
      assert buf[..k] == buf[..k - 1] + [buf[k - 1]];
    }
  }

  lemma MetaOfPrefix(a: seq<byte>, b: seq<byte>)
    requires |a| == META && a <= b
    ensures MetaGen(b) == MetaGen(a) && MetaTs(b) == MetaTs(a) && MetaLen(b) == MetaLen(a)
    ensures b[META..] == b[|a|..]
  {
    assert b[..4] == a[..4] && b[4..12] == a[4..12] && b[12..16] == a[12..16];
  }

  /** Both copies of an attempt. */
  method CopySlot(world: World, i: nat, cap: nat, m: array<byte>, buf: array<byte>, size: u32, copy: bool, ghost r: Reader)
    returns (len: u32, ghost r': Reader)
    requires m.Length == META && m != buf && m != world.mem && buf != world.mem && r.pc.Copy? && r.i == i && r.got == []
    requires world.Mapped() && Knows(world.file, world.agent, r) && world.file.cap == cap
    requires r.op == (if copy then Read(size) else Peek) && (copy ==> size <= buf.Length)
    modifies world, world.mem, m, buf
    ensures world.Mapped() && Knows(world.file, world.agent, r') && Grown(old(world.file), world.file) && Played(old(world.Now()), world.Now())
    ensures r' == r.(got := r'.got) && |r'.got| == Wanted(world.file, r')
    ensures len == MetaLen(m[..]) == MetaLen(r'.got)
    ensures MetaGen(r'.got) == MetaGen(m[..]) && MetaTs(r'.got) == MetaTs(m[..])
    ensures r'.got[META..] == if copy && len <= size && len <= cap then buf[..len] else []
    ensures !copy || len > size ==> buf[..] == old(buf[..])
  {
    hide Played, Knows, World.Mapped;
    r' := CopyMeta(world, i, m, r);
    ghost var was := world.Now();
    len := MetaLen(m[..]);
    var fits := len <= size;
    if copy && fits && len <= cap {
      r' := CopyPayload(world, i, len, buf, r');
      PlayedOn(old(world.Now()), was, world.Now());
    }
    MetaOfPrefix(m[..], r'.got);
  }

  /** What an attempt says: an outcome of the reader's steps, or to be tried again. */
  ghost predicate Decided(r: Reader, r': Reader, done: bool, rc: Code, info: Info, bytes: seq<byte>) {
    && r'.op == r.op && r'.first == r.first
    && (if done then r'.attempt == r.attempt && r'.pc == Finished(Told(rc, info, bytes))
        else
          && r'.attempt == r.attempt + 1
          && (if r'.attempt < READ_RETRIES then r'.pc.LoadLatest? else r'.pc == Finished(Busy)))
  }

  /** The copies, and the second look at seq. */
  method CopyAndCheck(world: World, i: nat, q1: u32, cap: nat, m: array<byte>, buf: array<byte>, size: u32, copy: bool, ghost r: Reader)
    returns (done: bool, rc: Code, info: Info, ghost r': Reader)
    requires m.Length == META && m != buf && m != world.mem && buf != world.mem
    requires r.pc.Copy? && r.i == i && r.q1 == q1 && r.got == []
    requires world.Mapped() && Knows(world.file, world.agent, r) && world.file.cap == cap
    requires r.op == (if copy then Read(size) else Peek) && (copy ==> size <= buf.Length)
    modifies world, world.mem, m, buf
    ensures world.Mapped() && Knows(world.file, world.agent, r') && Grown(old(world.file), world.file) && Played(old(world.Now()), world.Now())
    ensures rc in {OK, TOOSMALL, NODATA, BUSY, FORMAT} && (rc == OK && copy ==> info.len <= size)
    ensures Decided(r, r', done, rc, info, if rc == OK && copy then buf[..info.len] else [])
    ensures !copy || (done && rc == TOOSMALL) ==> buf[..] == old(buf[..])
    ensures done ==> rc != NODATA && i < |world.file.commits| && (r'.ok <==> world.file.commits[i] < r.c0 + TAGS)
  {
    hide Played, Knows, World.Mapped, MetaGen, MetaTs, MetaLen;
    var len;
    len, r' := CopySlot(world, i, cap, m, buf, size, copy, r);
    ghost var copied, was := r', world.Now();
    r' := world.Turn(r');
    PlayedOn(old(world.Now()), was, world.Now());
    assert r' == Rechecked(world.file, copied);
    var q2 := world.LoadSeq(i);
    info := Info(MetaGen(m[..]), MetaTs(m[..]), len);
    done, rc := q2 == q1, if len > cap then FORMAT else if !copy || len <= size then OK else TOOSMALL;
  }

  /** One attempt: decided, or to be tried again. */
  method Attempt(world: World, n: nat, cap: nat, m: array<byte>, buf: array<byte>, size: u32, copy: bool, ghost r: Reader)
    returns (done: bool, rc: Code, info: Info, ghost r': Reader)
    requires m.Length == META && m != buf && m != world.mem && buf != world.mem && r.pc.LoadLatest? && r.attempt < READ_RETRIES
    requires world.Mapped() && Knows(world.file, world.agent, r) && world.file.cap == cap && |world.file.slots| == n
    requires r.op == (if copy then Read(size) else Peek) && (copy ==> size <= buf.Length)
    modifies world, world.mem, m, buf
    ensures world.Mapped() && Knows(world.file, world.agent, r') && Grown(old(world.file), world.file) && Played(old(world.Now()), world.Now())
    ensures rc in {OK, TOOSMALL, NODATA, BUSY, FORMAT} && (rc == OK && copy ==> info.len <= size)
    ensures Decided(r, r', done, rc, info, if rc == OK && copy then buf[..info.len] else [])
    ensures !copy || (done && rc in {NODATA, TOOSMALL}) ==> buf[..] == old(buf[..])
    ensures done && NoWrap(old(world.file), world.file) ==> r'.ok
  {
    hide Played, Knows, World.Mapped;
    done, rc, info := true, NODATA, Info(0, 0, 0);
    r' := world.Turn(r);
    assert r' == LoadedLatest(world.file, r);
    var latest := world.LoadLatest();
    if latest == NONE { return; }
    if !LatestValid(latest, n) { rc := FORMAT; return; }
    var i := LatestSlot(latest);
    ghost var named, was := r', world.Now();
    r' := world.Turn(r');
    PlayedOn(old(world.Now()), was, world.Now());
    assert r' == LoadedSeq(world.file, named);
    var q1 := world.LoadSeq(i);
    if q1 % 2 == 0 && Latest(i, q1) == latest {
      was := world.Now();
      done, rc, info, r' := CopyAndCheck(world, i, q1, cap, m, buf, size, copy, r');
      PlayedOn(old(world.Now()), was, world.Now());
    } else {
      done := false;
    }
  }

  /** Between two attempts of a call that began with `first` publishes. */
  ghost predicate Between(r: Reader, op: Op, first: nat, attempt: nat) {
    && r.op == op && r.first == first && r.attempt == attempt
    && (if attempt < READ_RETRIES then r.pc.LoadLatest? else r.pc == Finished(Busy))
  }

  /** Every attempt before this one took a turn of the ring but a slot. */
  lemma Tried(f: File, ag: Agent, r: Reader)
    requires Knows(f, ag, r) && r.pc.LoadLatest?
    ensures |f.log| >= r.first + r.attempt * (|f.slots| - 1) && |f.slots| >= MIN_SLOTS
    ensures r.attempt > 0 ==> |f.log| >= r.first + |f.slots| - 1
  {
    if r.attempt > 0 { AtLeastOnce(r.attempt, |f.slots| - 1); }
  }

  /** The attempts: 64 of them fail, or one decides. */
  method Attempts(world: World, n: nat, cap: nat, buf: array<byte>, size: u32, copy: bool, ghost r0: Reader)
    returns (rc: Code, info: Info, ghost r: Reader)
    requires world.Mapped() && Knows(world.file, world.agent, r0) && world.file.cap == cap && |world.file.slots| == n
    requires Between(r0, if copy then Read(size) else Peek, r0.first, 0)
    requires buf != world.mem && (copy ==> size <= buf.Length)
    modifies world, world.mem, buf
    ensures world.Mapped() && Knows(world.file, world.agent, r) && Grown(old(world.file), world.file) && Played(old(world.Now()), world.Now())
    ensures rc in {OK, TOOSMALL, NODATA, BUSY, FORMAT} && (rc == OK && copy ==> info.len <= size)
    ensures r.op == r0.op && r.first == r0.first
    ensures r.pc == Finished(Told(rc, info, if rc == OK && copy then buf[..info.len] else []))
    ensures NoWrap(old(world.file), world.file) && rc != BUSY ==> r.ok
    ensures !copy || (rc in {NODATA, TOOSMALL} && |world.file.log| < r0.first + n - 1) ==> buf[..] == old(buf[..])
  {
    hide Played, Knows, World.Mapped;
    NotPlayed(world.Now());
    r := r0;
    var m := new byte[META];
    var attempt := 0;
    while attempt < READ_RETRIES
      invariant 0 <= attempt <= READ_RETRIES && fresh(m)
      invariant world.Mapped() && Knows(world.file, world.agent, r) && Grown(old(world.file), world.file) && Played(old(world.Now()), world.Now())
      invariant Between(r, r0.op, r0.first, attempt)
      invariant !copy || attempt == 0 ==> buf[..] == old(buf[..])
    {
      var done;
      ghost var was := world.Now();
      Tried(world.file, world.agent, r);
      done, rc, info, r := Attempt(world, n, cap, m, buf, size, copy, r);
      PlayedOn(old(world.Now()), was, world.Now());
      if done { return; }
      attempt := attempt + 1;
    }
    rc, info := BUSY, Info(0, 0, 0);
  }

  /**
   * Whatever the others do between its loads: a value or the size of one is publish number
   * `r.base - 1`, made before the call returned and not before the last one the call found;
   * NODATA means there was none; FORMAT cannot happen; BUSY means 64 turns of the ring but
   * a slot each. `r.ok` says that no slot read was committed 2^27 times during the attempt; it
   * holds whenever none was during the call.
   */
  method ReadLatest(world: World, buf: array<byte>, size: u32, copy: bool)
    returns (rc: Code, info: Info, ghost r: Reader)
    requires world.Mapped() && AgentInv(world.file, world.agent) && Live(world.file)
    requires buf != world.mem && (copy ==> size <= buf.Length)
    modifies world, world.mem, buf
    ensures world.Mapped() && AgentInv(world.file, world.agent) && Grown(old(world.file), world.file) && Played(old(world.Now()), world.Now())
    ensures rc in {OK, TOOSMALL, NODATA, BUSY, FORMAT} && (rc == OK && copy ==> info.len <= size)
    ensures var bytes := if rc == OK && copy then buf[..info.len] else [];
            Explained(world.file, if copy then Read(size) else Peek, Told(rc, info, bytes),
                      |old(world.file.log)|, r.base, r.fin, r.ok)
    ensures NoWrap(old(world.file), world.file) && rc != BUSY ==> r.ok
    ensures !copy || (rc in {NODATA, TOOSMALL} && |world.file.log| < |old(world.file.log)| + world.g.n - 1) ==>
              buf[..] == old(buf[..])
  {
    var n, cap := world.g.n, world.g.cap;
    assert world.file.cap == cap && |world.file.slots| == n;
    hide Played, Knows, World.Mapped, AgentInv, Live, Explained;
    ghost var r0 := NewCall(world.file, if copy then Read(size) else Peek);
    Starts(world.file, world.agent, r0.op);
    rc, info, r := Attempts(world, n, cap, buf, size, copy, r0);
    Ends(world.file, world.agent, r);
  }
}
