// Taking over a data file whatever its slots hold: one publish makes the channel readable,
// and a turn of the ring restores its whole invariant.
module Reuse {
  import opened Bytes
  import opened Layout
  import opened Ring
  import opened RingInvariant
  import opened RingWriter
  import opened RingReader
  import opened RingQuiet

  /** Any contents that open_data accepts: the slots may hold anything, `latest` need only be well-formed. */
  predicate Acceptable(cap: nat, slots: seq<Slot>, latest: u32) {
    && cap <= MAX_CAPACITY
    && MIN_SLOTS <= |slots| <= MAX_SLOTS
    && (forall j :: 0 <= j < |slots| ==> |slots[j].body| == META + cap)
    && LatestValid(latest, |slots|)
  }

  function UpTo(n: nat): (s: set<nat>)
    ensures forall j: nat :: j in s <==> j < n
  {
    if n == 0 then {} else UpTo(n - 1) + {n - 1}
  }

  /** The file with such contents, its history starting here. */
  function Adopt(cap: nat, notifyOn: bool, slots: seq<Slot>, latest: u32, notify: u32, clock: u64): File
    requires Acceptable(cap, slots, latest)
  {
    var next := if latest == NONE then 0 else After(LatestSlot(latest), |slots|);
    File(cap, notifyOn, 0, 0, slots, latest, notify, false,
         next, [], seq(|slots|, j requires 0 <= j < |slots| => slots[j].seqno / 2),
         seq(|slots|, j requires 0 <= j < |slots| => slots[j].seqno % 2 == 1), clock,
         notify, 0, false, false, false, true, UpTo(|slots|))
  }

  lemma AdoptIsSound(cap: nat, notifyOn: bool, slots: seq<Slot>, latest: u32, notify: u32, clock: u64)
    requires Acceptable(cap, slots, latest)
    ensures AgentInv(Adopt(cap, notifyOn, slots, latest, notify, clock), NoAgent)
  {
    var f := Adopt(cap, notifyOn, slots, latest, notify, clock);
    forall j | 0 <= j < |f.slots|
      ensures f.slots[j].seqno == SeqWord(f.commits[j], f.odd[j])
    {
      SplitSeq(slots[j].seqno);
    }
  }

  lemma SplitSeq(s: u32)
    ensures s == SeqWord(s / 2, s % 2 == 1)
  {}

  /** What happens to the file from then on: stores, crashes and closes, new handles, and the steps of retire. */
  datatype Event = Do(a: WAct) | Die | Take(random: u32) | Retire

  function After1(f: File, ag: Agent, e: Event): (File, Agent) {
    match e
    case Do(a) =>
      if ag.Writing? && WEnabled(f, ag.w, a) then (WFile(f, ag.w, a), Writing(WHandle(f, ag.w, a))) else (f, ag)
    case Die => (CrashFile(f, ag), NoAgent)
    case Take(random) => if ag.NoAgent? && !f.retired && random != 0 then (f, Writing(Reopen(f, random))) else (f, ag)
    case Retire =>
      match ag
      case NoAgent => if f.retired then (f, ag) else (f, Retiring(SetRetired))
      case Writing(_) => (f, ag)
      case Retiring(st) => (RetireFile(f, st), RetireAgent(st))
  }

  function Afterwards(f: File, ag: Agent, es: seq<Event>): (File, Agent)
    decreases |es|
  {
    if es == [] then (f, ag)
    else
      var (g, ag') := After1(f, ag, es[0]);
      Afterwards(g, ag', es[1..])
  }

  ghost predicate Kept(f: File, g: File) {
    |g.slots| == |f.slots| && g.cap == f.cap && g.adopted == f.adopted
  }

  lemma EventKeeps(f: File, ag: Agent, e: Event)
    requires AgentInv(f, ag)
    ensures var (g, ag') := After1(f, ag, e);
            AgentInv(g, ag') && Kept(f, g)
  {
    hide FileInv, WriterInv, WFile, WHandle, Reopen;
    match e
    case Do(a) =>
      if ag.Writing? && WEnabled(f, ag.w, a) {
        WriterKeeps(f, ag.w, a);
        WriterEvolves(f, ag.w, a);
      }
    case Die => CrashKeeps(f, ag);
    case Take(random) => if ag.NoAgent? && !f.retired && random != 0 { ReuseKeeps(f, random); }
    case Retire =>
      if ag.NoAgent? {
        StartRetire(f);
      } else if ag.Retiring? {
        RetireKeeps(f, ag.stage);
        RetireEvolves(f, ag.stage);
      }
  }

  lemma {:induction false} EventsKeep(f: File, ag: Agent, es: seq<Event>)
    requires AgentInv(f, ag)
    ensures var (g, ag') := Afterwards(f, ag, es);
            AgentInv(g, ag') && Kept(f, g)
    decreases |es|
  {
    hide AgentInv, After1;
    if es != [] {
      EventKeeps(f, ag, es[0]);
      var (g, ag') := After1(f, ag, es[0]);
      EventsKeep(g, ag', es[1..]);
    }
  }

  /**
   * From any acceptable contents, however publishes, aborts, crashes, new handles and a retire follow:
   * after one publish every read and peek returns the latest one at its first attempt, and after a
   * publish per slot at most one slot is odd, the one after the slot that `latest` names.
   */
  lemma SelfStabilises(cap: nat, notifyOn: bool, slots: seq<Slot>, latest: u32, notify: u32, clock: u64,
                       es: seq<Event>, op: Op)
    requires Acceptable(cap, slots, latest) && !op.Wait?
    ensures var g := Afterwards(Adopt(cap, notifyOn, slots, latest, notify, clock), NoAgent, es).0;
            && |g.slots| == |slots|
            && (|g.log| >= 1 ==>
                  var rec := g.log[|g.log| - 1];
                  && |rec.bytes| <= cap
                  && Loads(g, NewCall(g, op), CopyTotal(op, rec) + 3).pc == Finished(ResultFor(op, rec)))
            && (|g.log| >= |slots| ==>
                  forall j :: 0 <= j < |g.slots| && g.slots[j].seqno % 2 == 1 ==> j == (LatestSlot(g.latest) + 1) % |slots|)
  {
    hide FileInv, AgentInv, Loads, NewCall, ResultFor, CopyTotal, After1, Afterwards;
    var f := Adopt(cap, notifyOn, slots, latest, notify, clock);
    AdoptIsSound(cap, notifyOn, slots, latest, notify, clock);
    EventsKeep(f, NoAgent, es);
    var (g, ag) := Afterwards(f, NoAgent, es);
    OneOdd(g, ag);
    if |g.log| >= 1 { QuietRead(g, op); }
  }

  lemma OneOdd(f: File, ag: Agent)
    requires AgentInv(f, ag)
    ensures FileInv(f)
    ensures 0 < |f.slots|
    ensures |f.log| >= |f.slots| ==>
              forall j :: 0 <= j < |f.slots| && f.slots[j].seqno % 2 == 1 ==> j == (LatestSlot(f.latest) + 1) % |f.slots|
  {
    if |f.log| >= |f.slots| {
      assert f.dirty == {};
      LatestHolds(f);
      AfterIsMod(CurSlot(f), |f.slots|);
      forall j | 0 <= j < |f.slots|
        ensures f.slots[j].seqno % 2 == 1 ==> j == (LatestSlot(f.latest) + 1) % |f.slots|
      {
        SeqParity(f.commits[j], f.odd[j]);
      }
    }
  }
}
