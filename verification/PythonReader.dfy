// The Python reader on top of the C handle: the pending attach, the receive buffer and the sliced wait.
module PythonReader {
  import opened Api
  import opened Bytes
  import opened Handle
  import opened Bindings

  const READ_ATTEMPTS := 4
  const WAIT_SLICE_MS := 100

  // ---- read --------------------------------------------------------------------------------------------------

  /** The fields of StateReader that its reads use: the attach owed, the recheck, the length of the receive buffer. */
  datatype Py = Py(pending: bool, recheck: bool, buf: nat)

  /** _fit: the buffer takes the channel's capacity, or at least `need`. */
  function FitOf(s: State, p: Py, need: nat): (Code, State, Py) {
    var (rc, s1) := SyncOf(s);
    if rc != OK && rc != NODATA then (rc, s1, p.(recheck := false))
    else
      var size := if rc == OK then s1.desc.capacity else need;
      (OK, s1, p.(recheck := false, buf := if size < need then need else size))
  }

  lemma FitPromises(s: State, p: Py, need: nat)
    requires Numbered(s)
    ensures var (rc, t, p') := FitOf(s, p, need);
            && Drifted(s, t) && rc in {OK, FORMAT, SYS} && !p'.recheck && p'.pending == p.pending
            && (if rc == OK then p'.buf >= need && (t.att.Some? ==> p'.buf >= t.desc.capacity) else t.att == None && p'.buf == p.buf)
  {
    hide SyncOf;
    SyncDrifts(s);
  }

  datatype PyRead = PyRead(res: Result, bytes: seq<byte>, s: State, p: Py)

  /** A native OK: the buffer follows the channel's capacity before the value is handed out. */
  function DeliverOf(n: Native, p: Py, attached: bool, resized: bool): PyRead {
    if (attached && !resized) || p.recheck then
      var (rc, s1, p1) := FitOf(n.s, p, 0);
      if rc != OK then PyRead(Failed(rc), [], s1, p1) else PyRead(Outcome(n, attached), n.data, s1, p1)
    else PyRead(Outcome(n, attached), n.data, n.s, p)
  }

  /** `tries` native reads at most; `attached` is an attach that an earlier one swallowed. */
  function ReadsOf(s: State, p: Py, attached: bool, resized: bool, tries: nat): PyRead
    decreases tries
  {
    if tries == 0 then PyRead(Failed(BUSY), [], s, p.(pending := p.pending || attached))
    else
      var n := ReadOf(s, p.buf, true);
      var att, p1 := attached || p.pending || n.flag, p.(pending := false);
      if n.rc == OK then DeliverOf(n, p1, att, resized)
      else if n.rc == TOOSMALL then
        var (rc, s1, p2) := FitOf(n.s, p1, n.info.len);
        if rc != OK then PyRead(Failed(rc), [], s1, p2) else ReadsOf(s1, p2, att, true, tries - 1)
      else PyRead(Outcome(n, false), [], n.s, p.(pending := p.pending || attached))
  }

  lemma ReadsEnd(s: State, p: Py, attached: bool, resized: bool)
    ensures ReadsOf(s, p, attached, resized, 0) == PyRead(Failed(BUSY), [], s, p.(pending := p.pending || attached))
  {}

  lemma ReadsStep(s: State, p: Py, attached: bool, resized: bool, tries: nat)
    requires tries > 0
    ensures var n, r := ReadOf(s, p.buf, true), ReadsOf(s, p, attached, resized, tries);
            var att, p1 := attached || p.pending || n.flag, p.(pending := false);
            var (rc, s1, p2) := FitOf(n.s, p1, n.info.len);
            && (n.rc == OK ==> r == DeliverOf(n, p1, att, resized))
            && (n.rc == TOOSMALL ==> r == if rc != OK then PyRead(Failed(rc), [], s1, p2) else ReadsOf(s1, p2, att, true, tries - 1))
            && (n.rc !in {OK, TOOSMALL} ==> r == PyRead(Outcome(n, false), [], n.s, p.(pending := p.pending || attached)))
  {
    hide ReadOf, FitOf, DeliverOf;
  }

  /** A value that fits the buffer of a reader that owes nothing is read at once. */
  lemma ReadsFit(s: State, p: Py, resized: bool, tries: nat)
    requires tries > 0 && Numbered(s) && SyncOf(s).0 == OK && SyncOf(s).1.script != [] && !SyncOf(s).1.announce
    requires !p.pending && !p.recheck
    requires var look := SyncOf(s).1.script[0].look;
             look.Found? && |look.value| <= SyncOf(s).1.desc.capacity && |look.value| <= p.buf
    ensures var look, r := SyncOf(s).1.script[0].look, ReadsOf(s, p, false, resized, tries);
            r.res.Got? && r.bytes == look.value && r.res.info == Info(look.gen, look.ts, |look.value|) && !r.res.attached
  {
    ReadAnswers(s, p.buf, true);
  }

  /** A value that does not fit is read by the second native read, if it is still there. */
  lemma ReadsGrow(s: State, p: Py, tries: nat)
    requires tries > 1 && Numbered(s) && s.att.Some? && |s.script| >= 5
    requires !s.script[0].retired && !s.script[2].retired && !s.script[3].retired && s.script[4].look == s.script[1].look
    requires !s.announce && !p.pending
    requires var look := s.script[1].look;
             look.Found? && p.buf < |look.value| <= s.desc.capacity
    ensures var look, r := s.script[1].look, ReadsOf(s, p, false, false, tries);
            r.res.Got? && r.bytes == look.value && r.res.info == Info(look.gen, look.ts, |look.value|)
  {
    SyncStays(s);
    ReadAnswers(s, p.buf, true);
    var n := ReadOf(s, p.buf, true);
    SyncStays(n.s);
    var (rc, s1, p1) := FitOf(n.s, p.(pending := false), n.info.len);
    SyncStays(s1);
    ReadsFit(s1, p1, true, tries - 1);
  }

  // ---- wait --------------------------------------------------------------------------------------------------

  /** A slice handed to the C wait: the clock and the milliseconds. */
  datatype Slice = Slice(now: nat, ms: nat)

  /** A poll iff the deadline has passed, and otherwise long enough to reach it or a whole slice. */
  ghost predicate SliceOk(s: Slice, deadline: Option<nat>) {
    && s.ms <= WAIT_SLICE_MS
    && (s.ms == 0 <==> deadline.Some? && s.now >= deadline.value)
    && (deadline.Some? && s.ms < WAIT_SLICE_MS ==> s.now + s.ms * NS_PER_MS >= deadline.value)
  }

  /** The milliseconds to wait for `remaining` nanoseconds: rounded up, at most a slice. */
  function SliceMs(remaining: int): (ms: nat)
    ensures ms <= WAIT_SLICE_MS
    ensures ms == 0 <==> remaining <= 0
    ensures ms < WAIT_SLICE_MS ==> remaining <= ms * NS_PER_MS
    ensures remaining > 0 ==> (ms - 1) * NS_PER_MS < remaining
  {
    if remaining > 0 then
      var up := -(-remaining / NS_PER_MS); // `/` rounds down here, as `//` does
      if up < WAIT_SLICE_MS then up else WAIT_SLICE_MS
    else 0
  }

  /** What wait returned or raised, the handle after it, the last thing the native waits saw, and the slices. */
  datatype PyWait = PyWait(res: Waited, s: State, look: Option<Look>, slices: seq<Slice>)

  function SliceFor(now: nat, deadline: Option<nat>): nat {
    if deadline.None? then WAIT_SLICE_MS else SliceMs(deadline.value - now)
  }

  function PyTurnOf(s: State, last: u32, deadline: Option<nat>): (bool, PyWait)
    requires Numbered(s)
  {
    var t, s1 := Answer(s), Tock(s);
    if t.closed then (true, PyWait(WaitClosed, s1, None, []))
    else PySliceOf(s1, last, deadline)
  }

  /** The native call of a turn, for one slice. */
  function PySliceOf(s: State, last: u32, deadline: Option<nat>): (bool, PyWait)
    requires Numbered(s)
  {
    var ms := SliceFor(s.clock, deadline);
    var w, slices := NativeWait(s, last, ms), [Slice(s.clock, ms)];
    match w.rc
    case OK => (true, PyWait(Changed, w.s, w.look, slices))
    case RUNNING => (true, PyWait(Waiting, w.s, w.look, slices))
    case TIMEOUT => (deadline.Some? && (ms == 0 || w.s.clock >= deadline.value), PyWait(TimedOut, w.s, w.look, slices))
    case INTR => (false, PyWait(Waiting, w.s, w.look, slices))
    case rc => (true, PyWait(WaitFailed(rc), w.s, w.look, slices))
  }

  lemma PySlicePromises(s: State, last: u32, deadline: Option<nat>)
    requires Numbered(s)
    ensures var (done, g) := PySliceOf(s, last, deadline);
            && Drifted(s, g.s) && (s.script != [] ==> |g.s.script| < |s.script|)
            && (done && g.res == TimedOut ==> deadline.Some? && g.s.clock >= deadline.value && Unchanged(g.look, last))
            && (done && g.res == Changed ==> g.look.Some? && g.look.value.Found? && g.look.value.gen != last)
            && (done && g.res.WaitFailed? ==> g.res.rc in {NOTSUP, FORMAT, SYS})
            && (done && g.res == Waiting ==> g.s.script == [])
            && |g.slices| == 1 && SliceOk(g.slices[0], deadline)
  {
    hide NativeWait;
    WaitPromises(s, last, SliceFor(s.clock, deadline));
  }

  lemma PyTurnPromises(s: State, last: u32, deadline: Option<nat>)
    requires Numbered(s) && s.script != []
    ensures var (done, g) := PyTurnOf(s, last, deadline);
            && Drifted(s, g.s) && |g.s.script| < |s.script|
            && (done && g.res == TimedOut ==> deadline.Some? && g.s.clock >= deadline.value && Unchanged(g.look, last))
            && (done && g.res == Changed ==> g.look.Some? && g.look.value.Found? && g.look.value.gen != last)
            && (done && g.res.WaitFailed? ==> g.res.rc in {NOTSUP, FORMAT, SYS})
            && (done && g.res == Waiting ==> g.s.script == [])
            && (forall k :: 0 <= k < |g.slices| ==> SliceOk(g.slices[k], deadline))
  {
    hide NativeWait, PySliceOf;
    if !Answer(s).closed {
      PySlicePromises(Tock(s), last, deadline);
      DriftsOn(s, Tock(s), PySliceOf(Tock(s), last, deadline).1.s);
    }
  }

  /** The loop, as far as the environment's answers go. */
  function PyWaitOf(s: State, last: u32, deadline: Option<nat>): PyWait
    requires Numbered(s)
    decreases |s.script|
  {
    if s.script == [] then PyWait(Waiting, s, None, [])
    else
      var (done, g) := PyTurnOf(s, last, deadline);
      PyTurnPromises(s, last, deadline);
      if done then g
      else
        var next := PyWaitOf(g.s, last, deadline);
        next.(look := if next.look.Some? then next.look else g.look, slices := g.slices + next.slices)
  }

  /** False only from the deadline on and after a last look that found no other generation; True only after one that did. */
  lemma {:induction false} PyWaitPromises(s: State, last: u32, deadline: Option<nat>)
    requires Numbered(s)
    ensures var g := PyWaitOf(s, last, deadline);
            && Drifted(s, g.s)
            && (g.res == TimedOut ==> deadline.Some? && g.s.clock >= deadline.value && Unchanged(g.look, last))
            && (g.res == Changed ==> g.look.Some? && g.look.value.Found? && g.look.value.gen != last)
            && (g.res.WaitFailed? ==> g.res.rc in {NOTSUP, FORMAT, SYS})
            && (g.res == Waiting ==> g.s.script == [])
            && (forall k :: 0 <= k < |g.slices| ==> SliceOk(g.slices[k], deadline))
    decreases |s.script|
  {
    hide PyTurnOf, SliceOk;
    if s.script != [] {
      PyTurnPromises(s, last, deadline);
      var (done, g) := PyTurnOf(s, last, deadline);
      if !done {
        PyWaitPromises(g.s, last, deadline);
        DriftsOn(s, g.s, PyWaitOf(g.s, last, deadline).s);
      }
    }
  }

  /** What a native wait reports is passed on: a change at once, an error as itself, a poll's timeout as the end. */
  lemma PyWaitPasses(s: State, last: u32, deadline: Option<nat>)
    requires Numbered(s) && s.script != [] && !s.script[0].closed
    ensures var ms, g := SliceFor(Tock(s).clock, deadline), PyWaitOf(s, last, deadline);
            var w := NativeWait(Tock(s), last, ms);
            && (w.rc == OK ==> g.res == Changed && g.s == w.s)
            && (w.rc in {NOTSUP, FORMAT, SYS} ==> g.res == WaitFailed(w.rc) && g.s == w.s)
            && (w.rc == TIMEOUT && ms == 0 ==> g.res == TimedOut && g.s == w.s)
  {
    hide NativeWait;
  }

  // ---- the reader ----------------------------------------------------------------------------------------------

  datatype Call = Read | ReadInto(n: nat) | Peek | Wait(last: u32, deadline: Option<nat>) | WriterAlive | Describe

  class StateReader {
    const h: CReader
    var isOpen: bool
    var flag: bool // info.flags, as the last OK or TOOSMALL left it
    var pending: bool
    var recheck: bool
    var buf: nat // the length of the receive buffer
    ghost var returned: set<nat>

    ghost predicate Valid()
      reads this, h
    {
      Owes(h, pending, returned)
    }

    ghost function Fields(): Py
      reads this
    {
      Py(pending, recheck, buf)
    }

    constructor (h: CReader)
      requires h.Valid() && h.att == None
      ensures Valid() && this.h == h && isOpen && returned == {}
    {
      this.h, isOpen, flag, pending, recheck, buf, returned := h, true, false, false, false, 0, {};
    }

    method Attached() returns (a: bool)
      modifies this`pending
      ensures a == (old(pending) || flag) && !pending
    {
      a := pending || flag;
      pending := false;
    }

    /** _fit: makes room for `need`; it raises only when the handle ended up unattached. */
    method Fit(need: nat) returns (rc: Code)
      requires h.Valid()
      modifies this`recheck, this`buf, h`att, h`announce, h`desc, h`born, h`script, h`clock
      ensures h.Valid() && (rc, h.Now(), Fields()) == FitOf(old(h.Now()), old(Fields()), need)
    {
      recheck := false;
      var d;
      rc, d := h.Describe();
      if rc != OK && rc != NODATA { return; }
      var size := if rc == OK then d.capacity else need;
      rc := OK;
      buf := if size < need then need else size;
    }

    /** A value that did not fit: its attach is kept, and the buffer grows. */
    method Swallow(n: nat, attached: bool) returns (rc: Code, attached': bool)
      requires Owes(h, attached || pending || flag, returned) && h.att.Some? && !h.announce
      modifies this`pending, this`recheck, this`buf, h`att, h`announce, h`desc, h`born, h`script, h`clock
      ensures attached' == (attached || old(pending) || flag) && !pending && Owes(h, attached', returned)
      ensures (rc, h.Now(), Fields()) == FitOf(old(h.Now()), old(Fields()).(pending := false), n)
      ensures rc in {OK, FORMAT, SYS} && (rc != OK ==> Valid())
    {
      hide SyncOf;
      var a := Attached();
      attached' := attached || a;
      FitPromises(h.Now(), Fields(), n);
      rc := Fit(n);
    }

    /** The end of a successful read: the buffer follows the channel's capacity first. */
    method Deliver(info: Info, data: seq<byte>, attached: bool, resized: bool) returns (res: Result, bytes: seq<byte>)
      requires Owes(h, attached, returned) && h.att.Some? && !h.announce && !pending
      modifies this`recheck, this`buf, this`returned, h`att, h`announce, h`desc, h`born, h`script, h`clock
      ensures Valid() && Reported(res, old(returned), returned)
      ensures PyRead(res, bytes, h.Now(), Fields())
           == DeliverOf(Native(OK, info, data, false, old(h.Now())), old(Fields()), attached, resized)
    {
      hide SyncOf;
      var from := h.att.value;
      if (attached && !resized) || recheck {
        FitPromises(h.Now(), Fields(), 0);
        var rc := Fit(0);
        if rc != OK { return Failed(rc), []; }
      }
      returned := returned + {from};
      res, bytes := Got(from, info, attached), data;
    }

    /** One native read: what it swallows is owed. */
    method TryRead(ghost attached: bool) returns (rc: Code, info: Info, data: seq<byte>, f: bool)
      requires Owes(h, attached || pending, returned)
      modifies h
      ensures Native(rc, info, data, f, h.Now()) == ReadOf(old(h.Now()), buf, true)
      ensures rc in {OK, TOOSMALL, NODATA, BUSY, FORMAT, SYS}
      ensures rc in {OK, TOOSMALL} ==> h.att.Some? && !h.announce && Owes(h, attached || pending || f, returned)
      ensures rc !in {OK, TOOSMALL} ==> Owes(h, attached || pending, returned)
    {
      hide ReadOf;
      ReadDrifts(h.Now(), buf, true);
      rc, info, data, f := h.Read(buf, true);
    }

    /** StateReader.read. */
    method Read() returns (res: Result, bytes: seq<byte>)
      requires Valid()
      modifies this`flag, this`pending, this`recheck, this`buf, this`returned, h
      ensures Valid() && isOpen == old(isOpen) && Reported(res, old(returned), returned)
      ensures if isOpen then PyRead(res, bytes, h.Now(), Fields()) == ReadsOf(old(h.Now()), old(Fields()), false, false, READ_ATTEMPTS)
              else res == Closed && h.Now() == old(h.Now())
    {
      hide ReadOf, FitOf, DeliverOf, Drifted, ReadsOf, Owes;
      bytes := [];
      if !isOpen { return Closed, bytes; }
      var attached, resized := false, false;
      var k := 0;
      while k < READ_ATTEMPTS
        invariant 0 <= k <= READ_ATTEMPTS
        invariant Owes(h, attached || pending, returned) && returned == old(returned)
        invariant ReadsOf(h.Now(), Fields(), attached, resized, READ_ATTEMPTS - k)
               == ReadsOf(old(h.Now()), old(Fields()), false, false, READ_ATTEMPTS)
      {
        ReadsStep(h.Now(), Fields(), attached, resized, READ_ATTEMPTS - k);
        var rc, info, data, f := TryRead(attached);
        if rc == OK {
          flag := f;
          var a := Attached();
          SameDelivery(info, data, f, h.Now(), Fields(), attached || a, resized);
          res, bytes := Deliver(info, data, attached || a, resized);
          return;
        }
        if rc == NODATA {
          pending := pending || attached;
          return NoValue, bytes;
        }
        if rc != TOOSMALL {
          pending := pending || attached;
          return Failed(rc), bytes;
        }
        flag := f;
        rc, attached := Swallow(info.len, attached);
        if rc != OK { return Failed(rc), bytes; }
        resized := true;
        k := k + 1;
      }
      ReadsEnd(h.Now(), Fields(), attached, resized);
      pending := pending || attached;
      res := Failed(BUSY);
    }

    /** StateReader.read_into a buffer of `n` bytes: too small a buffer raises, and the attach stays owed. */
    method ReadInto(n: nat) returns (res: Result, bytes: seq<byte>)
      requires Valid()
      modifies this`flag, this`pending, this`recheck, this`returned, h
      ensures Valid() && isOpen == old(isOpen) && Reported(res, old(returned), returned)
      ensures var a := ReadOf(old(h.Now()), CLen(n), true);
              if isOpen then h.Now() == a.s && res == Outcome(a, res.Got? && res.attached) && (res.Got? ==> bytes == a.data)
              else res == Closed && h.Now() == old(h.Now())
      ensures res.Got? && res.attached ==> recheck
    {
      hide ReadOf;
      bytes := [];
      if !isOpen { return Closed, bytes; }
      ReadDrifts(h.Now(), CLen(n), true);
      var rc, info, data, f := h.Read(CLen(n), true);
      if rc == OK {
        flag := f;
        var a := Attached();
        recheck := recheck || a;
        returned := returned + {h.att.value};
        return Got(h.att.value, info, a), data;
      }
      if rc == NODATA { return NoValue, bytes; }
      if rc == TOOSMALL {
        flag := f;
        pending := pending || flag;
        recheck := recheck || pending;
      }
      res := Failed(rc);
    }

    method Peek() returns (res: Result)
      requires Valid()
      modifies this`flag, this`pending, this`recheck, this`returned, h
      ensures Valid() && isOpen == old(isOpen) && Reported(res, old(returned), returned)
      ensures var a := ReadOf(old(h.Now()), 0, false);
              if isOpen then h.Now() == a.s && res == Outcome(a, res.Got? && res.attached)
              else res == Closed && h.Now() == old(h.Now())
      ensures res.Got? && res.attached ==> recheck
    {
      hide ReadOf;
      if !isOpen { return Closed; }
      ReadDrifts(h.Now(), 0, false);
      var rc, info, f := h.Peek();
      if rc == OK {
        flag := f;
        var a := Attached();
        recheck := recheck || a;
        returned := returned + {h.att.value};
        return Got(h.att.value, info, a);
      }
      res := if rc == NODATA then NoValue else Failed(rc);
    }

    method WaitTurn(last: u32, deadline: Option<nat>) returns (done: bool, res: Waited)
      requires Valid() && isOpen && h.script != []
      modifies this`isOpen, h
      ensures Valid() && isOpen == !(done && res == WaitClosed) && |h.script| < |old(h.script)|
      ensures var (d, g) := PyTurnOf(old(h.Now()), last, deadline);
              done == d && h.Now() == g.s && (done ==> res == g.res)
    {
      hide NativeWait, PySliceOf;
      PyTurnPromises(h.Now(), last, deadline);
      var t := h.Next();
      if t.closed {
        isOpen := false;
        return true, WaitClosed;
      }
      done, res := WaitSlice(last, deadline);
    }

    /** The native call, for the slice that fits the deadline. */
    method WaitSlice(last: u32, deadline: Option<nat>) returns (done: bool, res: Waited)
      requires Valid() && isOpen
      modifies h
      ensures Valid()
      ensures var (d, g) := PySliceOf(old(h.Now()), last, deadline);
              done == d && h.Now() == g.s && (done ==> res == g.res && res != WaitClosed)
    {
      hide NativeWait;
      var ms := WAIT_SLICE_MS;
      if deadline.Some? {
        var remaining := deadline.value - h.clock;
        ms := SliceMs(remaining);
      }
      WaitPromises(h.Now(), last, ms);
      var rc := h.Wait(last, ms);
      if rc == OK { return true, Changed; }
      if rc == TIMEOUT { return deadline.Some? && (ms == 0 || h.clock >= deadline.value), TimedOut; }
      if rc == RUNNING { return true, Waiting; }
      if rc != INTR { return true, WaitFailed(rc); }
      return false, Waiting;
    }

    /** StateReader.wait until the clock reads `deadline`. */
    method Wait(last: u32, deadline: Option<nat>) returns (res: Waited)
      requires Valid()
      modifies this`isOpen, h
      ensures Valid() && isOpen == (old(isOpen) && res != WaitClosed)
      ensures var g := PyWaitOf(old(h.Now()), last, deadline);
              if old(isOpen) then res == g.res && h.Now() == g.s else res == WaitClosed && h.Now() == old(h.Now())
    {
      hide PyTurnOf;
      if !isOpen { return WaitClosed; }
      ghost var g := PyWaitOf(h.Now(), last, deadline);
      while h.script != []
        invariant Valid() && isOpen
        invariant var now := PyWaitOf(h.Now(), last, deadline);
                  g.res == now.res && g.s == now.s
        decreases |h.script|
      {
        PyTurnPromises(h.Now(), last, deadline);
        var done, r := WaitTurn(last, deadline);
        if done { return r; }
      }
      res := Waiting;
    }
  }

  /** The delivery does not depend on the native flag, which is already in `attached`. */
  lemma SameDelivery(info: Info, data: seq<byte>, f: bool, s: State, p: Py, attached: bool, resized: bool)
    ensures DeliverOf(Native(OK, info, data, f, s), p, attached, resized)
         == DeliverOf(Native(OK, info, data, false, s), p, attached, resized)
  {}

  /** Over any calls in any environment, an attach is reported exactly once: on the first result from it. */
  method Session(script: seq<Tick>, calls: seq<Call>) returns (results: seq<Result>)
    ensures |results| == |calls| && MarkedOnce(results)
  {
    var h := new CReader(script);
    var r := new StateReader(h);
    results := [];
    for k := 0 to |calls|
      invariant r.Valid() && fresh(r) && fresh(r.h)
      invariant |results| == k && MarkedOnce(results) && Sources(results) == r.returned
    {
      var res := NoValue;
      match calls[k] {
        case Read => var bytes; res, bytes := r.Read();
        case ReadInto(n) => var bytes; res, bytes := r.ReadInto(n);
        case Peek => res := r.Peek();
        case Wait(last, deadline) => var _ := r.Wait(last, deadline);
        case WriterAlive =>
          AliveDrifts(r.h.Now());
          var _, _ := r.h.Alive();
        case Describe =>
          SyncDrifts(r.h.Now());
          var _, _ := r.h.Describe();
      }
      AddResult(results, res);
      results := results + [res];
    }
  }
}
