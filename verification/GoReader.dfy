// The Go reader on top of the C handle: growing reads, the pending attach and the sliced wait.
module GoReader {
  import opened Api
  import opened Bytes
  import opened Handle
  import opened Bindings

  const READ_ATTEMPTS := 4
  const WAIT_SLICE := 100 * NS_PER_MS
  const MAX_INT64: int := 0x7FFF_FFFF_FFFF_FFFF

  // ---- read -------------------------------------------------------------------------------------------------

  /** The native read that decides: of up to `tries` with growing room, the first that is not TOOSMALL, or the last. */
  function Fetch(s: State, used: nat, room: nat, tries: nat): Native
    requires used <= room
    decreases tries
  {
    var n := ReadOf(s, CLen(room - used), true);
    if n.rc == TOOSMALL && tries > 1
    then Fetch(n.s, used, if room - used < n.info.len then used + n.info.len else room, tries - 1)
    else n
  }

  lemma FetchStep(s: State, used: nat, room: nat, tries: nat)
    requires used <= room
    ensures var n := ReadOf(s, CLen(room - used), true);
            Fetch(s, used, room, tries)
            == if n.rc == TOOSMALL && tries > 1
               then Fetch(n.s, used, if room - used < n.info.len then used + n.info.len else room, tries - 1) else n
  {
    hide ReadOf;
  }

  /** What the deciding read becomes: four values in a row that did not fit are BUSY. */
  function FetchOutcome(n: Native, attached: bool): Result {
    if n.rc == TOOSMALL then Failed(BUSY) else Outcome(n, attached)
  }

  /** A value that fits is read at once. */
  lemma FetchFits(s: State, used: nat, room: nat, tries: nat)
    requires used <= room && Numbered(s) && SyncOf(s).0 == OK && SyncOf(s).1.script != []
    requires var look := SyncOf(s).1.script[0].look;
             look.Found? && |look.value| <= SyncOf(s).1.desc.capacity && |look.value| <= CLen(room - used)
    ensures var look, n := SyncOf(s).1.script[0].look, Fetch(s, used, room, tries);
            n.rc == OK && n.data == look.value && n.info == Info(look.gen, look.ts, |look.value|)
  {
    ReadAnswers(s, CLen(room - used), true);
  }

  /** A value that does not fit is read by the second native read, if it is still there. */
  lemma FetchGrows(s: State, used: nat, room: nat, tries: nat)
    requires used <= room && tries > 1 && Numbered(s) && s.att.Some? && |s.script| >= 4
    requires !s.script[0].retired && !s.script[2].retired && s.script[3].look == s.script[1].look
    requires var look := s.script[1].look;
             look.Found? && |look.value| <= s.desc.capacity && CLen(room - used) < |look.value| < U32
    ensures var look, n := s.script[1].look, Fetch(s, used, room, tries);
            n.rc == OK && n.data == look.value && n.info == Info(look.gen, look.ts, |look.value|)
  {
    var n := ReadOf(s, CLen(room - used), true);
    SyncStays(s);
    ReadAnswers(s, CLen(room - used), true);
    SyncStays(n.s);
    var room' := if room - used < n.info.len then used + n.info.len else room;
    FetchFits(n.s, used, room', tries - 1);
  }

  // ---- wait --------------------------------------------------------------------------------------------------

  /** A slice handed to the C wait: the time since the call started, and the milliseconds. */
  datatype Slice = Slice(elapsed: nat, ms: nat)

  /** The timeout in whole milliseconds, if that does not overflow. */
  function Rounded(timeout: int): int {
    if 0 < timeout <= MAX_INT64 - NS_PER_MS then (timeout + NS_PER_MS - 1) / NS_PER_MS * NS_PER_MS else timeout
  }

  /** Rounding is up, by less than a millisecond, and never to a poll. */
  lemma RoundedUp(timeout: int)
    requires timeout <= MAX_INT64
    ensures timeout <= Rounded(timeout) < timeout + NS_PER_MS && Rounded(timeout) <= MAX_INT64
    ensures 0 < timeout <= MAX_INT64 - NS_PER_MS ==> Rounded(timeout) % NS_PER_MS == 0
    ensures Rounded(timeout) == 0 <==> timeout == 0
  {
    if 0 < timeout <= MAX_INT64 - NS_PER_MS {
      var q := (timeout + NS_PER_MS - 1) / NS_PER_MS;
      assert (q * NS_PER_MS) % NS_PER_MS == 0;
    }
  }

  /** At most 100 ms, and a poll iff nothing of the timeout remains. */
  ghost predicate SliceOk(s: Slice, timeout: int) {
    s.ms <= 100 && (s.ms == 0 <==> timeout >= 0 && s.elapsed >= timeout)
  }

  /** The next slice in milliseconds, and whether it ends with the timeout; `left` is the time to the context's deadline. */
  function NextSlice(whole: int, elapsed: nat, left: Option<nat>): (r: (nat, bool))
    requires left.Some? ==> left.value > 0
    ensures SliceOk(Slice(elapsed, r.0), whole)
    ensures r.1 <==> whole >= 0 && whole - elapsed <= WAIT_SLICE
    ensures left.Some? ==> (r.0 - 1) * NS_PER_MS < left.value
    ensures whole < 0 && left.None? ==> r.0 == 100
  {
    var rem := whole - elapsed;
    var last := whole >= 0 && rem <= WAIT_SLICE;
    var slice := if last then (if rem > 0 then rem else 0) else WAIT_SLICE;
    var cut := if left.Some? && left.value < slice then left.value else slice;
    ((cut + NS_PER_MS - 1) / NS_PER_MS, last)
  }

  /** What Wait returned, the handle after it, the last thing the native waits saw, and the slices. */
  datatype GoWait = GoWait(res: Waited, s: State, look: Option<Look>, slices: seq<Slice>)

  function Left(until: Option<nat>, now: nat): Option<nat>
    requires until.Some? ==> now < until.value
  {
    if until.Some? then Some(until.value - now) else None
  }

  /** One turn of the loop; `until` is the context's deadline. Done, or once more. */
  function GoTurnOf(s: State, last: u32, whole: int, start: nat, until: Option<nat>): (bool, GoWait)
    requires Numbered(s) && start <= s.clock
  {
    var t, s1 := Answer(s), Tock(s);
    if t.cancelled then (true, GoWait(Cancelled, s1, None, []))
    else if t.closed then (true, GoWait(WaitClosed, s1, None, []))
    else if until.Some? && s1.clock >= until.value then (true, GoWait(DeadlineExceeded, s1, None, []))
    else GoSliceOf(s1, last, whole, start, until)
  }

  /** The native call of a turn, for one slice. */
  function GoSliceOf(s: State, last: u32, whole: int, start: nat, until: Option<nat>): (bool, GoWait)
    requires Numbered(s) && start <= s.clock && (until.Some? ==> s.clock < until.value)
  {
    var (ms, ends) := NextSlice(whole, s.clock - start, Left(until, s.clock));
    var w, slices := NativeWait(s, last, ms), [Slice(s.clock - start, ms)];
    match w.rc
    case OK => (true, GoWait(Changed, w.s, w.look, slices))
    case RUNNING => (true, GoWait(Waiting, w.s, w.look, slices))
    case TIMEOUT => (ends && (ms == 0 || w.s.clock - start >= whole), GoWait(TimedOut, w.s, w.look, slices))
    case INTR => (false, GoWait(Waiting, w.s, w.look, slices))
    case rc => (true, GoWait(WaitFailed(rc), w.s, w.look, slices))
  }

  lemma GoSlicePromises(s: State, last: u32, whole: int, start: nat, until: Option<nat>)
    requires Numbered(s) && start <= s.clock && (until.Some? ==> s.clock < until.value)
    ensures var (done, g) := GoSliceOf(s, last, whole, start, until);
            && Drifted(s, g.s) && |g.s.script| <= |s.script| && (s.script != [] ==> |g.s.script| < |s.script|)
            && (done && g.res == TimedOut ==> whole >= 0 && g.s.clock - start >= whole && Unchanged(g.look, last))
            && (done && g.res == Changed ==> g.look.Some? && g.look.value.Found? && g.look.value.gen != last)
            && g.res != DeadlineExceeded && g.res != Cancelled && g.res != WaitClosed
            && (done && g.res.WaitFailed? ==> g.res.rc in {NOTSUP, FORMAT, SYS})
            && (done && g.res == Waiting ==> g.s.script == [])
            && |g.slices| == 1 && SliceOk(g.slices[0], whole)
  {
    hide NativeWait;
    var (ms, ends) := NextSlice(whole, s.clock - start, Left(until, s.clock));
    WaitPromises(s, last, ms);
  }

  lemma GoTurnPromises(s: State, last: u32, whole: int, start: nat, until: Option<nat>)
    requires Numbered(s) && start <= s.clock && s.script != []
    ensures var (done, g) := GoTurnOf(s, last, whole, start, until);
            && Drifted(s, g.s) && |g.s.script| < |s.script|
            && (done && g.res == TimedOut ==> whole >= 0 && g.s.clock - start >= whole && Unchanged(g.look, last))
            && (done && g.res == Changed ==> g.look.Some? && g.look.value.Found? && g.look.value.gen != last)
            && (done && g.res == DeadlineExceeded ==> until.Some? && g.s.clock >= until.value)
            && (done && g.res.WaitFailed? ==> g.res.rc in {NOTSUP, FORMAT, SYS})
            && (done && g.res == Waiting ==> g.s.script == [])
            && (forall k :: 0 <= k < |g.slices| ==> SliceOk(g.slices[k], whole))
  {
    hide NativeWait, GoSliceOf;
    var t, s1 := Answer(s), Tock(s);
    if !t.cancelled && !t.closed && !(until.Some? && s1.clock >= until.value) {
      GoSlicePromises(s1, last, whole, start, until);
      DriftsOn(s, s1, GoSliceOf(s1, last, whole, start, until).1.s);
    }
  }

  /** The loop, as far as the environment's answers go. */
  function GoWaitOf(s: State, last: u32, whole: int, start: nat, until: Option<nat>): GoWait
    requires Numbered(s) && start <= s.clock
    decreases |s.script|
  {
    if s.script == [] then GoWait(Waiting, s, None, [])
    else
      var (done, g) := GoTurnOf(s, last, whole, start, until);
      GoTurnPromises(s, last, whole, start, until);
      if done then g
      else
        var next := GoWaitOf(g.s, last, whole, start, until);
        next.(look := if next.look.Some? then next.look else g.look, slices := g.slices + next.slices)
  }

  /**
   * It times out only once the whole rounded-up timeout has passed and a last look found no other
   * generation; it reports a change only after a look that found one; no slice is longer than
   * 100 ms, and one is a poll iff nothing of the timeout remains.
   */
  lemma {:induction false} GoWaitPromises(s: State, last: u32, whole: int, start: nat, until: Option<nat>)
    requires Numbered(s) && start <= s.clock
    ensures var g := GoWaitOf(s, last, whole, start, until);
            && Drifted(s, g.s)
            && (g.res == TimedOut ==> whole >= 0 && g.s.clock - start >= whole && Unchanged(g.look, last))
            && (g.res == Changed ==> g.look.Some? && g.look.value.Found? && g.look.value.gen != last)
            && (g.res == DeadlineExceeded ==> until.Some? && g.s.clock >= until.value)
            && (g.res.WaitFailed? ==> g.res.rc in {NOTSUP, FORMAT, SYS})
            && (g.res == Waiting ==> g.s.script == [])
            && (forall k :: 0 <= k < |g.slices| ==> SliceOk(g.slices[k], whole))
    decreases |s.script|
  {
    hide GoTurnOf, SliceOk;
    if s.script != [] {
      GoTurnPromises(s, last, whole, start, until);
      var (done, g) := GoTurnOf(s, last, whole, start, until);
      if !done {
        GoWaitPromises(g.s, last, whole, start, until);
        DriftsOn(s, g.s, GoWaitOf(g.s, last, whole, start, until).s);
      }
    }
  }

  /** What a native wait reports is passed on: a change at once, an error as itself, a poll's timeout as the end. */
  lemma GoWaitPasses(s: State, last: u32, whole: int, start: nat, until: Option<nat>, ms: nat)
    requires Numbered(s) && start <= s.clock && s.script != [] && !s.script[0].cancelled && !s.script[0].closed
    requires until.Some? ==> s.clock + s.script[0].dt < until.value
    requires ms == NextSlice(whole, Tock(s).clock - start, Left(until, Tock(s).clock)).0
    ensures var w, g := NativeWait(Tock(s), last, ms), GoWaitOf(s, last, whole, start, until);
            && (w.rc == OK ==> g.res == Changed && g.s == w.s)
            && (w.rc in {NOTSUP, FORMAT, SYS} ==> g.res == WaitFailed(w.rc) && g.s == w.s)
            && (w.rc == TIMEOUT && ms == 0 ==> g.res == TimedOut && g.s == w.s)
  {
    hide NativeWait;
    var r := NextSlice(whole, Tock(s).clock - start, Left(until, Tock(s).clock));
    assert ms == 0 ==> r.1;
    hide NextSlice;
  }

  // ---- the reader ----------------------------------------------------------------------------------------------

  datatype Call = Read(dst: seq<byte>, cap: nat) | ReadValue(size: nat) | Peek | Wait(last: u32, timeout: int) | WriterAlive | Describe

  class Reader {
    const h: CReader
    var isOpen: bool
    var pending: bool
    ghost var returned: set<nat> // attachments the application got a result from

    ghost predicate Valid()
      reads this, h
    {
      Owes(h, pending, returned)
    }

    constructor (h: CReader)
      requires h.Valid() && h.att == None
      ensures Valid() && this.h == h && isOpen && returned == {}
    {
      this.h, isOpen, pending, returned := h, true, false, {};
    }

    method TakeAttached(flag: bool) returns (a: bool)
      modifies this`pending
      ensures a == (old(pending) || flag) && !pending
    {
      a := pending || flag;
      pending := false;
    }

    /** One native read: what it swallows is owed. */
    method TryRead(spare: nat, ghost attached: bool) returns (rc: Code, info: Info, data: seq<byte>, flag: bool)
      requires Owes(h, attached || pending, returned)
      modifies h
      ensures Native(rc, info, data, flag, h.Now()) == ReadOf(old(h.Now()), CLen(spare), true)
      ensures rc in {OK, TOOSMALL, NODATA, BUSY, FORMAT, SYS}
      ensures rc in {OK, TOOSMALL} ==> h.att.Some? && !h.announce && Owes(h, attached || pending || flag, returned)
      ensures rc !in {OK, TOOSMALL} ==> Owes(h, attached || pending, returned)
    {
      hide ReadOf;
      ReadDrifts(h.Now(), CLen(spare), true);
      rc, info, data, flag := h.Read(CLen(spare), true);
    }

    /** The result goes to the application, marked iff its attach was owed. */
    method Return(attached: bool) returns (from: nat)
      requires Owes(h, attached, returned) && h.att.Some? && !h.announce && !pending
      modifies this`returned
      ensures from == h.att.value && returned == old(returned) + {from} && (attached <==> from !in old(returned)) && Valid()
    {
      from := h.att.value;
      returned := returned + {from};
    }

    /** Reader.Read: appends the value to `dst`, which has room for `cap` bytes. */
    method Read(dst: seq<byte>, cap: nat) returns (out: seq<byte>, res: Result)
      requires Valid() && |dst| <= cap
      modifies this`pending, this`returned, h
      ensures Valid() && isOpen == old(isOpen) && Reported(res, old(returned), returned)
      ensures var n := Fetch(old(h.Now()), |dst|, cap, READ_ATTEMPTS);
              if isOpen then h.Now() == n.s && res == FetchOutcome(n, res.Got? && res.attached) && out == dst + n.data
              else h.Now() == old(h.Now()) && res == Closed && out == dst
    {
      hide ReadOf, Fetch, Drifted, Owes;
      if !isOpen { return dst, Closed; }
      var room := cap;
      var attached := false;
      var k := 0;
      ghost var n := Fetch(h.Now(), |dst|, cap, READ_ATTEMPTS);
      while k < READ_ATTEMPTS
        invariant 0 <= k <= READ_ATTEMPTS && |dst| <= room
        invariant Owes(h, attached || pending, returned) && returned == old(returned)
        invariant if k < READ_ATTEMPTS then Fetch(h.Now(), |dst|, room, READ_ATTEMPTS - k) == n
                  else n.rc == TOOSMALL && n.s == h.Now() && n.data == []
      {
        var spare := room - |dst|;
        NoBytes(h.Now(), CLen(spare));
        FetchStep(h.Now(), |dst|, room, READ_ATTEMPTS - k);
        var rc, info, data, flag := TryRead(spare, attached);
        if rc == OK {
          var a := TakeAttached(flag);
          attached := a || attached;
          var from := Return(attached);
          return dst + data, Got(from, info, attached);
        } else if rc == TOOSMALL {
          var a := TakeAttached(flag);
          attached := a || attached;
          room := if spare < info.len then |dst| + info.len else room;
        } else {
          pending := pending || attached;
          return dst, if rc == NODATA then NoValue else Failed(rc);
        }
        k := k + 1;
      }
      pending := pending || attached;
      out, res := dst, Failed(BUSY);
    }

    /** ReadValue of a type of `size` bytes: a value of another length is a mismatch. */
    method ReadValue(size: nat) returns (res: Result, value: seq<byte>)
      requires Valid()
      modifies this`pending, this`returned, h
      ensures Valid() && isOpen == old(isOpen) && Reported(res, old(returned), returned)
      ensures var n := ReadOf(old(h.Now()), CLen(size), true);
              if !isOpen then h.Now() == old(h.Now()) && res == Closed
              else
                && h.Now() == n.s
                && res == (if n.rc == TOOSMALL || (n.rc == OK && n.info.len != size) then Mismatch
                           else Outcome(n, res.Got? && res.attached))
                && (res.Got? ==> value == n.data && |value| == size)
    {
      hide ReadOf;
      value := [];
      if !isOpen { return Closed, value; }
      ReadDrifts(h.Now(), CLen(size), true);
      var rc, info, data, flag := h.Read(CLen(size), true);
      if rc == OK && info.len == size {
        var a := TakeAttached(flag);
        returned := returned + {h.att.value};
        res, value := Got(h.att.value, info, a), data;
      } else if rc == NODATA {
        res := NoValue;
      } else if rc == OK || rc == TOOSMALL {
        pending := pending || flag;
        res := Mismatch;
      } else {
        res := Failed(rc);
      }
    }

    method Peek() returns (res: Result)
      requires Valid()
      modifies this`pending, this`returned, h
      ensures Valid() && isOpen == old(isOpen) && Reported(res, old(returned), returned)
      ensures var n := ReadOf(old(h.Now()), 0, false);
              if isOpen then h.Now() == n.s && res == Outcome(n, res.Got? && res.attached)
              else h.Now() == old(h.Now()) && res == Closed
    {
      hide ReadOf;
      if !isOpen { return Closed; }
      ReadDrifts(h.Now(), 0, false);
      var rc, info, flag := h.Peek();
      if rc == OK {
        var a := TakeAttached(flag);
        returned := returned + {h.att.value};
        res := Got(h.att.value, info, a);
      } else {
        res := if rc == NODATA then NoValue else Failed(rc);
      }
    }

    method WaitTurn(last: u32, whole: int, start: nat, until: Option<nat>) returns (done: bool, res: Waited)
      requires Valid() && isOpen && h.script != [] && start <= h.clock
      modifies this`isOpen, h
      ensures Valid() && isOpen == !(done && res == WaitClosed) && h.clock >= start && |h.script| < |old(h.script)|
      ensures var (d, g) := GoTurnOf(old(h.Now()), last, whole, start, until);
              done == d && h.Now() == g.s && (done ==> res == g.res)
    {
      hide NativeWait, NextSlice, GoSliceOf;
      GoTurnPromises(h.Now(), last, whole, start, until);
      var t := h.Next();
      if t.cancelled { return true, Cancelled; }
      if t.closed {
        isOpen := false;
        return true, WaitClosed;
      }
      if until.Some? && h.clock >= until.value { return true, DeadlineExceeded; }
      done, res := WaitSlice(last, whole, start, until);
    }

    /** The native call, for the slice that fits the timeout and the context. */
    method WaitSlice(last: u32, whole: int, start: nat, until: Option<nat>) returns (done: bool, res: Waited)
      requires Valid() && isOpen && start <= h.clock && (until.Some? ==> h.clock < until.value)
      modifies h
      ensures Valid()
      ensures var (d, g) := GoSliceOf(old(h.Now()), last, whole, start, until);
              done == d && h.Now() == g.s && (done ==> res == g.res && res != WaitClosed)
    {
      hide NativeWait, NextSlice;
      var (ms, ends) := NextSlice(whole, h.clock - start, if until.Some? then Some(until.value - h.clock) else None);
      WaitPromises(h.Now(), last, ms);
      var rc := h.Wait(last, ms);
      if rc == OK { return true, Changed; }
      if rc == TIMEOUT { return ends && (ms == 0 || h.clock - start >= whole), TimedOut; }
      if rc == RUNNING { return true, Waiting; }
      if rc != INTR { return true, WaitFailed(rc); }
      return false, Waiting;
    }

    /** Reader.Wait with the context's deadline `until`. */
    method Wait(last: u32, timeout: int, until: Option<nat>) returns (res: Waited)
      requires Valid() && timeout <= MAX_INT64
      modifies this`isOpen, h
      ensures Valid() && isOpen == (old(isOpen) && res != WaitClosed)
      ensures var g := GoWaitOf(old(h.Now()), last, Rounded(timeout), old(h.clock), until);
              if old(isOpen) then res == g.res && h.Now() == g.s else res == WaitClosed && h.Now() == old(h.Now())
    {
      hide GoTurnOf;
      if !isOpen { return WaitClosed; }
      var whole := timeout;
      if 0 < timeout <= MAX_INT64 - NS_PER_MS {
        whole := (timeout + NS_PER_MS - 1) / NS_PER_MS * NS_PER_MS;
      }
      var start := h.clock;
      ghost var g := GoWaitOf(h.Now(), last, whole, start, until);
      while h.script != []
        invariant Valid() && h.clock >= start && isOpen
        invariant var now := GoWaitOf(h.Now(), last, whole, start, until);
                  g.res == now.res && g.s == now.s
        decreases |h.script|
      {
        GoTurnPromises(h.Now(), last, whole, start, until);
        var done, r := WaitTurn(last, whole, start, until);
        if done { return r; }
      }
      res := Waiting;
    }
  }

  lemma NoBytes(s: State, size: nat)
    ensures ReadOf(s, size, true).rc != OK ==> ReadOf(s, size, true).data == []
  {
    hide SyncOf;
  }

  /** Over any calls in any environment, an attach is reported exactly once: on the first result from it. */
  method Session(script: seq<Tick>, calls: seq<Call>) returns (results: seq<Result>)
    ensures |results| == |calls| && MarkedOnce(results)
  {
    var h := new CReader(script);
    var r := new Reader(h);
    results := [];
    for k := 0 to |calls|
      invariant r.Valid() && fresh(r) && fresh(r.h)
      invariant |results| == k && MarkedOnce(results) && Sources(results) == r.returned
    {
      var res := NoValue;
      match calls[k] {
        case Read(dst, cap) => var out; out, res := r.Read(dst, if |dst| <= cap then cap else |dst|);
        case ReadValue(size) => var value; res, value := r.ReadValue(size);
        case Peek => res := r.Peek();
        case Wait(last, timeout) => var _ := r.Wait(last, if timeout <= MAX_INT64 then timeout else MAX_INT64, None);
        case WriterAlive =>
          AliveDrifts(r.h.Now());
          var _, _ := r.h.Alive();
        case Describe =>
          SyncDrifts(r.h.Now());
          var _, _ := r.h.Describe();
      }
      AddResult(results, res);
      results := results + [res];
    }
  }
}
