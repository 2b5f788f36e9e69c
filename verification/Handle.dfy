// psmsgr_state_reader as its callers see it: what every call answers, as a function of the handle
// and of what the environment will say, and what that promises.
module Handle {
  import opened Api
  import opened Bytes

  const WAIT_SLICE_NS := 1_000_000_000
  const UNATTACHED_POLL_NS := 10_000_000
  const NS_PER_MS := 1_000_000

  /** What read_latest finds. */
  datatype Look = Found(gen: u32, ts: u64, value: seq<byte>) | Nothing | Torn | Corrupt

  /** How a sleep ends: woken or EAGAIN, ETIMEDOUT, EINTR, another errno. */
  datatype Nap = Woke | Expired | Interrupted | Broken

  /** The constant properties of a channel. */
  datatype Desc = Desc(capacity: nat, slotCount: u32, payloadType: u32, notifies: bool)

  /** One answer of the environment, after `dt` nanoseconds; `desc` is of the file found. */
  datatype Tick = Tick(
    dt: nat, retired: bool, attach: Code, desc: Desc, look: Look, nap: Nap,
    replaced: bool, statFails: bool, held: bool, cancelled: bool, closed: bool)

  /**
   * A reader handle: `att` numbers the attachment it holds (`hdr`), `born` those made so far; then
   * the clock, and everything the environment will answer, in order.
   */
  datatype State = State(
    att: Option<nat>, announce: bool, desc: Desc, born: nat, clock: nat, script: seq<Tick>)

  /** The next answer; when there is none left, nothing more happens. */
  function Answer(s: State): Tick {
    if s.script == []
    then Tick(0, false, NODATA, Desc(0, 0, 0, true), Nothing, Woke, false, false, false, false, false)
    else s.script[0]
  }

  /** The state once that answer is given. */
  function Tock(s: State): State {
    s.(clock := s.clock + Answer(s).dt, script := if s.script == [] then [] else s.script[1..])
  }

  datatype Info = Info(gen: u32, ts: u64, len: nat)

  const NO_INFO := Info(0, 0, 0)

  /** What a read or peek hands back, and the handle after it. */
  datatype Native = Native(rc: Code, info: Info, data: seq<byte>, flag: bool, s: State)

  /** A sleep asked for: when, and for how long. */
  datatype Request = Request(at: nat, ns: nat)

  // ---- reader_sync ------------------------------------------------------------------------------------

  function AttachCode(c: Code): Code {
    if c in {OK, NODATA, FORMAT} then c else SYS
  }

  /** Up to `tries` attaches; an attached file found retired counts as absent. */
  function AttachOf(s: State, tries: nat): (Code, State)
    decreases tries
  {
    if tries == 0 then (NODATA, s)
    else
      var t, s1 := Answer(s), Tock(s);
      if AttachCode(t.attach) != OK then (AttachCode(t.attach), s1)
      else
        var s2 := s1.(att := Some(s.born), announce := true, desc := t.desc, born := s.born + 1);
        if !Answer(s2).retired then (OK, Tock(s2)) else AttachOf(Tock(s2).(att := None), tries - 1)
  }

  lemma AttachStep(s: State, tries: nat)
    requires tries > 0
    ensures AttachOf(s, 0) == (NODATA, s)
    ensures var t, s1 := Answer(s), Tock(s);
            var s2 := s1.(att := Some(s.born), announce := true, desc := t.desc, born := s.born + 1);
            AttachOf(s, tries) == if AttachCode(t.attach) != OK then (AttachCode(t.attach), s1)
                                  else if !Answer(s2).retired then (OK, Tock(s2))
                                  else AttachOf(Tock(s2).(att := None), tries - 1)
  {}

  function SyncOf(s: State): (Code, State) {
    if s.att.None? then AttachOf(s, ATTACH_RETRIES)
    else if !Answer(s).retired then (OK, Tock(s))
    else AttachOf(Tock(s).(att := None), ATTACH_RETRIES)
  }

  /** A file that is not retired stays attached. */
  lemma SyncStays(s: State)
    requires s.att.Some? && s.script != [] && !s.script[0].retired
    ensures SyncOf(s).0 == OK && SyncOf(s).1 == s.(clock := s.clock + s.script[0].dt, script := s.script[1..])
  {}

  /** A retired file, or none, is followed to the file now on the path; its first result is to be announced. */
  lemma SyncFollows(s: State, a: nat)
    requires a == if s.att.Some? then 1 else 0
    requires |s.script| >= a + 2 && (a == 1 ==> s.script[0].retired)
    requires s.script[a].attach == OK && !s.script[a + 1].retired
    ensures SyncOf(s).0 == OK
    ensures var t := SyncOf(s).1;
            && t.att == Some(s.born) && t.announce && t.desc == s.script[a].desc && t.born == s.born + 1
            && t.script == s.script[a + 2..]
  {
    assert ATTACH_RETRIES == 2;
  }

  /** Found retired right after attaching, it is looked for once more. */
  lemma SyncFollowsAgain(s: State, a: nat)
    requires a == if s.att.Some? then 1 else 0
    requires |s.script| >= a + 4 && (a == 1 ==> s.script[0].retired)
    requires s.script[a].attach == OK && s.script[a + 1].retired && s.script[a + 2].attach == OK
    ensures SyncOf(s).0 == if s.script[a + 3].retired then NODATA else OK
    ensures SyncOf(s).1.att == if s.script[a + 3].retired then None else Some(s.born + 1)
    ensures !s.script[a + 3].retired ==> SyncOf(s).1.announce && SyncOf(s).1.desc == s.script[a + 2].desc
  {
    var s0 := if a == 1 then Tock(s).(att := None) else s;
    assert SyncOf(s) == AttachOf(s0, 2);
    var s2 := Tock(s0).(att := Some(s0.born), announce := true, desc := s.script[a].desc, born := s0.born + 1);
    var s3 := Tock(s2).(att := None);
    assert AttachOf(s0, 2) == AttachOf(s3, 1);
    assert s3.script == s.script[a + 2..];
    var s4 := Tock(s3).(att := Some(s3.born), announce := true, desc := s.script[a + 2].desc, born := s3.born + 1);
    assert s4.script == s.script[a + 3..] && Answer(s4) == s.script[a + 3];
    assert AttachOf(Tock(s4).(att := None), 0).0 == NODATA;
  }

  /** No file, or one that cannot be attached, is reported as what it is. */
  lemma SyncFails(s: State, a: nat)
    requires a == if s.att.Some? then 1 else 0
    requires |s.script| > a && (a == 1 ==> s.script[0].retired) && s.script[a].attach != OK
    ensures SyncOf(s).0 == AttachCode(s.script[a].attach) != OK
    ensures SyncOf(s).1.att == None && SyncOf(s).1.born == s.born && SyncOf(s).1.script == s.script[a + 1..]
  {}

  // ---- what a handle keeps ------------------------------------------------------------------------------

  /** Attachments are numbered in order. */
  predicate Numbered(s: State) {
    s.att.Some? ==> s.att.value < s.born
  }

  /** An attachment and its announce flag after any number of syncs: none, the same, or a fresh one not announced yet. */
  ghost predicate Drifted(s: State, t: State) {
    && Numbered(t) && s.born <= t.born && s.clock <= t.clock && |t.script| <= |s.script|
    && (t.att.Some? ==>
          || (t.att == s.att && t.announce == s.announce)
          || (t.att.value >= s.born && t.announce))
  }

  lemma DriftsOn(s: State, t: State, u: State)
    requires Drifted(s, t) && Drifted(t, u)
    ensures Drifted(s, u)
  {}

  lemma {:induction false} AttachDrifts(s: State, tries: nat)
    requires s.att.None?
    ensures Drifted(s, AttachOf(s, tries).1) && (AttachOf(s, tries).0 == OK <==> AttachOf(s, tries).1.att.Some?)
    ensures AttachOf(s, tries).0 in {OK, NODATA, FORMAT, SYS}
    ensures tries > 0 && s.script != [] ==> |AttachOf(s, tries).1.script| < |s.script|
    decreases tries
  {
    if tries > 0 && AttachCode(Answer(s).attach) == OK {
      var s2 := Tock(s).(att := Some(s.born), announce := true, desc := Answer(s).desc, born := s.born + 1);
      if Answer(s2).retired {
        AttachDrifts(Tock(s2).(att := None), tries - 1);
      }
    }
  }

  lemma SyncDrifts(s: State)
    requires Numbered(s)
    ensures Drifted(s, SyncOf(s).1) && (SyncOf(s).0 == OK <==> SyncOf(s).1.att.Some?)
    ensures SyncOf(s).0 in {OK, NODATA, FORMAT, SYS}
    ensures s.script != [] ==> |SyncOf(s).1.script| < |s.script|
  {
    hide AttachOf;
    AttachDrifts(if s.att.None? then s else Tock(s).(att := None), ATTACH_RETRIES);
  }

  // ---- read and peek --------------------------------------------------------------------------------------

  /** A look whose length field says more than the channel can hold is corrupt. */
  function Seen(look: Look, capacity: nat): Look {
    if look.Found? && |look.value| > capacity then Corrupt else look
  }

  /** psmsgr_state_read with room for `size` bytes, or peek. */
  function ReadOf(s: State, size: nat, copy: bool): Native {
    var (rc, s1) := SyncOf(s);
    if rc != OK then Native(rc, NO_INFO, [], false, s1)
    else
      var s2 := Tock(s1);
      match Seen(Answer(s1).look, s1.desc.capacity)
      case Nothing => Native(NODATA, NO_INFO, [], false, s2)
      case Torn => Native(BUSY, NO_INFO, [], false, s2)
      case Corrupt => Native(FORMAT, NO_INFO, [], false, s2)
      case Found(gen, ts, value) =>
        var info := Info(gen, ts, |value|);
        if copy && |value| > size then Native(TOOSMALL, info, [], s1.announce, s2.(announce := false))
        else Native(OK, info, if copy then value else [], s1.announce, s2.(announce := false))
  }

  /** Whatever the look that follows a successful sync finds is exactly what the caller is told. */
  lemma ReadAnswers(s: State, size: nat, copy: bool)
    requires Numbered(s) && SyncOf(s).0 == OK && SyncOf(s).1.script != []
    ensures var t, look, n := SyncOf(s).1, SyncOf(s).1.script[0].look, ReadOf(s, size, copy);
            var fits := look.Found? && |look.value| <= t.desc.capacity;
            && (n.rc == OK <==> fits && (copy ==> |look.value| <= size))
            && (n.rc == TOOSMALL <==> fits && copy && |look.value| > size)
            && (n.rc == NODATA <==> look.Nothing?)
            && (n.rc == BUSY <==> look.Torn?)
            && (n.rc == FORMAT <==> look.Corrupt? || (look.Found? && !fits))
            && (fits ==> n.info == Info(look.gen, look.ts, |look.value|))
            && (n.rc == OK && copy ==> n.data == look.value)
            && n.s.script == t.script[1..] && n.s.att == t.att && n.s.desc == t.desc
  {}

  /** A result is flagged iff its attachment's announcement was still to be made, and it is made then. */
  lemma ReadDrifts(s: State, size: nat, copy: bool)
    requires Numbered(s)
    ensures var n := ReadOf(s, size, copy);
            && (n.rc in {OK, TOOSMALL} ==> n.s.att.Some? && !n.s.announce && Drifted(s, n.s.(announce := n.flag)))
            && (n.rc !in {OK, TOOSMALL} ==> !n.flag && Drifted(s, n.s) && n.rc in {NODATA, BUSY, FORMAT, SYS})
            && (n.rc == TOOSMALL ==> copy && n.info.len > size) && (n.rc == OK && copy ==> n.info.len == |n.data| <= size)
            && (s.script != [] ==> |n.s.script| < |s.script|)
  {
    hide SyncOf;
    SyncDrifts(s);
  }

  // ---- identity_check, describe, writer_alive ---------------------------------------------------------------

  /** Detaches exactly if the path names another file or none. */
  function IdentityOf(s: State): (Code, State) {
    if s.att.None? then (OK, s)
    else if Answer(s).statFails then (SYS, Tock(s))
    else if Answer(s).replaced then (OK, Tock(s).(att := None))
    else (OK, Tock(s))
  }

  /** Whether a writer holds the lock; the attachment follows the path first. */
  function AliveOf(s: State): (Code, bool, State) {
    var (rc, s1) := IdentityOf(s);
    if rc != OK then (rc, false, s1)
    else
      var s2 := SyncOf(s1).1;
      if Answer(s2).statFails then (SYS, false, Tock(s2)) else (OK, Answer(s2).held, Tock(s2))
  }

  lemma AliveDrifts(s: State)
    requires Numbered(s)
    ensures Drifted(s, AliveOf(s).2)
  {
    hide SyncOf;
    SyncDrifts(IdentityOf(s).1);
  }

  /** A reader of a replaced file is attached to the replacement once it asks for the writer. */
  lemma AliveReattaches(s: State)
    requires Numbered(s) && s.att.Some? && |s.script| >= 4
    requires !s.script[0].statFails && s.script[0].replaced && s.script[1].attach == OK && !s.script[2].retired
    requires !s.script[3].statFails
    ensures AliveOf(s).0 == OK && AliveOf(s).1 == s.script[3].held
    ensures AliveOf(s).2.att == Some(s.born) && AliveOf(s).2.announce
  {
    var s1 := IdentityOf(s).1;
    SyncFollows(s1, 0);
    assert Answer(SyncOf(s1).1) == s.script[3];
  }

  /** One of a file that is still in place keeps it, and the answer is the lock's. */
  lemma AliveAnswers(s: State)
    requires s.att.Some? && |s.script| >= 3
    requires !s.script[0].statFails && !s.script[0].replaced && !s.script[1].retired && !s.script[2].statFails
    ensures AliveOf(s).0 == OK && AliveOf(s).1 == s.script[2].held
    ensures AliveOf(s).2.att == s.att && AliveOf(s).2.announce == s.announce && AliveOf(s).2.script == s.script[3..]
  {
    var s1 := IdentityOf(s).1;
    SyncStays(s1);
    assert Answer(SyncOf(s1).1) == s.script[2];
  }

  // ---- wait ------------------------------------------------------------------------------------------------

  /** One turn of wait's loop: `done` with `rc`, or once more; what it saw, and the sleep it asked for. */
  datatype Turn = Turn(done: bool, rc: Code, s: State, look: Option<Look>, naps: seq<Request>)

  function Least(a: nat, b: nat): nat {
    if a < b then a else b
  }

  /** Unattached: look again in 10 ms. */
  function PollOf(s: State, end: nat): Turn {
    if s.clock >= end then Turn(true, TIMEOUT, s, Some(Nothing), [])
    else
      Turn(Answer(s).nap.Interrupted?, INTR, Tock(s), Some(Nothing),
           [Request(s.clock, Least(end - s.clock, UNATTACHED_POLL_NS))])
  }

  /** Nothing new: read the clock, sleep at most a second, and check for an orphan if nobody woke us. */
  function DozeOf(s: State, look: Look, end: nat): Turn {
    var s1 := Tock(s);
    if s1.clock >= end then Turn(true, TIMEOUT, s1, Some(look), [])
    else
      var nap, s2 := Answer(s1).nap, Tock(s1);
      var naps := [Request(s1.clock, Least(end - s1.clock, WAIT_SLICE_NS))];
      match nap
      case Woke => Turn(false, OK, s2, Some(look), naps)
      case Interrupted => Turn(true, INTR, s2, Some(look), naps)
      case Broken => Turn(true, SYS, s2, Some(look), naps)
      case Expired =>
        var (rc, s3) := IdentityOf(s2);
        Turn(rc != OK, rc, s3, Some(look), naps)
  }

  function TurnOf(s: State, last: u32, end: nat): Turn {
    var (rc, s1) := SyncOf(s);
    if rc == NODATA then PollOf(s1, end)
    else if rc != OK then Turn(true, rc, s1, None, [])
    else if !s1.desc.notifies then Turn(true, NOTSUP, s1, None, [])
    else if Answer(s1).retired then Turn(false, OK, Tock(s1), None, [])
    else
      var s2 := Tock(s1);
      var look, s3 := Seen(Answer(s2).look, s1.desc.capacity), Tock(s2);
      if look.Found? && look.gen != last then Turn(true, OK, s3, Some(look), [])
      else if look.Corrupt? then Turn(true, FORMAT, s3, Some(look), [])
      else DozeOf(s3, look, end)
  }

  /** A look that leaves a waiter for another value than `last` waiting. */
  predicate Unchanged(look: Option<Look>, last: u32) {
    look.Some? && !look.value.Corrupt? && (look.value.Found? ==> look.value.gen == last)
  }

  /** Sleeps that are not empty, not longer than a slice and not past `end`. */
  ghost predicate Timely(naps: seq<Request>, end: nat) {
    forall k :: 0 <= k < |naps| ==> 0 < naps[k].ns <= WAIT_SLICE_NS && naps[k].at + naps[k].ns <= end
  }

  /**
   * A turn that gets as far as its look reports a change exactly if the look found another
   * generation, and a corrupt file exactly if it found one.
   */
  lemma TurnReports(s: State, last: u32, end: nat)
    requires Numbered(s) && SyncOf(s).0 == OK && |SyncOf(s).1.script| >= 2
    requires SyncOf(s).1.desc.notifies && !SyncOf(s).1.script[0].retired
    ensures var t, look, turn := SyncOf(s).1, SyncOf(s).1.script[1].look, TurnOf(s, last, end);
            var fits := look.Found? && |look.value| <= t.desc.capacity;
            && (turn.done && turn.rc == OK <==> fits && look.gen != last)
            && (turn.done && turn.rc == FORMAT <==> look.Corrupt? || (look.Found? && !fits))
            && turn.look == Some(if look.Found? && !fits then Corrupt else look)
  {
    hide SyncOf;
    var t := SyncOf(s).1;
    assert Answer(Tock(t)) == t.script[1];
  }

  /**
   * A turn whose look finds nothing new ends with TIMEOUT exactly at the deadline; before that it sleeps once,
   * to the deadline or for a second, and is over only if a signal or an error ended the sleep.
   */
  lemma TurnSleeps(s: State, last: u32, end: nat)
    requires Numbered(s) && SyncOf(s).0 == OK && |SyncOf(s).1.script| >= 5
    requires SyncOf(s).1.desc.notifies && !SyncOf(s).1.script[0].retired
    requires var t, look := SyncOf(s).1, SyncOf(s).1.script[1].look;
             look.Nothing? || look.Torn? || (look.Found? && |look.value| <= t.desc.capacity && look.gen == last)
    ensures var t, turn := SyncOf(s).1, TurnOf(s, last, end);
            var now, nap := t.clock + t.script[0].dt + t.script[1].dt + t.script[2].dt, t.script[3].nap;
            && (turn.done && turn.rc == TIMEOUT <==> now >= end)
            && turn.naps == (if now >= end then [] else [Request(now, if end - now < WAIT_SLICE_NS then end - now else WAIT_SLICE_NS)])
            && (now < end ==>
                  && (turn.done && turn.rc == INTR <==> nap.Interrupted?)
                  && (turn.done && turn.rc == SYS <==> nap.Broken? || (nap.Expired? && t.script[4].statFails))
                  && (turn.done ==> turn.rc in {INTR, SYS})
                  && turn.s.att == if nap.Expired? && !t.script[4].statFails && t.script[4].replaced then None else t.att)
  {
    hide SyncOf, Drifted, DozeOf;
    SyncDrifts(s);
    var t := SyncOf(s).1;
    var t3 := Tock(Tock(t));
    assert Answer(Tock(t)) == t.script[1] && t3.script == t.script[2..] && t3.clock == t.clock + t.script[0].dt + t.script[1].dt;
    var look := t.script[1].look;
    assert TurnOf(s, last, end) == DozeOf(t3, look, end);
    DozeSleeps(t3, look, end);
  }

  lemma DozeSleeps(s: State, look: Look, end: nat)
    requires s.att.Some? && |s.script| >= 3
    ensures var now, nap, turn := s.clock + s.script[0].dt, s.script[1].nap, DozeOf(s, look, end);
            && (turn.done && turn.rc == TIMEOUT <==> now >= end)
            && turn.naps == (if now >= end then [] else [Request(now, if end - now < WAIT_SLICE_NS then end - now else WAIT_SLICE_NS)])
            && (now < end ==>
                  && (turn.done && turn.rc == INTR <==> nap.Interrupted?)
                  && (turn.done && turn.rc == SYS <==> nap.Broken? || (nap.Expired? && s.script[2].statFails))
                  && (turn.done ==> turn.rc in {INTR, SYS})
                  && turn.s.att == if nap.Expired? && !s.script[2].statFails && s.script[2].replaced then None else s.att)
  {
    assert Answer(Tock(s)) == s.script[1] && Answer(Tock(Tock(s))) == s.script[2];
  }

  /** A file that does not notify is refused; a failed attach is passed on; no file is polled for. */
  lemma TurnRefuses(s: State, last: u32, end: nat)
    requires Numbered(s)
    ensures var (rc, t), turn := SyncOf(s), TurnOf(s, last, end);
            && (turn.done && turn.rc == NOTSUP <==> rc == OK && !t.desc.notifies)
            && (rc in {FORMAT, SYS} ==> turn.done && turn.rc == rc)
            && (rc == NODATA ==> turn.look == Some(Nothing) && (turn.done && turn.rc == TIMEOUT <==> t.clock >= end))
  {
    hide SyncOf;
    SyncDrifts(s);
  }

  lemma TurnDrifts(s: State, last: u32, end: nat)
    requires Numbered(s)
    ensures var t := TurnOf(s, last, end);
            && Drifted(s, t.s) && (s.script != [] ==> |t.s.script| < |s.script|)
            && (t.done ==> t.rc in {OK, TIMEOUT, INTR, NOTSUP, FORMAT, SYS})
            && (t.done && t.rc == TIMEOUT ==> t.s.clock >= end && Unchanged(t.look, last))
            && (t.done && t.rc == OK ==> t.look.Some? && t.look.value.Found? && t.look.value.gen != last && t.s.att.Some?)
            && Timely(t.naps, end) && (s.clock >= end ==> t.naps == [])
  {
    hide SyncOf, DozeOf, PollOf;
    SyncDrifts(s);
    var (rc, s1) := SyncOf(s);
    if rc == NODATA {
      PollDrifts(s1, last, end);
      DriftsOn(s, s1, PollOf(s1, end).s);
    } else if rc == OK {
      var s3 := Tock(Tock(s1));
      var look := Seen(Answer(Tock(s1)).look, s1.desc.capacity);
      if !look.Corrupt? && !(look.Found? && look.gen != last) {
        DozeDrifts(s3, look, last, end);
        DriftsOn(s, s3, DozeOf(s3, look, end).s);
      }
    }
  }

  lemma PollDrifts(s: State, last: u32, end: nat)
    requires Numbered(s)
    ensures var t := PollOf(s, end);
            && Drifted(s, t.s) && t.rc in {TIMEOUT, INTR} && Unchanged(t.look, last)
            && (t.done && t.rc == TIMEOUT ==> t.s.clock >= end)
            && Timely(t.naps, end) && (s.clock >= end ==> t.naps == [])
  {}

  lemma DozeDrifts(s: State, look: Look, last: u32, end: nat)
    requires Numbered(s) && Unchanged(Some(look), last)
    ensures var t := DozeOf(s, look, end);
            && Drifted(s, t.s) && t.look == Some(look) && (t.done ==> t.rc in {TIMEOUT, INTR, SYS})
            && (t.done && t.rc == TIMEOUT ==> t.s.clock >= end)
            && Timely(t.naps, end) && (s.clock >= end ==> t.naps == [])
  {}

  /** What wait returned, the handle after it, the last thing it saw, and its sleeps. */
  datatype Wait = Wait(rc: Code, s: State, look: Option<Look>, naps: seq<Request>)

  /** The loop, as far as the environment's answers go. */
  function WaitOf(s: State, last: u32, end: nat): Wait
    requires Numbered(s)
    decreases |s.script|
  {
    if s.script == [] then Wait(RUNNING, s, None, [])
    else
      var t := TurnOf(s, last, end);
      TurnDrifts(s, last, end);
      if t.done then Wait(t.rc, t.s, t.look, t.naps)
      else
        var w := WaitOf(t.s, last, end);
        Wait(w.rc, w.s, if w.look.Some? then w.look else t.look, t.naps + w.naps)
  }

  lemma WaitStep(s: State, last: u32, end: nat)
    requires Numbered(s) && s.script != []
    ensures var t := TurnOf(s, last, end);
            && Numbered(t.s) && |t.s.script| < |s.script|
            && WaitOf(s, last, end).rc == (if t.done then t.rc else WaitOf(t.s, last, end).rc)
            && WaitOf(s, last, end).s == (if t.done then t.s else WaitOf(t.s, last, end).s)
            && WaitOf(s, last, end).naps == t.naps + (if t.done then [] else WaitOf(t.s, last, end).naps)
  {
    hide TurnOf;
    TurnDrifts(s, last, end);
  }

  lemma WaitEnds(s: State, last: u32, end: nat)
    requires Numbered(s) && s.script == []
    ensures WaitOf(s, last, end) == Wait(RUNNING, s, None, [])
  {}

  lemma Appended<T>(a: seq<T>, b: seq<T>, c: seq<T>)
    requires a <= b <= c
    ensures c[|a|..] == b[|a|..] + c[|b|..]
  {}

  function Deadline(now: nat, timeoutMs: int): nat {
    if timeoutMs < 0 then U64 - 1 else now + timeoutMs * NS_PER_MS
  }

  /** psmsgr_state_wait. */
  function NativeWait(s: State, last: u32, timeoutMs: int): Wait
    requires Numbered(s)
  {
    WaitOf(Tock(s), last, Deadline(Tock(s).clock, timeoutMs))
  }

  lemma {:induction false} WaitSound(s: State, last: u32, end: nat)
    requires Numbered(s)
    ensures var w := WaitOf(s, last, end);
            && Drifted(s, w.s) && w.rc in {OK, TIMEOUT, INTR, NOTSUP, FORMAT, SYS, RUNNING}
            && (w.rc == TIMEOUT ==> w.s.clock >= end && Unchanged(w.look, last))
            && (w.rc == OK ==> w.look.Some? && w.look.value.Found? && w.look.value.gen != last && w.s.att.Some?)
            && (w.rc == RUNNING ==> w.s.script == [])
            && Timely(w.naps, end) && (s.clock >= end ==> w.naps == [])
    decreases |s.script|
  {
    hide TurnOf;
    if s.script != [] {
      TurnDrifts(s, last, end);
      var t := TurnOf(s, last, end);
      if !t.done {
        WaitSound(t.s, last, end);
        DriftsOn(s, t.s, WaitOf(t.s, last, end).s);
      }
    }
  }

  /**
   * TIMEOUT only at or after the deadline and after a last look that found no other generation; OK
   * only after one that did; sleeps end by the deadline, and a poll never sleeps.
   */
  lemma WaitPromises(s: State, last: u32, timeoutMs: int)
    requires Numbered(s)
    ensures var w, end := NativeWait(s, last, timeoutMs), Deadline(Tock(s).clock, timeoutMs);
            && Drifted(s, w.s) && w.rc in {OK, TIMEOUT, INTR, NOTSUP, FORMAT, SYS, RUNNING}
            && (timeoutMs >= 0 ==> end >= s.clock + timeoutMs * NS_PER_MS)
            && (w.rc == TIMEOUT ==> w.s.clock >= end && Unchanged(w.look, last))
            && (w.rc == OK ==> w.look.Some? && w.look.value.Found? && w.look.value.gen != last && w.s.att.Some?)
            && (w.rc == RUNNING ==> w.s.script == [])
            && Timely(w.naps, end) && (timeoutMs == 0 ==> w.naps == [])
            && (s.script != [] ==> |w.s.script| < |s.script|)
  {
    hide WaitOf;
    WaitSound(Tock(s), last, Deadline(Tock(s).clock, timeoutMs));
  }

  /** A change that is there when wait looks first is reported, whatever the timeout. */
  lemma WaitReports(s: State, last: u32, timeoutMs: int)
    requires Numbered(s) && s.att.Some? && s.desc.notifies && |s.script| >= 4
    requires !s.script[1].retired && !s.script[2].retired
    requires var look := s.script[3].look;
             look.Found? && |look.value| <= s.desc.capacity && look.gen != last
    ensures NativeWait(s, last, timeoutMs).rc == OK && NativeWait(s, last, timeoutMs).look == Some(s.script[3].look)
  {
    var s1 := Tock(s);
    SyncStays(s1);
    TurnReports(s1, last, Deadline(s1.clock, timeoutMs));
  }

  /** A poll of a channel that holds the value the caller knows, or none, times out without sleeping. */
  lemma PollTimesOut(s: State, last: u32)
    requires Numbered(s) && s.att.Some? && s.desc.notifies && |s.script| >= 4
    requires !s.script[1].retired && !s.script[2].retired
    requires var look := s.script[3].look;
             look.Nothing? || look.Torn? || (look.Found? && |look.value| <= s.desc.capacity && look.gen == last)
    ensures NativeWait(s, last, 0).rc == TIMEOUT && NativeWait(s, last, 0).naps == []
  {
    var s1 := Tock(s);
    SyncStays(s1);
    var s2 := Tock(s1);
    var s3 := Tock(s2);
    assert SyncOf(s1) == (OK, s2) && Answer(s2) == s.script[2] && Answer(s3) == s.script[3];
    assert TurnOf(s1, last, s1.clock) == DozeOf(Tock(s3), Seen(s.script[3].look, s.desc.capacity), s1.clock);
    assert TurnOf(s1, last, s1.clock).done;
  }

  // ---- the handle ----------------------------------------------------------------------------------------------

  /** The fields of the C handle, the clock and the environment. History: `told`, the attachments a result was handed out from. */
  class CReader {
    var att: Option<nat>
    var announce: bool
    var desc: Desc
    var born: nat
    var clock: nat
    var script: seq<Tick>
    var naps: seq<Request> // the sleeps asked for
    ghost var told: set<nat>

    ghost function Now(): State
      reads this
    {
      State(att, announce, desc, born, clock, script)
    }

    /** A result is still to be announced iff none was handed out from this attachment. */
    ghost predicate Valid()
      reads this
    {
      && Numbered(Now())
      && (forall a :: a in told ==> a < born)
      && (att.Some? ==> (announce <==> att.value !in told))
    }

    constructor (script: seq<Tick>)
      ensures Valid() && att == None && told == {} && this.script == script && naps == []
    {
      this.script := script;
      att, announce, desc, born, clock := None, false, Desc(0, 0, 0, false), 0, 0;
      naps, told := [], {};
    }

    /** The environment answers. */
    method Next() returns (t: Tick)
      modifies this`script, this`clock
      ensures t == Answer(old(Now())) && Now() == Tock(old(Now()))
    {
      if script == [] {
        t := Tick(0, false, NODATA, Desc(0, 0, 0, true), Nothing, Woke, false, false, false, false, false);
      } else {
        t := script[0];
        script := script[1..];
      }
      clock := clock + t.dt;
    }

    method Attach() returns (rc: Code)
      requires att.None?
      modifies this`att, this`announce, this`desc, this`born, this`script, this`clock
      ensures rc == AttachCode(Answer(old(Now())).attach)
      ensures Now() == if rc != OK then Tock(old(Now()))
                       else Tock(old(Now())).(att := Some(old(born)), announce := true,
                                              desc := Answer(old(Now())).desc, born := old(born) + 1)
    {
      var t := Next();
      rc := if t.attach in {OK, NODATA, FORMAT} then t.attach else SYS;
      if rc == OK {
        att, announce, desc, born := Some(born), true, t.desc, born + 1;
      }
    }

    /** reader_sync. */
    method Sync() returns (rc: Code)
      requires Valid()
      modifies this`att, this`announce, this`desc, this`born, this`script, this`clock
      ensures Valid() && (rc, Now()) == SyncOf(old(Now()))
    {
      hide AttachOf;
      SyncDrifts(Now());
      if att.Some? {
        var t := Next();
        if !t.retired { return OK; }
        att := None;
      }
      var i := 0;
      while i < ATTACH_RETRIES
        invariant 0 <= i <= ATTACH_RETRIES && att.None?
        invariant AttachOf(Now(), ATTACH_RETRIES - i) == SyncOf(old(Now()))
      {
        AttachStep(Now(), ATTACH_RETRIES - i);
        rc := Attach();
        if rc != OK { return; }
        var t := Next();
        if !t.retired { return; }
        att := None;
        i := i + 1;
      }
      AttachStep(Now(), 1);
      rc := NODATA;
    }

    /** identity_check. */
    method Identity() returns (rc: Code)
      requires Valid()
      modifies this`att, this`script, this`clock
      ensures Valid() && (rc, Now()) == IdentityOf(old(Now()))
      ensures var t := Answer(old(Now()));
              && rc == (if old(att).Some? && t.statFails then SYS else OK)
              && att == (if old(att).Some? && !t.statFails && t.replaced then None else old(att))
    {
      if att.None? { return OK; }
      var t := Next();
      if t.statFails { return SYS; }
      if t.replaced {
        att := None;
      }
      rc := OK;
    }

    /** announce: the first result handed out from an attachment carries the flag. */
    method Announce() returns (flag: bool)
      requires Valid() && att.Some?
      modifies this`announce, this`told
      ensures Valid() && flag == old(announce) && Now() == old(Now()).(announce := false) && told == old(told) + {att.value}
    {
      flag := announce;
      announce := false;
      told := told + {att.value};
    }

    /** psmsgr_state_read, or without `copy` psmsgr_state_peek: a result, OK or TOOSMALL, is flagged iff it is the first from its attachment. */
    method Read(size: nat, copy: bool) returns (rc: Code, info: Info, data: seq<byte>, flag: bool)
      requires Valid()
      modifies this`att, this`announce, this`desc, this`born, this`script, this`clock, this`told
      ensures Valid() && Native(rc, info, data, flag, Now()) == ReadOf(old(Now()), size, copy)
      ensures rc in {OK, TOOSMALL} ==> att.Some? && flag == (att.value !in old(told)) && told == old(told) + {att.value}
      ensures rc !in {OK, TOOSMALL} ==> told == old(told)
    {
      hide SyncOf;
      SyncDrifts(Now());
      info, data, flag := NO_INFO, [], false;
      rc := Sync();
      if rc != OK { return; }
      var t := Next();
      match t.look
      case Nothing => rc := NODATA;
      case Torn => rc := BUSY;
      case Corrupt => rc := FORMAT;
      case Found(gen, ts, value) =>
        if |value| > desc.capacity { rc := FORMAT; return; }
        info := Info(gen, ts, |value|);
        if copy && |value| > size {
          rc := TOOSMALL;
        } else if copy {
          data := value;
        }
        flag := Announce();
    }

    method Peek() returns (rc: Code, info: Info, flag: bool)
      requires Valid()
      modifies this`att, this`announce, this`desc, this`born, this`script, this`clock, this`told
      ensures Valid() && Native(rc, info, [], flag, Now()) == ReadOf(old(Now()), 0, false)
      ensures rc == OK ==> att.Some? && flag == (att.value !in old(told)) && told == old(told) + {att.value}
      ensures rc != OK ==> told == old(told)
    {
      hide SyncOf;
      ReadDrifts(Now(), 0, false);
      var data;
      rc, info, data, flag := Read(0, false);
    }

    /** psmsgr_state_describe_sized: the attached file's properties. */
    method Describe() returns (rc: Code, d: Desc)
      requires Valid()
      modifies this`att, this`announce, this`desc, this`born, this`script, this`clock
      ensures Valid() && (rc, Now()) == SyncOf(old(Now())) && (rc == OK ==> d == desc)
    {
      rc := Sync();
      d := if rc == OK then desc else Desc(0, 0, 0, false);
    }

    /** psmsgr_state_writer_alive. */
    method Alive() returns (rc: Code, alive: bool)
      requires Valid()
      modifies this`att, this`announce, this`desc, this`born, this`script, this`clock
      ensures Valid() && (rc, alive, Now()) == AliveOf(old(Now()))
    {
      hide SyncOf;
      alive := false;
      rc := Identity();
      if rc != OK { return; }
      var _ := Sync();
      var t := Next();
      if t.statFails { return SYS, false; }
      rc, alive := OK, t.held;
    }

    /** clock_nanosleep or FUTEX_WAIT. */
    method Sleep(ns: nat) returns (nap: Nap)
      modifies this`script, this`clock, this`naps
      ensures nap == Answer(old(Now())).nap && Now() == Tock(old(Now()))
      ensures naps == old(naps) + [Request(old(clock), ns)]
    {
      naps := naps + [Request(clock, ns)];
      var t := Next();
      nap := t.nap;
    }

    method Poll(end: nat) returns (done: bool, rc: Code, ghost look: Option<Look>)
      requires Valid()
      modifies this`script, this`clock, this`naps
      ensures Valid() && old(naps) <= naps
      ensures Turn(done, rc, Now(), look, naps[|old(naps)|..]) == PollOf(old(Now()), end)
    {
      look := Some(Nothing);
      if clock >= end { return true, TIMEOUT, look; }
      var nap := Sleep(if end - clock < UNATTACHED_POLL_NS then end - clock else UNATTACHED_POLL_NS);
      return nap.Interrupted?, INTR, look;
    }

    method Doze(ghost seen: Look, end: nat) returns (done: bool, rc: Code, ghost look: Option<Look>)
      requires Valid()
      modifies this`att, this`script, this`clock, this`naps
      ensures Valid() && old(naps) <= naps
      ensures Turn(done, rc, Now(), look, naps[|old(naps)|..]) == DozeOf(old(Now()), seen, end)
    {
      look := Some(seen);
      var _ := Next();
      if clock >= end { return true, TIMEOUT, look; }
      var nap := Sleep(if end - clock < WAIT_SLICE_NS then end - clock else WAIT_SLICE_NS);
      match nap
      case Woke => return false, OK, look;
      case Interrupted => return true, INTR, look;
      case Broken => return true, SYS, look;
      case Expired =>
        rc := Identity();
        done := rc != OK;
    }

    /** One turn of wait's loop. */
    method WaitTurn(last: u32, end: nat) returns (done: bool, rc: Code, ghost look: Option<Look>)
      requires Valid()
      modifies this
      ensures Valid() && told == old(told) && old(naps) <= naps
      ensures Turn(done, rc, Now(), look, naps[|old(naps)|..]) == TurnOf(old(Now()), last, end)
    {
      hide SyncOf;
      SyncDrifts(Now());
      done, look := true, None;
      rc := Sync();
      if rc == NODATA {
        done, rc, look := Poll(end);
        return;
      }
      if rc != OK { return; }
      if !desc.notifies { return true, NOTSUP, look; }
      var t := Next();
      if t.retired { return false, OK, look; }
      t := Next();
      var seen := t.look;
      if seen.Found? && |seen.value| > desc.capacity { seen := Corrupt; }
      look := Some(seen);
      if seen.Found? && seen.gen != last { return true, OK, look; }
      if seen.Corrupt? { return true, FORMAT, look; }
      done, rc, look := Doze(seen, end);
    }

    /** psmsgr_state_wait. */
    method Wait(last: u32, timeoutMs: int) returns (rc: Code)
      requires Valid()
      modifies this
      ensures Valid() && told == old(told) && old(naps) <= naps
      ensures var w := NativeWait(old(Now()), last, timeoutMs);
              rc == w.rc && Now() == w.s && naps[|old(naps)|..] == w.naps
    {
      hide TurnOf, SyncOf, WaitOf, Drifted;
      var _ := Next();
      var end := if timeoutMs < 0 then U64 - 1 else clock + timeoutMs * NS_PER_MS;
      ghost var start := Now();
      while script != []
        invariant Valid() && told == old(told) && old(naps) <= naps
        invariant var w, now := WaitOf(start, last, end), WaitOf(Now(), last, end);
                  w.rc == now.rc && w.s == now.s && w.naps == naps[|old(naps)|..] + now.naps
        decreases |script|
      {
        ghost var was, before := naps, Now();
        TurnDrifts(before, last, end);
        WaitStep(before, last, end);
        var done, code, look := WaitTurn(last, end);
        Appended(old(naps), was, naps);
        if done { return code; }
      }
      WaitEnds(Now(), last, end);
      rc := RUNNING;
    }
  }
}
