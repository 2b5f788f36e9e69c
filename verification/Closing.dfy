// Closing a reader while calls on its handle are in progress, in every interleaving.
module Closing {
  /** The parts of the readers' calls that run without another thread in between; `t` is the calling thread. */
  datatype Step =
    | Enter(t: nat)  // acquire, _enter
    | Leave(t: nat)  // release, the locked part of _leave
    | Close(t: nat)  // Close, the locked part of close
    | Native(t: nat) // Python: the native close, after the lock is released

  /**
   * The Go reader: `acquire`, `release` and `Close` under its mutex. History: `calls` inside,
   * and how often (`closes`) the native handle was closed.
   */
  class GoReader {
    var closed: bool
    var active: nat
    var calls: set<nat>
    var closes: nat

    /** The handle is closed once, as soon as the reader is closed and no call is inside. */
    ghost predicate Valid()
      reads this
    {
      active == |calls| && closes == if closed && calls == {} then 1 else 0
    }

    constructor ()
      ensures Valid() && !closed && calls == {} && closes == 0
    {
      closed, active, calls, closes := false, 0, {}, 0;
    }

    method Acquire(t: nat) returns (ok: bool)
      requires Valid() && t !in calls
      modifies this`active, this`calls
      ensures Valid() && ok == !closed && calls == old(calls) + if ok then {t} else {}
      ensures ok ==> closes == 0
    {
      ok := !closed;
      if ok {
        active := active + 1;
        calls := calls + {t};
      }
    }

    method Release(t: nat)
      requires Valid() && t in calls
      modifies this`active, this`calls, this`closes
      ensures Valid() && calls == old(calls) - {t}
      ensures old(closes) == 0 && closes == if closed && calls == {} then 1 else 0
    {
      active := active - 1;
      calls := calls - {t};
      if closed && active == 0 {
        closes := closes + 1;
      }
    }

    method Close()
      requires Valid()
      modifies this`closed, this`closes
      ensures Valid() && closed
      ensures closes == if calls == {} then 1 else 0
    {
      if !closed {
        closed := true;
        if active == 0 {
          closes := closes + 1;
        }
      }
    }
  }

  /**
   * The Python reader: the native close happens after the lock is released. History also:
   * `closers`, the threads about to do it.
   */
  class PythonReader {
    var handle: bool // _h is not None
    var users: nat
    var calls: set<nat>
    var closers: set<nat>
    var closes: nat

    /** Once the reader is closed and no call is inside, the handle is closed or one thread is about to close it. */
    ghost predicate Valid()
      reads this
    {
      && users == |calls|
      && |closers| + closes == if !handle && calls == {} then 1 else 0
    }

    constructor ()
      ensures Valid() && handle && calls == {} && closers == {} && closes == 0
    {
      handle, users, calls, closers, closes := true, 0, {}, {}, 0;
    }

    method Enter(t: nat) returns (ok: bool)
      requires Valid() && t !in calls
      modifies this`users, this`calls
      ensures Valid() && ok == handle && calls == old(calls) + if ok then {t} else {}
      ensures ok ==> closes == 0
    {
      ok := handle;
      if ok {
        users := users + 1;
        calls := calls + {t};
      }
    }

    method Leave(t: nat) returns (last: bool)
      requires Valid() && t in calls
      modifies this`users, this`calls, this`closers
      ensures Valid() && closes == 0 && calls == old(calls) - {t}
      ensures last == (!handle && calls == {}) && closers == if last then {t} else {}
    {
      users := users - 1;
      calls := calls - {t};
      last := !handle && users == 0;
      if last {
        closers := closers + {t};
      }
      assert old(closers) == {};
    }

    method Close(t: nat) returns (now: bool)
      requires Valid()
      modifies this`handle, this`closers
      ensures Valid() && !handle
      ensures now == (old(handle) && calls == {}) && closers == old(closers) + if now then {t} else {}
    {
      var h := handle;
      handle := false;
      var deferred := users != 0;
      now := h && !deferred;
      if now {
        assert closers == {};
        closers := closers + {t};
      }
    }

    method NativeClose(t: nat)
      requires Valid() && t in closers
      modifies this`closers, this`closes
      ensures Valid() && closers == {} && calls == {} && old(closes) == 0 && closes == 1
    {
      OnlyMember(closers, t);
      closers := closers - {t};
      closes := closes + 1;
    }
  }

  lemma OnlyMember(s: set<nat>, t: nat)
    requires t in s && |s| <= 1
    ensures s == {t}
  {
    assert |s - {t}| == 0;
  }

  lemma NoneYet(steps: seq<Step>)
    ensures !SomeClose(steps[..0]) && steps[..|steps|] == steps
  {}

  lemma OneMore(steps: seq<Step>, k: nat)
    requires k < |steps|
    ensures SomeClose(steps[..k + 1]) <==> SomeClose(steps[..k]) || steps[k].Close?
  {
    assert steps[..k + 1] == steps[..k] + [steps[k]];
    if SomeClose(steps[..k]) {
      var j :| 0 <= j < k && steps[..k][j].Close?;
      assert steps[..k + 1][j].Close?;
    }
    assert steps[..k + 1][k] == steps[k];
  }

  ghost predicate SomeClose(steps: seq<Step>) {
    exists k :: 0 <= k < |steps| && steps[k].Close?
  }

  /** Any interleaving of calls and closes of a Go reader: at most one native close, none during a call, one at the end. */
  method GoRun(steps: seq<Step>) returns (r: GoReader)
    ensures r.closes <= 1 && (r.calls != {} ==> r.closes == 0)
    ensures r.closes == 1 <==> SomeClose(steps) && r.calls == {}
  {
    hide SomeClose;
    r := new GoReader();
    NoneYet(steps);
    for k := 0 to |steps|
      invariant fresh(r) && r.Valid() && (r.closed <==> SomeClose(steps[..k]))
    {
      OneMore(steps, k);
      match steps[k]
      case Enter(t) => if t !in r.calls { var _ := r.Acquire(t); }
      case Leave(t) => if t in r.calls { r.Release(t); }
      case Close(_) => r.Close();
      case Native(_) =>
    }
  }

  /** The same of a Python reader, where a close may still be about to happen. */
  method PythonRun(steps: seq<Step>) returns (r: PythonReader)
    ensures r.closes <= 1 && (r.calls != {} ==> r.closes == 0 && r.closers == {})
    ensures r.closes == 1 <==> SomeClose(steps) && r.calls == {} && r.closers == {}
  {
    hide SomeClose;
    r := new PythonReader();
    NoneYet(steps);
    for k := 0 to |steps|
      invariant fresh(r) && r.Valid() && (!r.handle <==> SomeClose(steps[..k]))
    {
      OneMore(steps, k);
      match steps[k]
      case Enter(t) => if t !in r.calls { var _ := r.Enter(t); }
      case Leave(t) => if t in r.calls { var _ := r.Leave(t); }
      case Close(t) => var _ := r.Close(t);
      case Native(t) => if t in r.closers { r.NativeClose(t); }
    }
  }
}
