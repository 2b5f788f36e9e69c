// What the language bindings hand to an application, whatever the language.
module Bindings {
  import opened Api
  import opened Bytes
  import opened Handle

  /** A result from attachment `from`, or why there is none. */
  datatype Result = Got(from: nat, info: Info, attached: bool) | NoValue | Failed(rc: Code) | Mismatch | Closed

  datatype Waited = Changed | TimedOut | Cancelled | DeadlineExceeded | WaitClosed | WaitFailed(rc: Code) | Waiting

  /** The number of bytes as a uint32_t. */
  function CLen(n: nat): (r: u32)
    ensures r <= n && (n < U32 ==> r == n)
  {
    if n < U32 then n else U32 - 1
  }

  /** What a native answer other than TOOSMALL becomes. */
  function Outcome(n: Native, attached: bool): Result {
    match n.rc
    case OK => Got(if n.s.att.Some? then n.s.att.value else 0, n.info, attached)
    case NODATA => NoValue
    case rc => Failed(rc)
  }

  /** An attach is still owed to the application iff it got no result from the handle's attachment. */
  ghost predicate Owes(h: CReader, pending: bool, returned: set<nat>)
    reads h
  {
    && h.Valid()
    && (forall a :: a in returned ==> a < h.born)
    && (h.att.Some? ==> (pending || h.announce <==> h.att.value !in returned))
  }

  /** A result is marked attached iff the application got none from that attachment before. */
  ghost predicate Reported(res: Result, was: set<nat>, now: set<nat>) {
    if res.Got? then (res.attached <==> res.from !in was) && now == was + {res.from} else now == was
  }

  ghost function Sources(results: seq<Result>): set<nat> {
    set k | 0 <= k < |results| && results[k].Got? :: results[k].from
  }

  /** Each result is marked attached iff it is the first from its attachment. */
  ghost predicate MarkedOnce(results: seq<Result>) {
    forall k :: 0 <= k < |results| && results[k].Got? ==>
      (results[k].attached <==> results[k].from !in Sources(results[..k]))
  }

  lemma AddResult(results: seq<Result>, res: Result)
    requires MarkedOnce(results) && Reported(res, Sources(results), Sources(results) + if res.Got? then {res.from} else {})
    ensures MarkedOnce(results + [res])
    ensures Sources(results + [res]) == Sources(results) + if res.Got? then {res.from} else {}
  {
    var all := results + [res];
    forall k | 0 <= k < |all| && all[k].Got?
      ensures all[k].attached <==> all[k].from !in Sources(all[..k])
    {
      assert k < |results| ==> all[..k] == results[..k];
      assert k == |results| ==> all[..k] == results;
    }
    forall a | a in Sources(results) + if res.Got? then {res.from} else {}
      ensures a in Sources(all)
    {
      if a in Sources(results) {
        var k :| 0 <= k < |results| && results[k].Got? && results[k].from == a;
        assert all[k].Got? && all[k].from == a;
      } else {
        assert all[|results|].Got? && all[|results|].from == a;
      }
    }
  }
}
