// Writer election: every step keeps the lock invariant.
module SystemLock {
  import opened Bytes
  import opened System
  import opened SystemInvariant

  /** Steps that leave the lock alone: the process stays in, or leaves, the part it is in. */
  lemma LockUntouched(s: Sys, t: Sys, p: nat)
    requires LockInv(s) && p < |s.procs|
    requires t.lockPath == s.lockPath && t.holders == s.holders && t.unlinks == s.unlinks
    requires |t.procs| == |s.procs| && t.procs == s.procs[p := t.procs[p]]
    requires var a, b := s.procs[p], t.procs[p];
             && b.call0 + b.restarts <= b.iter0 <= t.unlinks
             && (b.refusal.None? || b.refusal == a.refusal)
             && Held(b.pc) == Held(a.pc)
             && (Section(b.pc) == Section(a.pc) || Section(b.pc).None?)
             && (b.pc.Out? || b.pc.LockCreate? || b.pc.Closing? || Section(b.pc).Some?)
    ensures LockInv(t)
  {
    forall q | 0 <= q < |t.procs|
      ensures HoldInv(t, q) && LoopInv(t, q)
    {
      assert HoldInv(s, q) && LoopInv(s, q);
    }
  }

  lemma LockUnchanged(s: Sys, t: Sys)
    requires LockInv(s)
    requires t.lockPath == s.lockPath && t.holders == s.holders && t.unlinks == s.unlinks && t.procs == s.procs
    ensures LockInv(t)
  {
    forall q | 0 <= q < |t.procs|
      ensures HoldInv(t, q) && LoopInv(t, q)
    {
      assert HoldInv(s, q) && LoopInv(s, q);
    }
  }

  lemma CreateKeeps(s: Sys, p: nat)
    requires LockInv(s) && p < |s.procs| && s.procs[p].pc.LockCreate?
    ensures LockInv(LockStep(s, p))
  {
    var t := LockStep(s, p);
    forall q | 0 <= q < |t.procs|
      ensures HoldInv(t, q) && LoopInv(t, q)
    {
      assert HoldInv(s, q) && LoopInv(s, q);
    }
    forall i | 0 <= i < |t.holders| && t.holders[i].Some?
      ensures t.holders[i].value < |t.procs| && Held(t.procs[t.holders[i].value].pc) == Some(i)
    {
      assert i < |s.holders|;
    }
  }

  lemma ReopenKeeps(s: Sys, p: nat)
    requires LockInv(s) && p < |s.procs| && s.procs[p].pc.LockReopen?
    ensures LockInv(LockStep(s, p))
  {
    var t := LockStep(s, p);
    assert LoopInv(s, p);
    forall q | 0 <= q < |t.procs|
      ensures HoldInv(t, q) && LoopInv(t, q)
    {
      assert HoldInv(s, q) && LoopInv(s, q);
    }
  }

  lemma TakeKeeps(s: Sys, t: Sys, p: nat, ino: nat)
    requires LockInv(s) && p < |s.procs| && s.procs[p].pc == LockTry(ino)
    requires ino < |s.holders| && s.holders[ino].None?
    requires t == SetPc(s.(holders := s.holders[ino := Some(p)]), p, LockVerify(ino))
    ensures LockInv(t)
  {
    assert LoopInv(s, p);
    forall q | 0 <= q < |t.procs|
      ensures HoldInv(t, q) && LoopInv(t, q)
    {
      assert HoldInv(s, q) && LoopInv(s, q);
    }
  }

  lemma TryKeeps(s: Sys, p: nat)
    requires LockInv(s) && p < |s.procs| && s.procs[p].pc.LockTry?
    ensures LockInv(LockStep(s, p))
  {
    var t := LockStep(s, p);
    var ino := s.procs[p].pc.ino;
    assert LoopInv(s, p);
    if s.holders[ino].None? {
      TakeKeeps(s, t, p, ino);
    } else {
      forall q | 0 <= q < |t.procs|
        ensures HoldInv(t, q) && LoopInv(t, q)
      {
        assert HoldInv(s, q) && LoopInv(s, q);
      }
    }
  }

  lemma RefusedKeeps(s: Sys, p: nat)
    requires LockInv(s) && p < |s.procs| && s.procs[p].pc.LockRefused?
    ensures LockInv(LockStep(s, p))
  {
    var t := LockStep(s, p);
    assert LoopInv(s, p);
    forall q | 0 <= q < |t.procs|
      ensures HoldInv(t, q) && LoopInv(t, q)
    {
      assert HoldInv(s, q) && LoopInv(s, q);
    }
  }

  /** Giving up a lock: closing the descriptor after a failed check, at close, or in a crash. */
  lemma ReleaseKeeps(s: Sys, t: Sys, p: nat, ino: nat)
    requires LockInv(s) && p < |s.procs| && Held(s.procs[p].pc) == Some(ino)
    requires t.lockPath == s.lockPath && t.unlinks == s.unlinks && t.holders == Release(s, ino).holders
    requires |t.procs| == |s.procs| && t.procs == s.procs[p := t.procs[p]]
    requires var b := t.procs[p];
             && (b.pc.Out? || b.pc.LockCreate?) && b.call0 + b.restarts <= b.iter0 <= t.unlinks
             && (b.refusal.None? || b.refusal == s.procs[p].refusal)
    ensures LockInv(t)
  {
    assert HoldInv(s, p) && LoopInv(s, p);
    forall q | 0 <= q < |t.procs|
      ensures HoldInv(t, q) && LoopInv(t, q)
    {
      assert HoldInv(s, q) && LoopInv(s, q);
    }
  }

  lemma VerifyKeeps(s: Sys, p: nat)
    requires LockInv(s) && p < |s.procs| && s.procs[p].pc.LockVerify?
    ensures LockInv(LockStep(s, p))
  {
    var ino := s.procs[p].pc.ino;
    assert LoopInv(s, p) && HoldInv(s, p);
    if s.lockPath == Some(ino) {
      var t := LockStep(s, p);
      forall q | 0 <= q < |t.procs|
        ensures HoldInv(t, q) && LoopInv(t, q)
      {
        assert HoldInv(s, q) && LoopInv(s, q);
      }
    } else {
      ReleaseKeeps(s, LockStep(s, p), p, ino);
    }
  }

  /** The lock file is unlinked by the only process in the section. */
  lemma UnlinkLockKeeps(s: Sys, p: nat)
    requires LockInv(s) && p < |s.procs| && s.procs[p].pc.UnlinkLock?
    ensures LockInv(UnlinkStep(s, p))
  {
    var t := UnlinkStep(s, p);
    assert HoldInv(s, p);
    forall q | 0 <= q < |t.procs|
      ensures HoldInv(t, q) && LoopInv(t, q)
    {
      assert HoldInv(s, q) && LoopInv(s, q);
      if q != p && Section(s.procs[q].pc).Some? {
        Exclusion(s, p, q);
      }
    }
  }

  lemma LockStepKeeps(s: Sys, p: nat)
    requires LockInv(s) && p < |s.procs| && Section(s.procs[p].pc).None?
    ensures LockInv(LockStep(s, p))
  {
    match s.procs[p].pc
    case LockCreate => CreateKeeps(s, p);
    case LockReopen(_) => ReopenKeeps(s, p);
    case LockTry(_) => TryKeeps(s, p);
    case LockRefused(_, _, _) => RefusedKeeps(s, p);
    case LockVerify(_) => VerifyKeeps(s, p);
    case Closing(ino) =>
      assert HoldInv(s, p) && LoopInv(s, p);
      ReleaseKeeps(s, LockStep(s, p), p, ino);
    case Out =>
  }
}
