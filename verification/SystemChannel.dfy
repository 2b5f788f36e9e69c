// The channel across its data files: the order of all publishes, which file holds the latest
// one, and what a reader may still return from a file that was taken off the path.
module SystemChannel {
  import opened Bytes
  import opened Ring
  import opened RingInvariant
  import opened RingReader
  import opened System
  import opened SystemInvariant
  import opened SystemSafety

  // ---- what holds of the publishes and the files ---------------------------------------------------

  predicate Before(a: Pub, b: Pub) {
    a.fid < b.fid || (a.fid == b.fid && a.k < b.k)
  }

  /** The history is every publish of every file, by file and then by number. */
  ghost predicate PubsInv(fs: seq<Obj>, pubs: seq<Pub>) {
    && (forall k :: 0 <= k < |pubs| ==> Exists(fs, pubs[k].fid) && pubs[k].k < |fs[pubs[k].fid].f.log|)
    && (forall k, m :: 0 <= k < m < |pubs| ==> Before(pubs[k], pubs[m]))
    && (forall fid: nat, i: nat :: Exists(fs, fid) && i < |fs[fid].f.log| ==> Pub(fid, i) in pubs)
  }

  /** A file that is neither retired nor an orphan holds the channel's latest value, if it holds one. */
  ghost predicate Heads(fs: seq<Obj>, pubs: seq<Pub>, orphans: set<nat>) {
    forall fid: nat :: Exists(fs, fid) && !fs[fid].f.retired && fid !in orphans && fs[fid].f.log != [] ==>
      pubs != [] && pubs[|pubs| - 1] == Pub(fid, |fs[fid].f.log| - 1)
  }

  /** Every file is on the path, retired, an orphan, or about to be retired; the path names the newest. */
  ghost predicate Placed(fs: seq<Obj>, path: Option<nat>, orphans: set<nat>, pc: PPc) {
    && (forall fid :: fid in orphans ==> Exists(fs, fid) && path != Some(fid))
    && (forall fid: nat :: Exists(fs, fid) ==>
          path == Some(fid) || fs[fid].f.retired || fid in orphans || fid in Dropped(pc))
    && (forall fid: nat :: Exists(fs, fid) && path.Some? ==> fid <= path.value)
    && (forall fid: nat :: Exists(fs, fid) && pc.TmpFill? ==> fid < pc.tmp)
  }

  ghost predicate OwnerPlaced(s: Sys) {
    && (forall p :: 0 <= p < |s.procs| && Section(s.procs[p].pc).Some? ==>
          Placed(s.files, s.dataPath, s.orphans, s.procs[p].pc))
    && (NoOwner(s) ==> Placed(s.files, s.dataPath, s.orphans, Out))
  }

  // ---- what holds of a call ------------------------------------------------------------------------

  /** The file was an orphan when the call began, and another file had been published to since. */
  predicate Overtaken(pubs: seq<Pub>, at: Entry, fid: nat) {
    fid in at.orphans && 0 < at.pubs <= |pubs| && pubs[at.pubs - 1].fid != fid
  }

  /** Publishes of the file before the channel's last one at `n` are before its number `b`. */
  ghost predicate Recent(pubs: seq<Pub>, n: nat, fid: nat, b: nat) {
    forall k :: 0 <= k < n - 1 && k < |pubs| && pubs[k].fid == fid ==> pubs[k].k + 1 < b
  }

  /** Nothing is published to an orphan. */
  ghost predicate OrphansRest(pubs: seq<Pub>, at: Entry) {
    at.pubs <= |pubs| && forall k :: at.pubs <= k < |pubs| ==> pubs[k].fid !in at.orphans
  }

  ghost predicate CallInv(fs: seq<Obj>, pubs: seq<Pub>, orphans: set<nat>, at: Entry) {
    && OrphansRest(pubs, at) && at.orphans <= orphans
    && forall fid: nat :: fid < |fs| ==>
         fid in at.gone || Overtaken(pubs, at, fid) || Recent(pubs, at.pubs, fid, |fs[fid].f.log|)
  }

  ghost predicate ReturnInv(pubs: seq<Pub>, orphans: set<nat>, res: Result) {
    && OrphansRest(pubs, res.at) && res.at.orphans <= orphans && res.at.pubs <= res.pubs <= |pubs|
    && (Counts(res.o) ==>
          && 0 < res.base
          && Pub(res.fid, res.base - 1) in pubs[..res.pubs]
          && (Overtaken(pubs, res.at, res.fid) || Recent(pubs, res.at.pubs, res.fid, res.base)))
  }

  ghost predicate HandleInv(fs: seq<Obj>, pubs: seq<Pub>, orphans: set<nat>, rp: RProc) {
    && CallInv(fs, pubs, orphans, rp.at)
    && (rp.pc.InRing? && rp.att.Some? ==>
          Overtaken(pubs, rp.at, rp.att.value) || Recent(pubs, rp.at.pubs, rp.att.value, rp.r.first))
    && (forall k :: 0 <= k < |rp.results| ==> ReturnInv(pubs, orphans, rp.results[k]))
    && (forall k, m :: 0 <= k < m < |rp.results| ==> rp.results[k].fid <= rp.results[m].fid)
    && (forall k :: 0 <= k < |rp.results| && rp.att.Some? ==> rp.results[k].fid <= rp.att.value)
  }

  ghost predicate HandlesInv(s: Sys) {
    forall j :: 0 <= j < |s.readers| ==> HandleInv(s.files, s.pubs, s.orphans, s.readers[j])
  }

  ghost predicate ChanInv(s: Sys) {
    PubsInv(s.files, s.pubs) && Heads(s.files, s.pubs, s.orphans) && OwnerPlaced(s) && HandlesInv(s)
  }

  // ---- a step that publishes nothing ------------------------------------------------------------------

  /** No publish: files only become ready, retired or orphans, and new ones are empty. */
  ghost predicate Calm(fs: seq<Obj>, ft: seq<Obj>, orphans: set<nat>, orphans': set<nat>) {
    && |fs| <= |ft| && orphans <= orphans'
    && (forall fid: nat :: fid < |fs| ==>
          && ft[fid].f.log == fs[fid].f.log
          && (fs[fid].ready ==> ft[fid].ready) && (fs[fid].f.retired ==> ft[fid].f.retired)
          && (ft[fid].ready && !fs[fid].ready ==> fs[fid].f.log == []))
    && (forall fid: nat :: |fs| <= fid < |ft| ==> ft[fid].f.log == [])
  }

  lemma CalmPubs(fs: seq<Obj>, ft: seq<Obj>, orphans: set<nat>, orphans': set<nat>, pubs: seq<Pub>)
    requires Calm(fs, ft, orphans, orphans') && PubsInv(fs, pubs) && Heads(fs, pubs, orphans)
    ensures PubsInv(ft, pubs) && Heads(ft, pubs, orphans')
  {
    forall k | 0 <= k < |pubs|
      ensures Exists(ft, pubs[k].fid) && pubs[k].k < |ft[pubs[k].fid].f.log|
    {
      assert Exists(fs, pubs[k].fid);
    }
    forall fid: nat, i: nat | Exists(ft, fid) && i < |ft[fid].f.log|
      ensures Pub(fid, i) in pubs
    {
      assert Exists(fs, fid);
    }
    forall fid: nat | Exists(ft, fid) && !ft[fid].f.retired && fid !in orphans' && ft[fid].f.log != []
      ensures pubs != [] && pubs[|pubs| - 1] == Pub(fid, |ft[fid].f.log| - 1)
    {
      assert Exists(fs, fid);
    }
  }

  /** A reader between its own steps: at most woken. */
  ghost predicate SameCall(rp: RProc, rp': RProc) {
    rp'.at == rp.at && rp'.results == rp.results && rp'.att == rp.att && rp'.pc == rp.pc && rp'.r.first == rp.r.first
  }

  lemma CalmHandle(fs: seq<Obj>, ft: seq<Obj>, orphans: set<nat>, orphans': set<nat>, pubs: seq<Pub>, rp: RProc, rp': RProc)
    requires Calm(fs, ft, orphans, orphans') && PubsInv(fs, pubs)
    requires HandleInv(fs, pubs, orphans, rp) && SameCall(rp, rp')
    ensures HandleInv(ft, pubs, orphans', rp')
  {
    forall fid: nat | fid < |ft|
      ensures fid in rp.at.gone || Overtaken(pubs, rp.at, fid) || Recent(pubs, rp.at.pubs, fid, |ft[fid].f.log|)
    {
      if fid >= |fs| {
        forall k | 0 <= k < |pubs|
          ensures pubs[k].fid != fid
        {
          assert Exists(fs, pubs[k].fid);
        }
      }
    }
  }

  // ---- a publish ------------------------------------------------------------------------------------------

  /** A publish to file `fid`, the one on the path. */
  ghost predicate Posted(fs: seq<Obj>, ft: seq<Obj>, pubs: seq<Pub>, pubs': seq<Pub>, fid: nat) {
    && Exists(fs, fid) && |ft| == |fs| && ft == fs[fid := ft[fid]] && ft[fid].ready
    && |ft[fid].f.log| == |fs[fid].f.log| + 1 && ft[fid].f.retired == fs[fid].f.retired
    && pubs' == pubs + [Pub(fid, |fs[fid].f.log|)]
  }

  lemma PostedPubs(fs: seq<Obj>, ft: seq<Obj>, pubs: seq<Pub>, pubs': seq<Pub>, orphans: set<nat>, pc: PPc, fid: nat)
    requires Posted(fs, ft, pubs, pubs', fid) && PubsInv(fs, pubs) && Heads(fs, pubs, orphans)
    requires Placed(fs, Some(fid), orphans, pc) && Dropped(pc) == {}
    ensures PubsInv(ft, pubs') && Heads(ft, pubs', orphans)
  {
    var n := |pubs|;
    forall k | 0 <= k < |pubs'|
      ensures Exists(ft, pubs'[k].fid) && pubs'[k].k < |ft[pubs'[k].fid].f.log|
    {
      if k < n { assert Exists(fs, pubs[k].fid); }
    }
    forall k, m | 0 <= k < m < |pubs'|
      ensures Before(pubs'[k], pubs'[m])
    {
      assert Exists(fs, pubs[k].fid);
      if m < n { assert Before(pubs[k], pubs[m]); }
    }
    forall x: nat, i: nat | Exists(ft, x) && i < |ft[x].f.log|
      ensures Pub(x, i) in pubs'
    {
      assert Exists(fs, x);
      if x != fid || i < |fs[fid].f.log| { assert Pub(x, i) in pubs; } else { assert pubs'[n] == Pub(x, i); }
    }
    forall x: nat | Exists(ft, x) && !ft[x].f.retired && x !in orphans && ft[x].f.log != []
      ensures pubs'[n] == Pub(x, |ft[x].f.log| - 1)
    {
      assert Exists(fs, x);
    }
  }

  lemma PostedHandle(fs: seq<Obj>, ft: seq<Obj>, pubs: seq<Pub>, pubs': seq<Pub>, orphans: set<nat>, fid: nat, rp: RProc)
    requires Posted(fs, ft, pubs, pubs', fid) && HandleInv(fs, pubs, orphans, rp) && fid !in orphans
    ensures HandleInv(ft, pubs', orphans, rp)
  {
    forall k | 0 <= k < |rp.results|
      ensures ReturnInv(pubs', orphans, rp.results[k])
    {
      var res := rp.results[k];
      assert ReturnInv(pubs, orphans, res);
      assert pubs'[..res.pubs] == pubs[..res.pubs];
    }
  }

  // ---- a reader's own steps -----------------------------------------------------------------------------

  /** When a call begins, only an overtaken orphan holds an outdated value. */
  lemma CallBegins(s: Sys)
    requires PubsInv(s.files, s.pubs) && Heads(s.files, s.pubs, s.orphans)
    ensures CallInv(s.files, s.pubs, s.orphans, EntryOf(s))
  {
    var at := EntryOf(s);
    forall fid: nat | fid < |s.files| && !s.files[fid].f.retired && !Overtaken(s.pubs, at, fid)
      ensures Recent(s.pubs, at.pubs, fid, |s.files[fid].f.log|)
    {
      forall k | 0 <= k < |s.pubs| - 1 && s.pubs[k].fid == fid
        ensures s.pubs[k].k + 1 < |s.files[fid].f.log|
      {
        var last := s.pubs[|s.pubs| - 1];
        assert Exists(s.files, s.pubs[k].fid) && Exists(s.files, last.fid);
        assert Before(s.pubs[k], last);
      }
    }
  }

  lemma FirstMoves(f: File, r: Reader)
    requires RReady(f, r)
    ensures RNext(f, r).first == r.first || RNext(f, r).first == |f.log|
  {}

  /** Attaching or not being attached: the path names the newest file. */
  lemma OutsideHandle(s: Sys, rp: RProc, rp': RProc)
    requires ReadersInv(s) && ReaderInv(s.files, rp) && HandleInv(s.files, s.pubs, s.orphans, rp)
    requires forall fid: nat :: Exists(s.files, fid) && s.dataPath.Some? ==> fid <= s.dataPath.value
    requires rp'.results == rp.results && rp'.at == rp.at && !rp'.pc.InRing?
    requires rp'.att == rp.att || rp'.att == None || rp'.att == s.dataPath
    ensures HandleInv(s.files, s.pubs, s.orphans, rp')
  {
    forall k | 0 <= k < |rp.results| && rp'.att.Some?
      ensures rp.results[k].fid <= rp'.att.value
    {
      assert ResultInv(s.files, rp.results[k]);
    }
  }

  /** The call goes on inside a file that it has just seen unretired. */
  lemma EnterHandle(s: Sys, rp: RProc, fid: nat)
    requires ReadersInv(s) && ReaderInv(s.files, rp) && HandleInv(s.files, s.pubs, s.orphans, rp)
    requires rp.att == Some(fid) && !s.files[fid].f.retired && !rp.pc.InRing?
    ensures HandleInv(s.files, s.pubs, s.orphans, Enter(rp, s.files[fid].f))
  {}

  lemma RingHandle(s: Sys, rp: RProc, fid: nat)
    requires ReadersInv(s) && ReaderInv(s.files, rp) && HandleInv(s.files, s.pubs, s.orphans, rp)
    requires rp.att == Some(fid) && rp.pc.InRing? && RReady(s.files[fid].f, rp.r)
    ensures HandleInv(s.files, s.pubs, s.orphans, rp.(r := RNext(s.files[fid].f, rp.r)))
  {
    FirstMoves(s.files[fid].f, rp.r);
  }

  lemma ReturnHandle(s: Sys, rp: RProc, fid: nat, res: Result)
    requires ReadersInv(s) && ReaderInv(s.files, rp) && HandleInv(s.files, s.pubs, s.orphans, rp) && PubsInv(s.files, s.pubs)
    requires rp.att == Some(fid) && rp.pc.InRing? && rp.r.pc.Finished?
    requires res == Result(fid, rp.r.op, rp.r.pc.o, rp.r.first, rp.r.base, rp.r.fin, rp.r.ok, rp.at, |s.pubs|)
    ensures HandleInv(s.files, s.pubs, s.orphans, rp.(pc := Resting, results := rp.results + [res]))
  {
    hide ReaderInv, CallInv, ReturnInv, PubsInv;
    NewReturn(s, rp, fid, res);
    var rs := rp.results + [res];
    forall k | 0 <= k < |rs|
      ensures ReturnInv(s.pubs, s.orphans, rs[k]) && rs[k].fid <= fid
    {
      if k < |rp.results| { assert ReturnInv(s.pubs, s.orphans, rp.results[k]); }
    }
  }

  lemma NewReturn(s: Sys, rp: RProc, fid: nat, res: Result)
    requires ReadersInv(s) && ReaderInv(s.files, rp) && HandleInv(s.files, s.pubs, s.orphans, rp) && PubsInv(s.files, s.pubs)
    requires rp.att == Some(fid) && rp.pc.InRing? && rp.r.pc.Finished?
    requires res == Result(fid, rp.r.op, rp.r.pc.o, rp.r.first, rp.r.base, rp.r.fin, rp.r.ok, rp.at, |s.pubs|)
    ensures ReturnInv(s.pubs, s.orphans, res)
  {
    hide FileInv, ReturnInv;
    assert s.pubs[..|s.pubs|] == s.pubs;
    if Counts(res.o) {
      assert Exists(s.files, fid) && res.first <= res.base && 0 < res.base && res.base - 1 < |s.files[fid].f.log|;
      assert Pub(fid, res.base - 1) in s.pubs;
    }
    Returns(s.pubs, s.orphans, res, rp.r.first);
  }

  lemma Returns(pubs: seq<Pub>, orphans: set<nat>, res: Result, first: nat)
    requires OrphansRest(pubs, res.at) && res.at.orphans <= orphans && res.pubs == |pubs|
    requires Overtaken(pubs, res.at, res.fid) || Recent(pubs, res.at.pubs, res.fid, first)
    requires Counts(res.o) ==> first <= res.base && 0 < res.base && Pub(res.fid, res.base - 1) in pubs
    ensures ReturnInv(pubs, orphans, res)
  {
    assert pubs[..|pubs|] == pubs;
  }

  lemma LoadHandle(s: Sys, j: nat)
    requires ReadersInv(s) && HandlesInv(s) && PubsInv(s.files, s.pubs) && j < |s.readers|
    requires forall fid: nat :: Exists(s.files, fid) && s.dataPath.Some? ==> fid <= s.dataPath.value
    requires s.dataPath.Some? ==> Exists(s.files, s.dataPath.value)
    ensures |LoadStep(s, j).readers| == |s.readers|
    ensures HandleInv(s.files, s.pubs, s.orphans, LoadStep(s, j).readers[j])
  {
    hide CallInv, ReturnInv, Explained, FileInv;
    var rp := s.readers[j];
    var rp' := LoadStep(s, j).readers[j];
    assert ReaderInv(s.files, rp) && HandleInv(s.files, s.pubs, s.orphans, rp);
    if rp.pc.InRing? {
      var fid := rp.att.value;
      if rp.r.pc.Finished? {
        ReturnHandle(s, rp, fid, Result(fid, rp.r.op, rp.r.pc.o, rp.r.first, rp.r.base, rp.r.fin, rp.r.ok, rp.at, |s.pubs|));
      } else if rp.r.pc.Restart? {
        OutsideHandle(s, rp, rp');
      } else if RReady(s.files[fid].f, rp.r) {
        RingHandle(s, rp, fid);
      }
    } else if (rp.pc.Sync? || rp.pc.Attached?) && rp.att.Some? && !s.files[rp.att.value].f.retired {
      EnterHandle(s, rp, rp.att.value);
    } else {
      OutsideHandle(s, rp, rp');
    }
  }

  // ---- the processes' steps -----------------------------------------------------------------------------

  /** The process in the section takes a step, inside it or out of it. */
  lemma OwnerPlaces(s: Sys, t: Sys, p: nat)
    requires LockInv(s) && OwnerPlaced(s) && p < |s.procs| && Section(s.procs[p].pc).Some?
    requires |t.procs| == |s.procs| && t.procs == s.procs[p := t.procs[p]]
    requires Placed(t.files, t.dataPath, t.orphans, t.procs[p].pc)
    ensures OwnerPlaced(t)
  {
    forall q | 0 <= q < |t.procs| && Section(t.procs[q].pc).Some?
      ensures Placed(t.files, t.dataPath, t.orphans, t.procs[q].pc)
    {
      if q != p { Exclusion(s, p, q); }
    }
  }

  /** A step outside the section, or into it. */
  lemma OutsiderPlaces(s: Sys, t: Sys, p: nat)
    requires LockInv(s) && OwnerPlaced(s) && p < |s.procs| && Section(s.procs[p].pc).None?
    requires |t.procs| == |s.procs| && t.procs == s.procs[p := t.procs[p]]
    requires t.files == s.files && t.dataPath == s.dataPath && t.orphans == s.orphans
    requires Section(t.procs[p].pc).Some? ==>
               && s.procs[p].pc.LockVerify? && s.lockPath == Some(s.procs[p].pc.ino)
               && (t.procs[p].pc.DataOpen? || t.procs[p].pc.UnlinkOpen?)
    ensures OwnerPlaced(t)
  {
    if Section(t.procs[p].pc).Some? {
      VerifiedAlone(s, p);
    }
    forall q | 0 <= q < |t.procs| && Section(t.procs[q].pc).Some?
      ensures Placed(t.files, t.dataPath, t.orphans, t.procs[q].pc)
    {
      if q != p { assert t.procs[q] == s.procs[q]; }
    }
    if NoOwner(t) {
      forall q | 0 <= q < |s.procs|
        ensures Section(s.procs[q].pc).None?
      {
        assert q == p || t.procs[q] == s.procs[q];
      }
    }
  }

  /** A step that publishes nothing keeps the channel's order. */
  lemma CalmStep(s: Sys, t: Sys)
    requires ChanInv(s) && Calm(s.files, t.files, s.orphans, t.orphans) && t.pubs == s.pubs && OwnerPlaced(t)
    requires |t.readers| == |s.readers|
    requires forall j :: 0 <= j < |s.readers| ==> SameCall(s.readers[j], t.readers[j])
    ensures ChanInv(t)
  {
    CalmPubs(s.files, t.files, s.orphans, t.orphans, s.pubs);
    forall j | 0 <= j < |t.readers|
      ensures HandleInv(t.files, t.pubs, t.orphans, t.readers[j])
    {
      CalmHandle(s.files, t.files, s.orphans, t.orphans, s.pubs, s.readers[j], t.readers[j]);
    }
  }

  ghost predicate Quiet(s: Sys, t: Sys, p: nat) {
    && Calm(s.files, t.files, s.orphans, t.orphans) && t.pubs == s.pubs
    && |t.readers| == |s.readers| && (forall j :: 0 <= j < |s.readers| ==> SameCall(s.readers[j], t.readers[j]))
    && p < |s.procs| == |t.procs| && t.procs == s.procs[p := t.procs[p]]
  }

  /** The step is calm, and leaves the files where the process says. */
  ghost predicate Settles(s: Sys, t: Sys, p: nat) {
    Quiet(s, t, p) && Placed(t.files, t.dataPath, t.orphans, t.procs[p].pc)
  }

  ghost predicate InPlace(s: Sys, p: nat) {
    && p < |s.procs| && Section(s.procs[p].pc).Some?
    && FilesInv(s.files, s.dataPath, s.procs[p].goal, s.procs[p].pc)
    && Placed(s.files, s.dataPath, s.orphans, s.procs[p].pc)
  }

  /** Files change their contents or become retired, and the process moves on. */
  lemma PlacedAgain(fs: seq<Obj>, ft: seq<Obj>, path: Option<nat>, orphans: set<nat>, orphans': set<nat>, pc: PPc, pc': PPc)
    requires Placed(fs, path, orphans, pc) && |ft| == |fs| && !pc'.TmpFill? && orphans <= orphans'
    requires forall x :: 0 <= x < |fs| ==> ft[x].ready == fs[x].ready && (fs[x].f.retired ==> ft[x].f.retired)
    requires forall x :: x in orphans' ==> x in orphans || (Exists(fs, x) && path != Some(x))
    requires forall x :: x in Dropped(pc) ==> x in orphans' || (x < |ft| && ft[x].f.retired)
    ensures Placed(ft, path, orphans', pc')
  {
    hide Dropped;
    forall fid: nat | Exists(ft, fid)
      ensures path == Some(fid) || ft[fid].f.retired || fid in orphans'
      ensures path.Some? ==> fid <= path.value
    {
      assert Exists(fs, fid);
    }
  }

  lemma MovePlaces(s: Sys, p: nat, pc: PPc)
    requires InPlace(s, p) && Dropped(s.procs[p].pc) == {} && !pc.TmpFill?
    ensures Settles(s, SetPc(s, p, pc), p)
  {
    hide FilesInv, Placed, Dropped;
    PlacedAgain(s.files, s.files, s.dataPath, s.orphans, s.orphans, s.procs[p].pc, pc);
  }

  lemma DecidePlaces(s: Sys, p: nat, random: u32)
    requires InPlace(s, p) && s.procs[p].pc.DataDecide? && s.procs[p].goal.OpenWriter?
    ensures s.procs[p].pc.fid < |s.files|
    ensures var pc := s.procs[p].pc;
            Settles(s, Decide(s, p, s.procs[p].goal.o, pc.ino, pc.fid, pc.latest, random), p)
  {
    var pc := s.procs[p].pc;
    assert Exists(s.files, pc.fid);
    hide InPlace, Settles, Compatible, CarriedGen;
    var t := Decide(s, p, s.procs[p].goal.o, pc.ino, pc.fid, pc.latest, random);
    MovePlaces(s, p, t.procs[p].pc);
  }

  lemma MakePlaces(s: Sys, p: nat, o: Opts)
    requires InPlace(s, p) && s.procs[p].pc.TmpMake? && OptsValid(o)
    ensures var pc := s.procs[p].pc;
            Settles(s, SetPc(s.(files := s.files + [Blank(o)]), p, TmpFill(pc.ino, pc.prev, pc.gen, |s.files|, 0)), p)
  {
    hide FilesInv;
    var ft := s.files + [Blank(o)];
    assert forall fid: nat :: Exists(ft, fid) <==> Exists(s.files, fid);
  }

  lemma FillPlaces(s: Sys, p: nat, o: Opts)
    requires InPlace(s, p) && s.procs[p].pc.TmpFill? && OptsValid(o)
    ensures s.procs[p].pc.tmp < |s.files|
    ensures var pc := s.procs[p].pc;
            Settles(s, SetPc(s.(files := s.files[pc.tmp := FillTmp(s.files[pc.tmp], o, pc.k)]), p, pc.(k := pc.k + 1)), p)
  {
    hide FileOk, StoreField;
    var pc := s.procs[p].pc;
    var ft := s.files[pc.tmp := FillTmp(s.files[pc.tmp], o, pc.k)];
    assert forall fid: nat :: Exists(ft, fid) <==> Exists(s.files, fid);
  }

  lemma RenamePlaces(s: Sys, p: nat, pc': PPc)
    requires InPlace(s, p) && s.procs[p].pc.TmpFill? && !pc'.TmpFill?
    requires Dropped(pc') == if s.procs[p].pc.prev.Some? then {s.procs[p].pc.prev.value} else {}
    ensures s.procs[p].pc.tmp < |s.files|
    ensures var pc := s.procs[p].pc;
            Settles(s, SetPc(s.(files := s.files[pc.tmp := s.files[pc.tmp].(ready := true)], dataPath := Some(pc.tmp)), p, pc'), p)
  {
    hide FileOk;
    var pc := s.procs[p].pc;
    var ft := s.files[pc.tmp := s.files[pc.tmp].(ready := true)];
    assert forall fid: nat :: Exists(ft, fid) <==> Exists(s.files, fid) || fid == pc.tmp;
  }

  lemma RetirePlaces(s: Sys, p: nat, fid: nat, st: RetireStage, pc': PPc)
    requires InPlace(s, p) && !pc'.TmpFill? && fid < |s.files|
    requires Dropped(s.procs[p].pc) == if st.SetRetired? then {fid} else {}
    ensures Settles(s, SetPc(SetFile(s, fid, RetireFile(s.files[fid].f, st), st.WakeRetired?), p, pc'), p)
  {
    hide FilesInv, Placed, Dropped;
    var ft := s.files[fid := s.files[fid].(f := RetireFile(s.files[fid].f, st))];
    PlacedAgain(s.files, ft, s.dataPath, s.orphans, s.orphans, s.procs[p].pc, pc');
  }

  lemma OpenPlaces(s: Sys, p: nat, random: u32)
    requires InPlace(s, p) && random != 0
    requires s.procs[p].goal.OpenWriter? && OptsValid(s.procs[p].goal.o)
    ensures Settles(s, OpenStep(s, p, s.procs[p].goal.o, random), p)
  {
    var o, pc := s.procs[p].goal.o, s.procs[p].pc;
    assert Section(pc).Some? && SectionInv(s.files, s.dataPath, s.procs[p].goal, pc);
    hide InPlace, Settles, Decide, FilesInv, RetireFile, Blank, FillTmp;
    var t := OpenStep(s, p, o, random);
    match pc
    case DataDecide(_, _, _) => DecidePlaces(s, p, random);
    case TmpMake(_, _, _) => MakePlaces(s, p, o);
    case TmpFill(_, _, _, tmp, k) => if k < HEADER_STORES { FillPlaces(s, p, o); } else { RenamePlaces(s, p, t.procs[p].pc); }
    case NewRetire(_, fid, _, _, st) => RetirePlaces(s, p, fid, st, t.procs[p].pc);
    case _ => OtherPlaces(s, p, random);
  }

  lemma OtherPlaces(s: Sys, p: nat, random: u32)
    requires InPlace(s, p) && random != 0 && s.procs[p].goal.OpenWriter? && OptsValid(s.procs[p].goal.o)
    requires var pc := s.procs[p].pc; !pc.DataDecide? && !pc.TmpMake? && !pc.TmpFill? && !pc.NewRetire?
    ensures Settles(s, OpenStep(s, p, s.procs[p].goal.o, random), p)
  {
    var pc := s.procs[p].pc;
    assert SectionInv(s.files, s.dataPath, s.procs[p].goal, pc);
    var t := OpenStep(s, p, s.procs[p].goal.o, random);
    hide InPlace, Settles, FilesInv;
    assert s.procs[p := s.procs[p].(pc := pc)] == s.procs;
    MovePlaces(s, p, t.procs[p].pc);
  }

  lemma UnlinkDataPlaces(s: Sys, p: nat)
    requires InPlace(s, p) && s.procs[p].pc.UnlinkData?
    ensures Settles(s, UnlinkStep(s, p), p) && Settles(s, UnlinkUnmapped(s, p), p)
  {
    hide FileOk;
  }

  lemma UnlinkPlaces(s: Sys, p: nat)
    requires InPlace(s, p)
    ensures Settles(s, UnlinkStep(s, p), p)
  {
    var pc := s.procs[p].pc;
    assert Section(pc).Some? && SectionInv(s.files, s.dataPath, s.procs[p].goal, pc);
    var t := UnlinkStep(s, p);
    if pc.UnlinkRetire? {
      RetirePlaces(s, p, pc.fid, pc.st, t.procs[p].pc);
    } else if pc.UnlinkData? {
      UnlinkDataPlaces(s, p);
    } else {
      hide FilesInv, FileOk;
      assert t.files == s.files;
    }
  }

  lemma CrashParts(s: Sys, p: nat)
    requires p < |s.procs|
    ensures var t := Crashed(s, p);
            && t.dataPath == s.dataPath && t.readers == s.readers && t.clock == s.clock && t.pubs == s.pubs
            && t.procs == s.procs[p := s.procs[p].(pc := Out)] && t.orphans == s.orphans + Dropped(s.procs[p].pc)
    ensures var t, pc := Crashed(s, p), s.procs[p].pc;
            || t.files == s.files
            || ((pc.Write? || pc.NewRetire? || pc.UnlinkRetire?) && pc.fid < |s.files|
                && t.files == s.files[pc.fid := s.files[pc.fid].(f := CrashFile(s.files[pc.fid].f, AgentOf(pc, pc.fid)))])
  {
    hide CrashFile, Dropped;
  }

  lemma CrashShape(s: Sys, p: nat)
    requires p < |s.procs|
    ensures var t := Crashed(s, p);
            && |t.files| == |s.files| && t.dataPath == s.dataPath && t.readers == s.readers && t.pubs == s.pubs
            && t.procs == s.procs[p := s.procs[p].(pc := Out)] && t.orphans == s.orphans + Dropped(s.procs[p].pc)
            && (forall fid :: 0 <= fid < |s.files| ==>
                  && t.files[fid].ready == s.files[fid].ready && t.files[fid].f.log == s.files[fid].f.log
                  && t.files[fid].f.retired == s.files[fid].f.retired)
            && (Section(s.procs[p].pc).None? ==> t.files == s.files)
  {
    CrashParts(s, p);
    hide Crashed, AgentOf;
  }

  lemma DroppedOff(fs: seq<Obj>, path: Option<nat>, goal: Goal, pc: PPc)
    requires FilesInv(fs, path, goal, pc)
    ensures forall fid :: fid in Dropped(pc) ==> Exists(fs, fid) && path != Some(fid)
  {
    hide FileOk;
  }

  lemma CrashPlaces(s: Sys, p: nat)
    requires InPlace(s, p)
    ensures Settles(s, Crashed(s, p), p)
  {
    hide Crashed, FilesInv, Placed, Dropped;
    DroppedOff(s.files, s.dataPath, s.procs[p].goal, s.procs[p].pc);
    CrashShape(s, p);
    var t := Crashed(s, p);
    PlacedAgain(s.files, t.files, s.dataPath, s.orphans, t.orphans, s.procs[p].pc, Out);
  }

  // ---- every run ------------------------------------------------------------------------------------------

  lemma PlacedOwner(s: Sys, p: nat)
    requires SysInv(s) && ChanInv(s) && p < |s.procs| && Section(s.procs[p].pc).Some?
    ensures InPlace(s, p)
  {
    hide FilesInv, Placed, LockInv, ReadersInv, HandlesInv;
  }

  lemma Settled(s: Sys, t: Sys, p: nat)
    requires SysInv(s) && ChanInv(s) && p < |s.procs| && Section(s.procs[p].pc).Some? && Settles(s, t, p)
    ensures ChanInv(t)
  {
    hide FilesInv, Placed, ReadersInv, HandlesInv;
    OwnerPlaces(s, t, p);
    CalmStep(s, t);
  }

  /** A store other than that of `latest`. */
  lemma StoreSettles(s: Sys, t: Sys, p: nat, g: File, wake: bool, pc': PPc)
    requires InPlace(s, p) && s.procs[p].pc.Write? && s.procs[p].pc.fid < |s.files| && pc'.Write?
    requires var f := s.files[s.procs[p].pc.fid].f;
             g.log == f.log && g.retired == f.retired
    requires t == SetPc(SetFile(s, s.procs[p].pc.fid, g, wake), p, pc').(clock := t.clock)
    ensures Settles(s, t, p)
  {
    hide FilesInv, Placed;
    var fid := s.procs[p].pc.fid;
    var ft := s.files[fid := s.files[fid].(f := g)];
    PlacedAgain(s.files, ft, s.dataPath, s.orphans, s.orphans, s.procs[p].pc, pc');
  }

  /** The store of `latest` goes to the newest file, which every reader of the channel will follow to. */
  lemma PostChannel(s: Sys, t: Sys, p: nat, g: File, pc': PPc)
    requires SysInv(s) && ChanInv(s) && InPlace(s, p) && s.procs[p].pc.Write? && s.procs[p].pc.fid < |s.files| && pc'.Write?
    requires var f := s.files[s.procs[p].pc.fid].f;
             && |g.log| == |f.log| + 1 && g.retired == f.retired
             && t == SetPc(SetFile(s, s.procs[p].pc.fid, g, false), p, pc').(pubs := s.pubs + [Pub(s.procs[p].pc.fid, |f.log|)])
    ensures ChanInv(t)
  {
    hide SysInv, PubsInv, Heads, HandleInv, FilesInv, Placed;
    var fid := s.procs[p].pc.fid;
    PostPlaces(s, t, p, g, pc');
    PostedPubs(s.files, t.files, s.pubs, t.pubs, s.orphans, s.procs[p].pc, fid);
    OwnerPlaces(s, t, p);
    forall j | 0 <= j < |t.readers|
      ensures HandleInv(t.files, t.pubs, t.orphans, t.readers[j])
    {
      PostedHandle(s.files, t.files, s.pubs, t.pubs, s.orphans, fid, s.readers[j]);
    }
  }

  lemma PostPlaces(s: Sys, t: Sys, p: nat, g: File, pc': PPc)
    requires SysInv(s) && InPlace(s, p) && s.procs[p].pc.Write? && s.procs[p].pc.fid < |s.files| && pc'.Write?
    requires var f := s.files[s.procs[p].pc.fid].f;
             && |g.log| == |f.log| + 1 && g.retired == f.retired
             && t == SetPc(SetFile(s, s.procs[p].pc.fid, g, false), p, pc').(pubs := s.pubs + [Pub(s.procs[p].pc.fid, |f.log|)])
    ensures var fid := s.procs[p].pc.fid;
            && s.dataPath == Some(fid) && fid !in s.orphans && Posted(s.files, t.files, s.pubs, t.pubs, fid)
            && Placed(s.files, Some(fid), s.orphans, s.procs[p].pc) && Placed(t.files, t.dataPath, t.orphans, t.procs[p].pc)
            && LockInv(s)
  {
    hide FileOk, LockInv, OwnerInv, ReadersInv;
    var fid := s.procs[p].pc.fid;
    PathFile(s, fid);
    assert s.dataPath == Some(fid) && Exists(s.files, fid);
    assert forall x: nat :: Exists(t.files, x) <==> Exists(s.files, x);
  }

  lemma PathFile(s: Sys, fid: nat)
    requires SysInv(s) && s.dataPath == Some(fid)
    ensures Exists(s.files, fid)
  {
    hide SysInv;
    PathExists(s);
  }

  lemma PublishChannel(s: Sys, p: nat, a: WAct)
    requires SysInv(s) && ChanInv(s) && p < |s.procs|
    ensures ChanInv(PublishStep(s, p, a))
  {
    hide SysInv, ChanInv, InPlace, Settles, WFile, WHandle, WEnabled;
    var pc := s.procs[p].pc;
    if pc.Write? && pc.fid < |s.files| && WEnabled(s.files[pc.fid].f, pc.w, a) && (a.Stamp? ==> s.clock <= a.t) {
      PlacedOwner(s, p);
      var f := s.files[pc.fid].f;
      LogAfter(f, pc.w, a);
      RetiredAfter(f, pc.w, a);
      var pc' := Write(pc.ino, pc.fid, WHandle(f, pc.w, a), pc.from);
      if Publishes(pc.w, a) {
        PostChannel(s, PublishStep(s, p, a), p, WFile(f, pc.w, a), pc');
      } else {
        StoreSettles(s, PublishStep(s, p, a), p, WFile(f, pc.w, a), RingWriter.Wakes(pc.w, a), pc');
        Settled(s, PublishStep(s, p, a), p);
      }
    }
  }

  lemma OutsideChannel(s: Sys, t: Sys, p: nat)
    requires SysInv(s) && ChanInv(s) && p < |s.procs| && Section(s.procs[p].pc).None?
    requires t.files == s.files && t.dataPath == s.dataPath && t.orphans == s.orphans && t.pubs == s.pubs
    requires t.readers == s.readers && |t.procs| == |s.procs| && t.procs == s.procs[p := t.procs[p]]
    requires Section(t.procs[p].pc).Some? ==>
               && s.procs[p].pc.LockVerify? && s.lockPath == Some(s.procs[p].pc.ino)
               && (t.procs[p].pc.DataOpen? || t.procs[p].pc.UnlinkOpen?)
    ensures ChanInv(t)
  {
    hide FilesInv, Placed, ReadersInv;
    OutsiderPlaces(s, t, p);
  }

  lemma LockShape(s: Sys, p: nat)
    requires p < |s.procs| && Section(s.procs[p].pc).None?
    ensures var t := LockStep(s, p);
            && t.files == s.files && t.dataPath == s.dataPath && t.orphans == s.orphans && t.pubs == s.pubs
            && t.readers == s.readers && |t.procs| == |s.procs| && t.procs == s.procs[p := t.procs[p]]
            && (Section(t.procs[p].pc).Some? ==>
                  && s.procs[p].pc.LockVerify? && s.lockPath == Some(s.procs[p].pc.ino)
                  && (t.procs[p].pc.DataOpen? || t.procs[p].pc.UnlinkOpen?))
  {
    assert s.procs[p := s.procs[p]] == s.procs;
  }

  lemma OutsiderChannel(s: Sys, a: Act)
    requires SysInv(s) && ChanInv(s)
    requires a.Start? || a.Advance? || a.Close? || a.Fail? || a.MapFail? || a.Crash?
    requires a.p < |s.procs| && Section(s.procs[a.p].pc).None?
    ensures ChanInv(Apply(s, a))
  {
    hide SysInv, ChanInv, LockStep, Crashed, UnlinkUnmapped;
    var t := Apply(s, a);
    if a.Crash? { CrashShape(s, a.p); }
    if a.Advance? { LockShape(s, a.p); }
    if t != s { OutsideChannel(s, t, a.p); }
  }

  lemma OwnerChannel(s: Sys, p: nat, random: u32)
    requires SysInv(s) && ChanInv(s) && InPlace(s, p) && random != 0
    ensures ChanInv(Apply(s, Advance(p, random)))
  {
    hide SysInv, ChanInv, Settles, OpenStep, UnlinkStep, FilesInv, Placed;
    AdvanceOk(s, p);
    if s.procs[p].goal.OpenWriter? { OpenPlaces(s, p, random); } else { UnlinkPlaces(s, p); }
    Settled(s, Apply(s, Advance(p, random)), p);
  }

  lemma ProcessChannel(s: Sys, a: Act)
    requires SysInv(s) && ChanInv(s)
    requires a.Start? || a.Advance? || a.Close? || a.Fail? || a.MapFail? || a.Crash?
    requires a.p < |s.procs|
    ensures ChanInv(Apply(s, a))
  {
    hide SysInv, ChanInv, InPlace, Settles, LockStep, OpenStep, UnlinkStep, UnlinkUnmapped, Crashed;
    var p := a.p;
    if Section(s.procs[p].pc).None? {
      OutsiderChannel(s, a);
    } else {
      PlacedOwner(s, p);
      match a
      case Advance(_, random) => if random != 0 { OwnerChannel(s, p, random); }
      case Crash(_) =>
        CrashPlaces(s, p);
        Settled(s, Crashed(s, p), p);
      case MapFail(_) =>
        if s.procs[p].pc.UnlinkData? {
          UnlinkDataPlaces(s, p);
          Settled(s, UnlinkUnmapped(s, p), p);
        }
      case Close(_) => LeaveChannel(s, a);
      case Fail(_) => LeaveChannel(s, a);
      case Start(_, _) =>
    }
  }

  lemma LeaveChannel(s: Sys, a: Act)
    requires SysInv(s) && ChanInv(s) && (a.Close? || a.Fail?) && a.p < |s.procs| && InPlace(s, a.p)
    ensures ChanInv(Apply(s, a))
  {
    hide SysInv, ChanInv, InPlace, Settles;
    var p := a.p;
    var t := Apply(s, a);
    if t != s {
      MovePlaces(s, p, t.procs[p].pc);
      Settled(s, t, p);
    }
  }

  lemma AdvanceOk(s: Sys, p: nat)
    requires SysInv(s) && p < |s.procs|
    ensures s.procs[p].goal.OpenWriter? ==> OptsValid(s.procs[p].goal.o)
  {}

  // ---- readers ------------------------------------------------------------------------------------------

  lemma NewestPath(s: Sys)
    requires ChanInv(s)
    ensures forall fid: nat :: Exists(s.files, fid) && s.dataPath.Some? ==> fid <= s.dataPath.value
  {
    hide HandlesInv;
    if !NoOwner(s) {
      var p :| 0 <= p < |s.procs| && Section(s.procs[p].pc).Some?;
      assert Placed(s.files, s.dataPath, s.orphans, s.procs[p].pc);
    }
  }

  /** A reader's step changes nothing but the reader. */
  lemma OneHandle(s: Sys, j: nat, rp: RProc)
    requires ChanInv(s) && j < |s.readers| && HandleInv(s.files, s.pubs, s.orphans, rp)
    ensures ChanInv(SetReader(s, j, rp))
  {
    hide HandleInv, Placed, Heads, PubsInv;
    var t := SetReader(s, j, rp);
    assert NoOwner(t) ==> NoOwner(s);
  }

  lemma LoadChannel(s: Sys, j: nat)
    requires SysInv(s) && ChanInv(s) && j < |s.readers|
    ensures ChanInv(LoadStep(s, j))
  {
    NewestPath(s);
    PathExists(s);
    LoadHandle(s, j);
    LoadsOne(s, j);
    hide LoadStep;
    OneHandle(s, j, LoadStep(s, j).readers[j]);
  }

  lemma LoadsOne(s: Sys, j: nat)
    requires j < |s.readers|
    ensures |LoadStep(s, j).readers| == |s.readers| && LoadStep(s, j) == SetReader(s, j, LoadStep(s, j).readers[j])
  {
    assert s.readers[j := s.readers[j]] == s.readers;
  }

  lemma CallChannel(s: Sys, j: nat, op: Op)
    requires SysInv(s) && ChanInv(s) && j < |s.readers|
    ensures ChanInv(Apply(s, Call(j, op)))
  {
    hide PubsInv, Heads, OwnerPlaced, HandleInv, CallInv;
    assert HandleInv(s.files, s.pubs, s.orphans, s.readers[j]);
    CallBegins(s);
    var rp := BeginCall(s, s.readers[j]).(r := s.readers[j].r.(op := op));
    BegunHandle(s, s.readers[j], rp);
    if s.readers[j].pc.Resting? { OneHandle(s, j, rp); }
  }

  lemma BegunHandle(s: Sys, rp: RProc, rp': RProc)
    requires HandleInv(s.files, s.pubs, s.orphans, rp) && rp' == BeginCall(s, rp).(r := rp'.r)
    requires CallInv(s.files, s.pubs, s.orphans, EntryOf(s))
    ensures HandleInv(s.files, s.pubs, s.orphans, rp')
  {
    hide CallInv, ReturnInv, Retired;
  }

  /** A reader moves within its call, or begins one that reads no value. */
  lemma StirChannel(s: Sys, j: nat, rp: RProc)
    requires ChanInv(s) && j < |s.readers|
    requires rp.at == s.readers[j].at && rp.results == s.readers[j].results && rp.att == s.readers[j].att
    requires rp.pc.InRing? ==> s.readers[j].pc.InRing? && rp.r.first == s.readers[j].r.first
    ensures ChanInv(SetReader(s, j, rp))
  {
    hide CallInv, ReturnInv, PubsInv, Heads, OwnerPlaced;
    assert HandleInv(s.files, s.pubs, s.orphans, s.readers[j]);
    OneHandle(s, j, rp);
  }

  lemma ReaderChannel(s: Sys, a: Act)
    requires ChanInv(s) && (a.Describe? || a.WriterAlive? || a.Deadline? || a.Slice?) && a.j < |s.readers|
    ensures ChanInv(Apply(s, a))
  {
    hide ChanInv;
    var t := Apply(s, a);
    if t != s { StirChannel(s, a.j, t.readers[a.j]); }
  }

  /** Every action keeps the order of the channel. */
  lemma ChannelStep(s: Sys, a: Act)
    requires SysInv(s) && ChanInv(s)
    ensures ChanInv(Apply(s, a))
  {
    hide SysInv, ChanInv;
    match a
    case Publish(p, wa) => if p < |s.procs| { PublishChannel(s, p, wa); }
    case Load(j) => if j < |s.readers| { LoadChannel(s, j); }
    case Call(j, op) => if j < |s.readers| { CallChannel(s, j, op); }
    case Describe(_) => if a.j < |s.readers| { ReaderChannel(s, a); }
    case WriterAlive(_) => if a.j < |s.readers| { ReaderChannel(s, a); }
    case Deadline(_) => if a.j < |s.readers| { ReaderChannel(s, a); }
    case Slice(_) => if a.j < |s.readers| { ReaderChannel(s, a); }
    case _ => if a.p < |s.procs| { ProcessChannel(s, a); }
  }

  lemma {:induction false} ChannelRun(s: Sys, acts: seq<Act>)
    requires SysInv(s) && ChanInv(s)
    ensures SysInv(Run(s, acts)) && ChanInv(Run(s, acts))
    decreases |acts|
  {
    hide SysInv, ChanInv;
    if acts != [] {
      StepSafe(s, acts[0]);
      ChannelStep(s, acts[0]);
      ChannelRun(Apply(s, acts[0]), acts[1..]);
    }
  }

  lemma InitOrdered(np: nat, nr: nat)
    ensures ChanInv(Init(np, nr))
  {
    hide PubsInv, Heads, Placed, HandleInv;
    var s := Init(np, nr);
    NoFiles(s.files, s.pubs, s.orphans);
    forall j | 0 <= j < |s.readers|
      ensures HandleInv(s.files, s.pubs, s.orphans, s.readers[j])
    {
      NewHandleInv(s.readers[j]);
    }
    forall p | 0 <= p < |s.procs|
      ensures Section(s.procs[p].pc).None?
    {}
  }

  lemma NewHandleInv(rp: RProc)
    requires rp.at == Entry({}, {}, 0, []) && rp.results == [] && rp.pc.Resting?
    ensures HandleInv([], [], {}, rp)
  {}

  lemma NoFiles(fs: seq<Obj>, pubs: seq<Pub>, orphans: set<nat>)
    requires fs == [] && pubs == [] && orphans == {}
    ensures PubsInv(fs, pubs) && Heads(fs, pubs, orphans) && Placed(fs, None, orphans, Out)
  {
    assert forall fid: nat :: !Exists(fs, fid);
  }

  /** The order of the channel in every reachable state. */
  lemma AllRunsOrdered(np: nat, nr: nat, acts: seq<Act>)
    ensures SysInv(Run(Init(np, nr), acts)) && ChanInv(Run(Init(np, nr), acts))
  {
    InitSafe(np, nr);
    InitOrdered(np, nr);
    hide SysInv, ChanInv, Init;
    ChannelRun(Init(np, nr), acts);
  }

  // ---- what it means for a result -----------------------------------------------------------------------

  /** Publish number `b - 1` of the file was the channel's latest when it had `h` publishes. */
  predicate LatestAt(pubs: seq<Pub>, h: nat, fid: nat, b: nat) {
    0 < h <= |pubs| && pubs[h - 1].fid == fid && pubs[h - 1].k + 1 == b
  }

  /** At a moment of the call, the result was the channel's latest publish. */
  ghost predicate LatestDuring(pubs: seq<Pub>, res: Result) {
    exists h: nat :: res.at.pubs <= h <= res.pubs && LatestAt(pubs, h, res.fid, res.base)
  }

  /** A value is the channel's latest at a moment of the call exactly if its file was not overtaken before the call. */
  lemma LatestExactly(pubs: seq<Pub>, orphans: set<nat>, res: Result)
    requires ReturnInv(pubs, orphans, res) && Counts(res.o)
    ensures LatestDuring(pubs, res) <==> !Overtaken(pubs, res.at, res.fid)
  {
    if !Overtaken(pubs, res.at, res.fid) {
      var x :| 0 <= x < res.pubs && pubs[..res.pubs][x] == Pub(res.fid, res.base - 1);
      assert LatestAt(pubs, x + 1, res.fid, res.base);
    }
  }
}
