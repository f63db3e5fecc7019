/**
 Runs that show why a caller must not call Rollback again once it has failed after publication.
 */
module PublicationTraps {
  import opened Wrappers
  import opened Disk
  import opened Publication
  import opened PublicationSafety
  import opened PublicationRuns
  import opened PublicationTheorems
  import opened PublicationRetries
  import LockTable

  // ---- Reachable states ----------------------------------------------------------------

  ghost predicate Reachable(start: State, s: State) {
    exists moves: Schedule :: WellBehaved(start, moves) && Run(start, moves) == s
  }

  lemma ReachableNext(start: State, s: State, p: Pid, a: Action)
    requires Reachable(start, s) && Allowed(s, p, a)
    ensures Reachable(start, Next(s, p, a))
  {
    var moves: Schedule :| WellBehaved(start, moves) && Run(start, moves) == s;
    var more := moves + [(p, a)];
    assert more[..|more| - 1] == moves;
    assert WellBehaved(start, more) && Run(start, more) == Next(s, p, a);
  }

  lemma ReachableStart(start: State)
    ensures Reachable(start, start)
  {
    var none: Schedule := [];
    assert WellBehaved(start, none) && Run(start, none) == start;
  }

  // A property of states that the moves of well-behaved callers keep.
  ghost predicate Kept(R: State -> bool) {
    forall s, p: Pid, a :: R(s) && Allowed(s, p, a) ==> R(Next(s, p, a))
  }

  // Everything but the one Pending that is moving.
  datatype Scene = Scene(rest: map<Pid, Pending>, log: seq<Event>, orig: map<string, Bytes>)

  function With(c: Scene, p: Pid, l: Local): State {
    State(l.fs, l.lk, c.rest[p := l.q], if l.event.Some? then c.log + [l.event.value] else c.log, c.orig)
  }

  predicate Polite(l: Local, a: Action) {
    l.q.abandoned && l.q.pc.Idle? ==> !a.Relocate? && !a.Commit? && !a.Rollback?
  }

  lemma Hop(R: State -> bool, c: Scene, p: Pid, l: Local, a: Action, l': Local)
    requires Kept(R) && R(With(c, p, l)) && l.event.None? && Polite(l, a) && Step(l, p, a) == l'
    ensures R(With(c, p, l'))
  {
    var s := With(c, p, l);
    assert View(s, p) == l;
    assert c.rest[p := l.q][p := l'.q] == c.rest[p := l'.q];
    assert Next(s, p, a) == With(c, p, l');
  }

  // ---- The lock of one destination, for one goroutine at a time --------------------------

  function Free(h: seq<LockTable.Entry>, pcs: map<Pid, LockTable.Pc>): LockTable.State {
    LockTable.State(None, map[], h, pcs)
  }

  function Held(h: seq<LockTable.Entry>, pcs: map<Pid, LockTable.Pc>, p: Pid): LockTable.State {
    Busy(false, h, LockTable.Entry(1, Some(p)), pcs, p, LockTable.Holding("f", |h|))
  }

  function Busy(
    locked: bool, h: seq<LockTable.Entry>, e: LockTable.Entry, pcs: map<Pid, LockTable.Pc>, p: Pid, pc: LockTable.Pc)
    : LockTable.State
  {
    LockTable.State(if locked then Some(p) else None, map["f" := |h|], h + [e], pcs[p := pc])
  }

  lemma AcquireFirst(h: seq<LockTable.Entry>, pcs: map<Pid, LockTable.Pc>, p: Pid)
    requires LockTable.PcOf(Free(h, pcs), p).Idle?
    ensures LockTable.Begin(Free(h, pcs), p, "f") == Free(h, pcs[p := LockTable.AcqTable("f")])
    ensures LockTable.Next(Free(h, pcs[p := LockTable.AcqTable("f")]), p)
      == LockTable.State(Some(p), map[], h, pcs[p := LockTable.AcqLookup("f")])
    ensures LockTable.Next(LockTable.State(Some(p), map[], h, pcs[p := LockTable.AcqLookup("f")]), p)
      == Busy(true, h, LockTable.Entry(0, None), pcs, p, LockTable.AcqRef("f", |h|))
  {
    assert pcs[p := LockTable.AcqTable("f")][p := LockTable.AcqLookup("f")] == pcs[p := LockTable.AcqLookup("f")];
    assert pcs[p := LockTable.AcqLookup("f")][p := LockTable.AcqRef("f", |h|)] == pcs[p := LockTable.AcqRef("f", |h|)];
  }

  // A statement that moves on with the table locked, the entry and the place changed.
  lemma BusyMoves(h: seq<LockTable.Entry>, e: LockTable.Entry, e': LockTable.Entry, pcs: map<Pid, LockTable.Pc>, p: Pid,
                  pc: LockTable.Pc, pc': LockTable.Pc)
    ensures Busy(true, h, e, pcs, p, pc).heap[|h| := e'] == h + [e']
    ensures Busy(true, h, e, pcs, p, pc).pcs[p := pc'] == pcs[p := pc']
  {
    assert pcs[p := pc][p := pc'] == pcs[p := pc'];
  }

  lemma AcquireRest(h: seq<LockTable.Entry>, pcs: map<Pid, LockTable.Pc>, p: Pid)
    ensures LockTable.Next(Busy(true, h, LockTable.Entry(0, None), pcs, p, LockTable.AcqRef("f", |h|)), p)
      == Busy(true, h, LockTable.Entry(1, None), pcs, p, LockTable.AcqUnlock("f", |h|))
    ensures LockTable.Next(Busy(true, h, LockTable.Entry(1, None), pcs, p, LockTable.AcqUnlock("f", |h|)), p)
      == Busy(false, h, LockTable.Entry(1, None), pcs, p, LockTable.AcqEntry("f", |h|))
    ensures LockTable.Next(Busy(false, h, LockTable.Entry(1, None), pcs, p, LockTable.AcqEntry("f", |h|)), p) ==
      Held(h, pcs, p)
  {
    var e0, e1 := LockTable.Entry(0, None), LockTable.Entry(1, None);
    BusyMoves(h, e0, e1, pcs, p, LockTable.AcqRef("f", |h|), LockTable.AcqUnlock("f", |h|));
    BusyMoves(h, e1, e1, pcs, p, LockTable.AcqUnlock("f", |h|), LockTable.AcqEntry("f", |h|));
    BusyMoves(h, e1, LockTable.Entry(1, Some(p)), pcs, p, LockTable.AcqEntry("f", |h|), LockTable.Holding("f", |h|));
  }

  lemma ReleaseFirst(h: seq<LockTable.Entry>, pcs: map<Pid, LockTable.Pc>, p: Pid)
    ensures var e := LockTable.Entry(1, Some(p));
      && LockTable.BeginRelease(Held(h, pcs, p), p) == Busy(false, h, e, pcs, p, LockTable.RelTable("f", |h|))
      && LockTable.Next(Busy(false, h, e, pcs, p, LockTable.RelTable("f", |h|)), p)
         == Busy(true, h, e, pcs, p, LockTable.RelRef("f", |h|))
      && LockTable.Next(Busy(true, h, e, pcs, p, LockTable.RelRef("f", |h|)), p)
         == Busy(true, h, LockTable.Entry(0, Some(p)), pcs, p, LockTable.RelUnlockEntry("f", |h|))
  {
    var e := LockTable.Entry(1, Some(p));
    BusyMoves(h, e, e, pcs, p, LockTable.Holding("f", |h|), LockTable.RelTable("f", |h|));
    BusyMoves(h, e, e, pcs, p, LockTable.RelTable("f", |h|), LockTable.RelRef("f", |h|));
    BusyMoves(h, e, LockTable.Entry(0, Some(p)), pcs, p, LockTable.RelRef("f", |h|),
        LockTable.RelUnlockEntry("f", |h|));
  }

  lemma ReleaseRest(h: seq<LockTable.Entry>, pcs: map<Pid, LockTable.Pc>, p: Pid)
    ensures var e, dropped := LockTable.Entry(0, None), h + [LockTable.Entry(0, None)];
      && LockTable.Next(Busy(true, h, LockTable.Entry(0, Some(p)), pcs, p, LockTable.RelUnlockEntry("f", |h|)), p)
         == Busy(true, h, e, pcs, p, LockTable.RelDrop("f", |h|))
      && LockTable.Next(Busy(true, h, e, pcs, p, LockTable.RelDrop("f", |h|)), p)
         == LockTable.State(Some(p), map[], dropped, pcs[p := LockTable.RelUnlock("f", |h|)])
      && LockTable.Next(LockTable.State(Some(p), map[], dropped, pcs[p := LockTable.RelUnlock("f", |h|)]), p)
         == Free(dropped, pcs[p := LockTable.Idle])
  {
    var e := LockTable.Entry(0, None);
    BusyMoves(h, LockTable.Entry(0, Some(p)), e, pcs, p, LockTable.RelUnlockEntry("f", |h|),
        LockTable.RelDrop("f", |h|));
    BusyMoves(h, e, e, pcs, p, LockTable.RelDrop("f", |h|), LockTable.RelUnlock("f", |h|));
    assert map["f" := |h|] - {"f"} == map[];
    assert pcs[p := LockTable.RelUnlock("f", |h|)][p := LockTable.Idle] == pcs[p := LockTable.Idle];
  }

  // The goroutine has the lock it waits for, or has given it back.
  predicate Settles(lk: LockTable.State, p: Pid, q: Pending) {
    || (q.pc.Acquiring? && LockTable.PcOf(lk, p).Holding?)
    || (q.pc.Releasing? && LockTable.PcOf(lk, p).Idle?)
  }

  function Served(q: Pending): Pending {
    q.(pc := if q.pc.Acquiring? then First(q.pc.op) else Idle)
  }

  // One statement of acquireDestinationLock or releaseDestinationLock.
  lemma LockHop(R: State -> bool, c: Scene, p: Pid, fs: Fs, q: Pending, lk: LockTable.State, lk': LockTable.State)
    requires Kept(R) && R(With(c, p, Local(fs, lk, q, None))) && LockTable.Next(lk, p) == lk'
    requires q.pc.Acquiring? || q.pc.Releasing?
    ensures R(With(c, p, Local(fs, lk', if Settles(lk', p, q) then Served(q) else q, None)))
  {
    var l := Local(fs, lk, q, None);
    Hop(R, c, p, l, Lock, LockStep(l, p));
  }

  // Three statements, of which only the last may finish.
  lemma LockHops(R: State -> bool, c: Scene, p: Pid, fs: Fs, q: Pending,
                 k0: LockTable.State, k1: LockTable.State, k2: LockTable.State, k3: LockTable.State)
    requires Kept(R) && R(With(c, p, Local(fs, k0, q, None))) && (q.pc.Acquiring? || q.pc.Releasing?)
    requires LockTable.Next(k0, p) == k1 && LockTable.Next(k1, p) == k2 && LockTable.Next(k2, p) == k3
    requires !Settles(k1, p, q) && !Settles(k2, p, q)
    ensures R(With(c, p, Local(fs, k3, if Settles(k3, p, q) then Served(q) else q, None)))
  {
    TwoHops(R, c, p, fs, q, k0, k1, k2);
    LockHop(R, c, p, fs, q, k2, k3);
  }

  lemma TwoHops(R: State -> bool, c: Scene, p: Pid, fs: Fs, q: Pending,
                k0: LockTable.State, k1: LockTable.State, k2: LockTable.State)
    requires Kept(R) && R(With(c, p, Local(fs, k0, q, None))) && (q.pc.Acquiring? || q.pc.Releasing?)
    requires LockTable.Next(k0, p) == k1 && LockTable.Next(k1, p) == k2
    requires !Settles(k1, p, q) && !Settles(k2, p, q)
    ensures R(With(c, p, Local(fs, k2, q, None)))
  {
    LockHop(R, c, p, fs, q, k0, k1);
    LockHop(R, c, p, fs, q, k1, k2);
  }

  lemma Locking(R: State -> bool, c: Scene, p: Pid, fs: Fs, q: Pending, op: Op,
                h: seq<LockTable.Entry>, pcs: map<Pid, LockTable.Pc>)
    requires Kept(R) && R(With(c, p, Local(fs, Free(h, pcs), q, None))) && LockTable.PcOf(Free(h, pcs), p).Idle?
    requires q.pc.Idle? && !q.done && !q.published && q.closed && !q.closeErr && q.dest == "f"
    ensures R(With(c, p, Local(fs, Held(h, pcs, p), q.(pc := First(op)), None)))
  {
    var waiting := q.(pc := Acquiring(op));
    var k0 := Free(h, pcs[p := LockTable.AcqTable("f")]);
    AcquireFirst(h, pcs, p);
    Hop(R, c, p, Local(fs, Free(h, pcs), q, None), Call(op), Local(fs, k0, waiting, None));
    var k1 := LockTable.State(Some(p), map[], h, pcs[p := LockTable.AcqLookup("f")]);
    LockHop(R, c, p, fs, waiting, k0, k1);
    var k2 := Busy(true, h, LockTable.Entry(0, None), pcs, p, LockTable.AcqRef("f", |h|));
    LockHop(R, c, p, fs, waiting, k1, k2);
    AcquireRest(h, pcs, p);
    LockHops(R, c, p, fs, waiting, k2, Busy(true, h, LockTable.Entry(1, None), pcs, p, LockTable.AcqUnlock("f", |h|)),
             Busy(false, h, LockTable.Entry(1, None), pcs, p, LockTable.AcqEntry("f", |h|)), Held(h, pcs, p));
  }

  lemma GivingBack(R: State -> bool, c: Scene, p: Pid, fs: Fs, q: Pending,
                   h: seq<LockTable.Entry>, pcs: map<Pid, LockTable.Pc>)
    requires Kept(R) && R(With(c, p, Local(fs, Held(h, pcs, p), q, None))) && q.pc.Unlocking?
    ensures R(With(c, p,
      Local(fs, Free(h + [LockTable.Entry(0, None)], pcs[p := LockTable.Idle]), q.(pc := Idle), None)))
  {
    var k0 := Busy(false, h, LockTable.Entry(1, Some(p)), pcs, p, LockTable.RelTable("f", |h|));
    ReleaseFirst(h, pcs, p);
    Hop(R, c, p, Local(fs, Held(h, pcs, p), q, None), Lock, Local(fs, k0, q.(pc := Releasing), None));
    Leaving(R, c, p, fs, q.(pc := Releasing), h, pcs);
  }

  lemma Leaving(R: State -> bool, c: Scene, p: Pid, fs: Fs, q: Pending,
                h: seq<LockTable.Entry>, pcs: map<Pid, LockTable.Pc>)
    requires Kept(R) && q.pc.Releasing?
    requires R(With(c, p,
      Local(fs, Busy(false, h, LockTable.Entry(1, Some(p)), pcs, p, LockTable.RelTable("f", |h|)), q, None)))
    ensures R(With(c, p,
      Local(fs, Free(h + [LockTable.Entry(0, None)], pcs[p := LockTable.Idle]), q.(pc := Idle), None)))
  {
    var e, gone, dropped := LockTable.Entry(1, Some(p)), LockTable.Entry(0, None), h + [LockTable.Entry(0, None)];
    var k0 := Busy(false, h, e, pcs, p, LockTable.RelTable("f", |h|));
    var k1 := Busy(true, h, e, pcs, p, LockTable.RelRef("f", |h|));
    var k2 := Busy(true, h, LockTable.Entry(0, Some(p)), pcs, p, LockTable.RelUnlockEntry("f", |h|));
    var k3 := Busy(true, h, gone, pcs, p, LockTable.RelDrop("f", |h|));
    ReleaseFirst(h, pcs, p);
    ReleaseRest(h, pcs, p);
    LockHops(R, c, p, fs, q, k0, k1, k2, k3);
    var k4 := LockTable.State(Some(p), map[], dropped, pcs[p := LockTable.RelUnlock("f", |h|)]);
    LockHop(R, c, p, fs, q, k3, k4);
    LockHop(R, c, p, fs, q, k4, Free(dropped, pcs[p := LockTable.Idle]));
  }

  // ---- A staged file ---------------------------------------------------------------------

  const DEST := Public("f")

  function Scratch(p: Pid): Name {
    Private(p, 0)
  }

  lemma Creating(R: State -> bool, c: Scene, p: Pid, fs: Fs, lk: LockTable.State)
    requires Kept(R) && R(State(fs, lk, c.rest, c.log, c.orig)) && p !in c.rest
    ensures R(With(c, p, Local(CreateFile(fs, Scratch(p), Staged(p)), lk, New(p, "f"), None)))
  {
    var s := State(fs, lk, c.rest, c.log, c.orig);
    assert Next(s, p, Create("f")) == With(c, p, Birth(s, p, "f"));
  }

  function Staging(fs: Fs, p: Pid, bytes: Bytes): Fs {
    Fs(fs.dir[Scratch(p) := Staged(p)], fs.data[Staged(p) := bytes])
  }

  function Ready(p: Pid): Pending {
    New(p, "f").(pc := Idle, closed := true)
  }

  // Create, one write and Close.
  lemma Stages(R: State -> bool, c: Scene, p: Pid, fs: Fs, lk: LockTable.State, bytes: Bytes)
    requires Kept(R) && R(State(fs, lk, c.rest, c.log, c.orig)) && p !in c.rest
    ensures R(With(c, p, Local(Staging(fs, p, bytes), lk, Ready(p), None)))
  {
    Creating(R, c, p, fs, lk);
    var l0 := Local(CreateFile(fs, Scratch(p), Staged(p)), lk, New(p, "f"), None);
    var l1 := Goto(l0, Idle);
    Hop(R, c, p, l0, Sys(true, 0), l1);
    assert [] + bytes == bytes;
    assert Append(l0.fs, Staged(p), bytes).data == Staging(fs, p, bytes).data;
    var l2 := l1.(fs := Staging(fs, p, bytes));
    Hop(R, c, p, l1, Write(bytes), l2);
    Hop(R, c, p, l2, Close(true), l2.(q := Ready(p)));
  }

  // The state in which the moving Pending joins the others.
  lemma Joins(c: Scene, p: Pid, l: Local)
    requires l.event.None?
    ensures With(c, p, l) == State(l.fs, l.lk, c.rest[p := l.q], c.log, c.orig)
  {
  }

  // ---- The predecessor is lost ---------------------------------------------------------------

  const OLD_BYTES: Bytes := [1]
  const NEW_BYTES: Bytes := [2]

  const START := State(Fs(map[DEST := Original(0)], map[Original(0) := OLD_BYTES]), LockTable.EMPTY, map[], [],
                       map["f" := OLD_BYTES])
  const ALONE := Scene(map[], [], START.orig)

  const STAGED_FS := Staging(START.fs, 0, NEW_BYTES)
  const SWAPPED_FS := STAGED_FS.(dir := map[DEST := Staged(0), Scratch(0) := Original(0)])

  const EXCHANGED := Ready(0).(published := true, exchanged := true)
  const ABANDONED := EXCHANGED.(retired := true, messy := true, abandoned := true, swappedBack := true)

  const RELEASED := Free([LockTable.Entry(0, None)], map[0 := LockTable.Idle])

  lemma Exchanging(R: State -> bool)
    requires Kept(R) && R(With(ALONE, 0, Local(STAGED_FS, Held([], map[], 0), Ready(0).(pc := ExSwap), None)))
    ensures R(With(ALONE, 0, Local(SWAPPED_FS, Held([], map[], 0), EXCHANGED.(pc := RbSwap), None)))
  {
    assert Swap(STAGED_FS, Scratch(0), DEST).dir == SWAPPED_FS.dir;
    var held := Held([], map[], 0);
    Hop(R, ALONE, 0, Local(STAGED_FS, held, Ready(0).(pc := ExSwap), None), Sys(true, 0),
        Local(SWAPPED_FS, held, EXCHANGED, None));
    Hop(R, ALONE, 0, Local(SWAPPED_FS, held, EXCHANGED, None), Rollback,
        Local(SWAPPED_FS, held, EXCHANGED.(pc := RbSwap), None));
  }

  // Rollback swaps back but cannot remove the staged file.
  lemma FailingRollback(R: State -> bool)
    requires Kept(R) && R(With(ALONE, 0, Local(SWAPPED_FS, Held([], map[], 0), EXCHANGED.(pc := RbSwap), None)))
    ensures R(With(ALONE, 0, Local(STAGED_FS, Held([], map[], 0), ABANDONED.(pc := Unlocking), None)))
  {
    SwappingBack(R);
    FailingToDrop(R);
  }

  lemma SwappingBack(R: State -> bool)
    requires Kept(R) && R(With(ALONE, 0, Local(SWAPPED_FS, Held([], map[], 0), EXCHANGED.(pc := RbSwap), None)))
    ensures R(With(ALONE, 0, Local(STAGED_FS, Held([], map[], 0), EXCHANGED.(pc := RbDropStaged), None)))
  {
    assert Swap(SWAPPED_FS, Scratch(0), DEST).dir == STAGED_FS.dir;
    var held := Held([], map[], 0);
    Hop(R, ALONE, 0, Local(SWAPPED_FS, held, EXCHANGED.(pc := RbSwap), None), Sys(true, 0),
        Local(STAGED_FS, held, EXCHANGED.(pc := RbDropStaged), None));
  }

  lemma FailingToDrop(R: State -> bool)
    requires Kept(R)
    requires R(With(ALONE, 0, Local(STAGED_FS, Held([], map[], 0), EXCHANGED.(pc := RbDropStaged), None)))
    ensures R(With(ALONE, 0, Local(STAGED_FS, Held([], map[], 0), ABANDONED.(pc := Unlocking), None)))
  {
    var held := Held([], map[], 0);
    Hop(R, ALONE, 0, Local(STAGED_FS, held, EXCHANGED.(pc := RbDropStaged), None), Sys(false, 0),
        Local(STAGED_FS, held, ABANDONED.(pc := Unlocking), None));
  }

  lemma ReachesAbandoned(R: State -> bool)
    requires Kept(R) && R(START)
    ensures R(With(ALONE, 0, Local(STAGED_FS, RELEASED, ABANDONED, None)))
  {
    Stages(R, ALONE, 0, START.fs, LockTable.EMPTY, NEW_BYTES);
    Locking(R, ALONE, 0, STAGED_FS, Ready(0), Exchange, [], map[]);
    Exchanging(R);
    FailingRollback(R);
    GivingBack(R, ALONE, 0, STAGED_FS, ABANDONED.(pc := Unlocking), [], map[]);
    assert [] + [LockTable.Entry(0, None)] == [LockTable.Entry(0, None)];
  }

  // Bytes no one committed are at the destination, its lock is free, and the file it held has no name.
  predicate Lost(u: State) {
    && LockFree(u.lk, "f")
    && Visible(u, "f") == Some(NEW_BYTES)
    && Publication.Settled(u.log, "f", START.orig) == Some(OLD_BYTES)
    && forall n :: n in u.fs.dir ==> u.fs.dir[n] != Original(0)
  }

  lemma RetryLoses(t: State)
    requires t == With(ALONE, 0, Local(STAGED_FS, RELEASED, ABANDONED, None))
    ensures Lost(Retried(t, 0))
  {
    var l := Local(STAGED_FS, RELEASED, ABANDONED, None);
    assert View(t, 0) == l;
    RetryExchanged(l, 0);
    RetriedState(t, 0);
    assert Remove(Swap(STAGED_FS, Scratch(0), DEST), Scratch(0)).dir == map[DEST := Staged(0)];
  }

  // A second Rollback whose moves enter nothing in the history.
  lemma RetriedState(t: State, p: Pid)
    requires p in t.pend && Resting(View(t, p), p) && CanUndo(View(t, p))
    ensures var l3 := Step(Step(Step(View(t, p), p, Rollback), p, Sys(true, 0)), p, Sys(true, 0));
      var u := Retried(t, p);
      p in u.pend && View(u, p) == l3 && u.log == t.log && u.orig == t.orig
  {
    RetryReplaces(View(t, p), p);
    Advance(t, p, Rollback);
    var t1 := Next(t, p, Rollback);
    Advance(t1, p, Sys(true, 0));
    Advance(Next(t1, p, Sys(true, 0)), p, Sys(true, 0));
  }

  /** In every reachable state where Rollback has failed on an exchanged Pending and both names are still
      there, a second Rollback that succeeds puts what the temporary name holds at the destination,
      without a lock and without a place in the history, and deletes what the destination held. */
  lemma SecondRollbackSwapsAgain(s: State, moves: Schedule, p: Pid)
    requires Init(s) && WellBehaved(s, moves)
    requires var t := Run(s, moves);
      p in t.pend && t.pend[p].abandoned && t.pend[p].exchanged && t.pend[p].pc.Idle?
      && t.pend[p].temp in t.fs.dir && Public(t.pend[p].dest) in t.fs.dir
    ensures var t, u := Run(s, moves), Retried(Run(s, moves), p); var q := t.pend[p];
      && !PublicationSafety.Holds(t.lk, p, q.dest)
      && Visible(u, q.dest) == Content(t.fs, q.temp)
      && q.temp !in u.fs.dir
      && u.log == t.log
  {
    var t := Run(s, moves);
    AbandonedRestsAt(s, moves, p);
    RetryExchanged(View(t, p), p);
    RetriedState(t, p);
  }

  lemma RunTo(start: State, s: State) returns (moves: Schedule)
    requires Reachable(start, s)
    ensures WellBehaved(start, moves) && Run(start, moves) == s
  {
    moves :| WellBehaved(start, moves) && Run(start, moves) == s;
  }

  lemma ReachableIsKept(start: State)
    ensures Kept((s: State) => Reachable(start, s))
  {
    forall s: State, p: Pid, a: Action | Reachable(start, s) && Allowed(s, p, a)
      ensures Reachable(start, Next(s, p, a))
    {
      ReachableNext(start, s, p, a);
    }
  }

  /** A second Rollback after one that only failed to remove the staged file leaves bytes at the destination
      that no one committed, with its lock free, and no name for the file it replaced. */
  lemma SecondRollbackLosesThePredecessor() returns (moves: Schedule)
    ensures Init(START) && WellBehaved(START, moves)
    ensures Lost(Retried(Run(START, moves), 0))
  {
    assert Init(START);
    var R := (s: State) => Reachable(START, s);
    ReachableIsKept(START);
    ReachableStart(START);
    ReachesAbandoned(R);
    moves := RunTo(START, With(ALONE, 0, Local(STAGED_FS, RELEASED, ABANDONED, None)));
    RetryLoses(Run(START, moves));
  }

  // ---- What another has committed is lost ------------------------------------------------------

  const BARE := State(Fs(map[], map[]), LockTable.EMPTY, map[], [], map[])
  const OPENING := Scene(map[], [], map[])

  const FIRST_FS := Staging(BARE.fs, 0, OLD_BYTES)
  const PLACED_FS := FIRST_FS.(dir := map[DEST := Staged(0)])

  // PublishIfAbsent has created the file, and Rollback has failed to remove it.
  const PLACED := Ready(0).(published := true)
  const LEFT_THERE := PLACED.(messy := true, abandoned := true, retired := true)
  const UNDO := Stranded("f", OLD_BYTES, 0)

  lemma Placing(R: State -> bool)
    requires Kept(R) && R(With(OPENING, 0, Local(FIRST_FS, Held([], map[], 0), Ready(0).(pc := AbsLink), None)))
    ensures R(With(OPENING, 0, Local(PLACED_FS, Held([], map[], 0), PLACED, None)))
  {
    var held := Held([], map[], 0);
    var linked := Link(FIRST_FS, Scratch(0), DEST);
    assert Remove(linked, Scratch(0)).dir == PLACED_FS.dir;
    Hop(R, OPENING, 0, Local(FIRST_FS, held, Ready(0).(pc := AbsLink), None), Sys(true, 0),
        Local(linked, held, Ready(0).(pc := AbsRemoveTemp), None));
    Hop(R, OPENING, 0, Local(linked, held, Ready(0).(pc := AbsRemoveTemp), None), Sys(true, 0),
        Local(PLACED_FS, held, PLACED, None));
  }

  const SEQUEL := Scene(map[0 := LEFT_THERE], [UNDO], map[])

  lemma FailingToRemove(R: State -> bool)
    requires Kept(R) && R(With(OPENING, 0, Local(PLACED_FS, Held([], map[], 0), PLACED, None)))
    ensures R(With(OPENING.(log := [UNDO]), 0,
      Local(PLACED_FS, Held([], map[], 0), LEFT_THERE.(pc := Unlocking), None)))
  {
    var held := Held([], map[], 0);
    Hop(R, OPENING, 0, Local(PLACED_FS, held, PLACED, None), Rollback,
        Local(PLACED_FS, held, PLACED.(pc := RbRemoveDest), None));
    Hop(R, OPENING, 0, Local(PLACED_FS, held, PLACED.(pc := RbRemoveDest), None), Sys(false, 0),
        Local(PLACED_FS, held, LEFT_THERE.(pc := Unlocking), Some(UNDO)));
    assert [] + [UNDO] == [UNDO];
  }

  lemma FirstLeaves(R: State -> bool)
    requires Kept(R) && R(BARE)
    ensures R(State(PLACED_FS, RELEASED, SEQUEL.rest, SEQUEL.log, SEQUEL.orig))
  {
    Stages(R, OPENING, 0, BARE.fs, LockTable.EMPTY, OLD_BYTES);
    Locking(R, OPENING, 0, FIRST_FS, Ready(0), PublishIfAbsent, [], map[]);
    Placing(R);
    FailingToRemove(R);
    GivingBack(R, OPENING.(log := [UNDO]), 0, PLACED_FS, LEFT_THERE.(pc := Unlocking), [], map[]);
    assert [] + [LockTable.Entry(0, None)] == [LockTable.Entry(0, None)];
    Joins(OPENING.(log := [UNDO]), 0, Local(PLACED_FS, RELEASED, LEFT_THERE, None));
  }

  const SECOND_FS := Staging(PLACED_FS, 1, NEW_BYTES)
  const TAKEN_FS := SECOND_FS.(dir := map[DEST := Staged(1), Scratch(1) := Staged(0)])
  const COMMITTED_FS := SECOND_FS.(dir := map[DEST := Staged(1)])

  const TAKEN := Ready(1).(published := true, exchanged := true)
  const ACCEPTED := TAKEN.(done := true, committed := true, retired := true)
  const COMMITMENT := Committed("f", NEW_BYTES, 1)

  const ENTRIES := [LockTable.Entry(0, None)]
  const RESTERS := map[0 := LockTable.Idle]

  lemma Taking(R: State -> bool)
    requires Kept(R) && R(With(SEQUEL, 1, Local(SECOND_FS, Held(ENTRIES, RESTERS, 1), Ready(1).(pc := ExSwap), None)))
    ensures R(With(SEQUEL, 1, Local(TAKEN_FS, Held(ENTRIES, RESTERS, 1), TAKEN.(pc := ComClean), None)))
  {
    var held := Held(ENTRIES, RESTERS, 1);
    assert Swap(SECOND_FS, Scratch(1), DEST).dir == TAKEN_FS.dir;
    Hop(R, SEQUEL, 1, Local(SECOND_FS, held, Ready(1).(pc := ExSwap), None), Sys(true, 0),
        Local(TAKEN_FS, held, TAKEN, None));
    Hop(R, SEQUEL, 1, Local(TAKEN_FS, held, TAKEN, None), Commit, Local(TAKEN_FS, held, TAKEN.(pc := ComClean), None));
  }

  lemma Accepting(R: State -> bool)
    requires Kept(R) && R(With(SEQUEL, 1, Local(TAKEN_FS, Held(ENTRIES, RESTERS, 1), TAKEN.(pc := ComClean), None)))
    ensures R(With(SEQUEL.(log := [UNDO, COMMITMENT]), 1,
                   Local(COMMITTED_FS, Held(ENTRIES, RESTERS, 1), ACCEPTED.(pc := Unlocking), None)))
  {
    var held := Held(ENTRIES, RESTERS, 1);
    assert Remove(TAKEN_FS, Scratch(1)).dir == COMMITTED_FS.dir;
    Hop(R, SEQUEL, 1, Local(TAKEN_FS, held, TAKEN.(pc := ComClean), None), Sys(true, 0),
        Local(COMMITTED_FS, held, ACCEPTED.(pc := Unlocking), Some(COMMITMENT)));
    assert [UNDO] + [COMMITMENT] == [UNDO, COMMITMENT];
  }

  const BOTH := Scene(map[0 := LEFT_THERE, 1 := ACCEPTED], [UNDO, COMMITMENT], map[])
  const QUIET := Free(ENTRIES + [LockTable.Entry(0, None)], RESTERS[1 := LockTable.Idle])

  lemma SecondCommits(R: State -> bool)
    requires Kept(R) && R(State(PLACED_FS, RELEASED, SEQUEL.rest, SEQUEL.log, SEQUEL.orig))
    ensures R(State(COMMITTED_FS, QUIET, BOTH.rest, BOTH.log, BOTH.orig))
  {
    Stages(R, SEQUEL, 1, PLACED_FS, RELEASED, NEW_BYTES);
    Locking(R, SEQUEL, 1, SECOND_FS, Ready(1), Exchange, ENTRIES, RESTERS);
    Taking(R);
    Accepting(R);
    GivingBack(R, SEQUEL.(log := [UNDO, COMMITMENT]), 1, COMMITTED_FS, ACCEPTED.(pc := Unlocking), ENTRIES, RESTERS);
    Joins(SEQUEL.(log := [UNDO, COMMITMENT]), 1, Local(COMMITTED_FS, QUIET, ACCEPTED, None));
    assert SEQUEL.rest[1 := ACCEPTED] == BOTH.rest;
  }

  // Pending 0 rolls back once more: the file that Pending 1 committed is gone.
  lemma RetryDeletes(t: State)
    requires t == State(COMMITTED_FS, QUIET, BOTH.rest, BOTH.log, BOTH.orig)
    ensures LockFree(t.lk, "f") && Visible(t, "f") == Some(NEW_BYTES) == LastCommitted(t.log, "f", t.orig)
    ensures Retried(t, 0).pend[0].done && Visible(Retried(t, 0), "f") == None && Retried(t, 0).log == t.log
  {
    assert View(t, 0) == Local(COMMITTED_FS, QUIET, LEFT_THERE, None);
    RetryRemove(View(t, 0), 0);
    RetriedState(t, 0);
  }

  /** A second Rollback after one that failed to remove the file it had created deletes the file that another
      Pending has committed there since, while nobody holds the lock. */
  lemma SecondRollbackDeletesACommittedFile() returns (moves: Schedule)
    ensures Init(BARE) && WellBehaved(BARE, moves)
    ensures var t := Run(BARE, moves);
      && LockFree(t.lk, "f") && Visible(t, "f") == Some(NEW_BYTES) == LastCommitted(t.log, "f", t.orig)
      && 0 in Retried(t, 0).pend && Retried(t, 0).pend[0].done
      && Visible(Retried(t, 0), "f") == None && Retried(t, 0).log == t.log
  {
    assert Init(BARE);
    var R := (s: State) => Reachable(BARE, s);
    ReachableIsKept(BARE);
    ReachableStart(BARE);
    FirstLeaves(R);
    SecondCommits(R);
    moves := RunTo(BARE, State(COMMITTED_FS, QUIET, BOTH.rest, BOTH.log, BOTH.orig));
    RetryDeletes(Run(BARE, moves));
  }
}
