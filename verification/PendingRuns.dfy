/**
 The methods of a Pending object are runs of the publication machine, so what holds of every run holds
 of them.
 */
module PendingRuns {
  import opened Wrappers
  import opened Disk
  import opened Publication
  import opened PublicationSafety
  import opened PublicationRuns
  import opened PublicationTheorems
  import PendingFile
  import LockTable

  // The schedule goes on from `past` with moves of p alone, all of them allowed.
  ghost predicate Extends(i: State, past: Schedule, p: Pid, whole: Schedule) {
    past <= whole && WellBehaved(i, whole) && forall k :: |past| <= k < |whole| ==> whole[k].0 == p
  }

  ghost predicate IsRun(i: State, past: Schedule, p: Pid, t: State) {
    exists whole: Schedule :: Extends(i, past, p, whole) && Run(i, whole) == t
  }

  lemma OneMore(i: State, past: Schedule, p: Pid, t: State, a: Action)
    requires IsRun(i, past, p, t) && Allowed(t, p, a)
    ensures IsRun(i, past, p, Next(t, p, a))
  {
    var whole: Schedule :| Extends(i, past, p, whole) && Run(i, whole) == t;
    var more := whole + [(p, a)];
    assert more[..|more| - 1] == whole;
    assert Extends(i, past, p, more) && Run(i, more) == Next(t, p, a);
  }

  /** What a method of the object does to the directory, the locks and the history, in the middle of any
      run, continues that run by moves of its goroutine alone that a well-behaved caller may make. */
  lemma MethodsAreRuns(i: State, past: Schedule, p: Pid, t: State)
    requires WellBehaved(i, past) && PendingFile.Reaches(Run(i, past), p, t)
    ensures IsRun(i, past, p, t)
  {
    var states := iset u: State | IsRun(i, past, p, u);
    assert Extends(i, past, p, past);
    forall u: State, a: Action | u in states && Allowed(u, p, a) ensures Next(u, p, a) in states {
      OneMore(i, past, p, u, a);
    }
    assert PendingFile.Closed(states, p);
  }

  // ---- The other Pendings ----------------------------------------------------------------

  // Every other Pending, and what its goroutine does in the lock table, is as it was.
  ghost predicate OthersStand(s: State, p: Pid, t: State) {
    forall o: Pid :: o != p ==>
      && (o in t.pend <==> o in s.pend) && (o in s.pend ==> t.pend[o] == s.pend[o])
      && LockTable.PcOf(t.lk, o) == LockTable.PcOf(s.lk, o)
  }

  lemma MoveAlone(s: State, p: Pid, a: Action)
    requires Inv(s) && Allowed(s, p, a)
    ensures OthersStand(s, p, Next(s, p, a))
  {
    if p in s.pend { StepSound(s, p, a); } else if a.Create? { BirthSound(s, p, a.path); }
  }

  lemma {:induction false} ExtensionAlone(i: State, past: Schedule, p: Pid, whole: Schedule)
    requires Init(i) && Extends(i, past, p, whole)
    ensures OthersStand(Run(i, past), p, Run(i, whole))
    decreases |whole|
  {
    if whole != past {
      var before := whole[..|whole| - 1];
      ExtensionAlone(i, past, p, before);
      RunKeeps(i, before);
      MoveAlone(Run(i, before), p, whole[|before|].1);
    }
  }

  // What a goroutine adds to the history is its own.
  ghost predicate LogsOwn(s: State, p: Pid, t: State) {
    s.log <= t.log && forall k :: |s.log| <= k < |t.log| ==> t.log[k].owner == p
  }

  lemma MoveLogsOwn(s: State, p: Pid, a: Action)
    requires Inv(s) && Allowed(s, p, a)
    ensures LogsOwn(s, p, Next(s, p, a))
  {
    if p in s.pend { StepSound(s, p, a); }
  }

  lemma {:induction false} ExtensionLogsOwn(i: State, past: Schedule, p: Pid, whole: Schedule)
    requires Init(i) && Extends(i, past, p, whole)
    ensures LogsOwn(Run(i, past), p, Run(i, whole))
    decreases |whole|
  {
    if whole != past {
      var before := whole[..|whole| - 1];
      ExtensionLogsOwn(i, past, p, before);
      RunKeeps(i, before);
      MoveLogsOwn(Run(i, before), p, whole[|before|].1);
    }
  }

  // ---- Write -----------------------------------------------------------------------------

  ghost predicate AllClean(s: State) {
    forall p <- s.pend :: PendingFile.Clean(s, p)
  }

  /** When every call is over, a goroutine finds every lock free. */
  lemma CleanCanLock(i: State, past: Schedule, p: Pid, path: string)
    requires Init(i) && WellBehaved(i, past) && AllClean(Run(i, past))
    ensures PendingFile.CanLock(Run(i, past).lk, p, path)
  {
    RunKeeps(i, past);
    var s := Run(i, past);
    forall o: Pid ensures LockTable.PcOf(s.lk, o).Idle? {
      if o in s.pend { assert PendingFile.Clean(s, o) && PendingInv(s, o); }
    }
    LockTable.IdleMeansEmpty(s.lk);
  }

  // A destination whose lock was free before a call of p that gave it back is settled after it.
  lemma SettledAfter(i: State, past: Schedule, p: Pid, whole: Schedule, path: string)
    requires Init(i) && WellBehaved(i, past) && Extends(i, past, p, whole)
    requires PendingFile.Free(Run(i, past).lk, path) && LockTable.PcOf(Run(i, whole).lk, p).Idle?
    ensures Visible(Run(i, whole), path) == Settled(Run(i, whole).log, path, i.orig)
  {
    RunKeeps(i, past);
    RunKeeps(i, whole);
    ExtensionAlone(i, past, p, whole);
    forall o: Pid ensures !Holds(Run(i, whole).lk, o, path) {
      LockFreeUnheld(Run(i, past).lk, path, o);
    }
  }

  // The directory as if only committed publications had ever been made.
  ghost predicate OnlyCommits(i: State, t: State) {
    && (forall n <- t.fs.dir :: n.Public?)
    && forall path: string :: Visible(t, path) == LastCommitted(t.log, path, i.orig)
  }

  lemma CleanAfter(i: State, past: Schedule, p: Pid, whole: Schedule)
    requires Init(i) && Extends(i, past, p, whole)
    requires AllClean(Run(i, past)) && (p in Run(i, whole).pend ==> PendingFile.Clean(Run(i, whole), p))
    ensures AllClean(Run(i, whole)) && OnlyCommits(i, Run(i, whole))
  {
    ExtensionAlone(i, past, p, whole);
    var t := Run(i, whole);
    forall o <- t.pend ensures PendingFile.Clean(t, o) { assert o != p ==> PendingFile.Clean(Run(i, past), o); }
    NothingLeftBehind(i, whole);
  }

  // The call has left nothing: neither in the history nor in the directory.
  ghost predicate WithoutTrace(s: State, p: Pid, t: State) {
    t.log == s.log && forall n <- t.fs.dir :: n.Private? ==> n.owner != p
  }

  lemma TracelessAfter(i: State, past: Schedule, p: Pid, whole: Schedule)
    requires Init(i) && Extends(i, past, p, whole)
    requires PendingFile.Clean(Run(i, whole), p) && !Run(i, whole).pend[p].committed
    ensures WithoutTrace(Run(i, past), p, Run(i, whole))
  {
    var s, t := Run(i, past), Run(i, whole);
    RolledBackLeavesNoTrace(i, whole, p);
    ExtensionLogsOwn(i, past, p, whole);
    if |s.log| < |t.log| { IsEvent(t.log, |s.log|); }
  }

  lemma IsEvent(log: seq<Event>, k: nat)
    requires k < |log|
    ensures log[k] in log
  {
  }

  /** What a whole call of p does to a run, whether it succeeds or fails: the other Pendings are left alone
      and that of p is finished; if it is clean, it is committed or has left no trace; and if all Pendings
      were clean, nothing but committed publications is in the directory. */
  ghost predicate Concluded(i: State, s: State, p: Pid, t: State) {
    && OthersStand(s, p, t)
    && (p in t.pend ==> Finished(t.pend[p]))
    && (p in t.pend && PendingFile.Clean(t, p) && !t.pend[p].committed ==> WithoutTrace(s, p, t))
    && (AllClean(s) && (p in t.pend ==> PendingFile.Clean(t, p)) ==> AllClean(t) && OnlyCommits(i, t))
  }

  lemma Concludes(i: State, past: Schedule, p: Pid, whole: Schedule)
    requires Init(i) && Extends(i, past, p, whole)
    requires p in Run(i, whole).pend ==> Finished(Run(i, whole).pend[p])
    ensures Concluded(i, Run(i, past), p, Run(i, whole))
  {
    var s, t := Run(i, past), Run(i, whole);
    ExtensionAlone(i, past, p, whole);
    if p in t.pend && PendingFile.Clean(t, p) && !t.pend[p].committed { TracelessAfter(i, past, p, whole); }
    if AllClean(s) && (p in t.pend ==> PendingFile.Clean(t, p)) { CleanAfter(i, past, p, whole); }
  }

  // The schedule of a call that p has made on a run.
  lemma CallIsRun(i: State, past: Schedule, p: Pid, t: State, path: string) returns (whole: Schedule)
    requires Init(i) && WellBehaved(i, past) && PendingFile.Reaches(Run(i, past), p, t)
    requires PendingFile.Free(Run(i, past).lk, path) && LockTable.PcOf(t.lk, p).Idle?
    requires p in t.pend ==> Finished(t.pend[p])
    ensures Extends(i, past, p, whole) && Run(i, whole) == t
    ensures Concluded(i, Run(i, past), p, t)
    ensures Visible(t, path) == Settled(t.log, path, i.orig)
  {
    MethodsAreRuns(i, past, p, t);
    whole :| Extends(i, past, p, whole) && Run(i, whole) == t;
    Concludes(i, past, p, whole);
    SettledAfter(i, past, p, whole, path);
  }

  /**
   Write in the middle of any run, while other Pendings are published or inside their calls, whether it
   succeeds or fails.  On success the last publication in the history of the destination has all the
   bytes.
   */
  method WriteInRun(
    disk: PendingFile.Directory, owner: Pid, destination: string, chunks: seq<Bytes>, fails: bool,
    ghost i: State, ghost past: Schedule)
    returns (ok: bool, ghost whole: Schedule)
    requires Init(i) && WellBehaved(i, past) && disk.s == Run(i, past) && disk.s.fs == disk.fs
    requires owner !in disk.s.pend && PendingFile.CanLock(disk.s.lk, owner, destination)
    modifies disk
    ensures Extends(i, past, owner, whole) && disk.s == Run(i, whole) && disk.s.fs == disk.fs
    ensures Concluded(i, old(disk.s), owner, disk.s)
    ensures Content(disk.fs, Public(destination)) == Settled(disk.s.log, destination, i.orig)
    ensures ok <==> !fails && destination != "" && disk.faults == old(disk.faults)
    ensures ok ==>
      && Settled(disk.s.log, destination, i.orig) == Some(PendingFile.Concat(chunks))
      && PendingFile.Clean(disk.s, owner)
  {
    ok := PendingFile.WriteFile(disk, owner, destination, chunks, fails);
    whole := CallIsRun(i, past, owner, disk.s, destination);
  }

  /** WriteIfAbsent likewise: where it creates the file, or fails to take it back, the last publication in
      the history of the destination has all the bytes; otherwise the destination is as it was. */
  method WriteIfAbsentInRun(
    disk: PendingFile.Directory, owner: Pid, destination: string, chunks: seq<Bytes>, fails: bool,
    ghost i: State, ghost past: Schedule)
    returns (created: bool, ok: bool, undone: bool, ghost whole: Schedule)
    requires Init(i) && WellBehaved(i, past) && disk.s == Run(i, past) && disk.s.fs == disk.fs
    requires owner !in disk.s.pend && PendingFile.CanLock(disk.s.lk, owner, destination)
    modifies disk
    ensures Extends(i, past, owner, whole) && disk.s == Run(i, whole) && disk.s.fs == disk.fs
    ensures Concluded(i, old(disk.s), owner, disk.s)
    ensures Content(disk.fs, Public(destination)) == Settled(disk.s.log, destination, i.orig)
    ensures created || !undone ==>
      && Settled(disk.s.log, destination, i.orig) == Some(PendingFile.Concat(chunks))
      && Public(destination) !in old(disk.fs).dir
    ensures !created && undone ==>
      PendingFile.Entry(disk.fs, Public(destination)) == PendingFile.Entry(old(disk.fs), Public(destination))
    ensures ok ==> PendingFile.Clean(disk.s, owner)
    ensures ok <==>
      !fails && destination != "" && disk.faults == old(disk.faults) && disk.refusals == old(disk.refusals)
    ensures created <==> ok && Public(destination) !in old(disk.fs).dir
  {
    created, ok, undone := PendingFile.WriteFileIfAbsent(disk, owner, destination, chunks, fails);
    whole := CallIsRun(i, past, owner, disk.s, destination);
  }
}
