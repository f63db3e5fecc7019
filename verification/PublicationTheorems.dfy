/**
 What readers of a directory, and callers that publish to it, can rely on in every run.
 */
module PublicationTheorems {
  import opened Wrappers
  import opened Disk
  import opened Publication
  import opened PublicationSafety
  import opened PublicationRuns
  import LockTable

  // No goroutine has locked the mutex of the destination.
  predicate LockFree(lk: LockTable.State, path: string) {
    path in lk.entries && lk.entries[path] < |lk.heap| ==> lk.heap[lk.entries[path]].holder.None?
  }

  lemma LockFreeUnheld(lk: LockTable.State, path: string, p: Pid)
    requires LockTable.Inv(lk) && LockFree(lk, path)
    ensures !Holds(lk, p, path)
  {
    var pc := LockTable.PcOf(lk, p);
    assert LockTable.Known(lk, pc);
    assert pc.Holding? ==> LockTable.Owns(pc, pc.e);
  }

  // ---- Serialisability -----------------------------------------------------------------

  /** Whenever the lock of a destination is free, the destination shows the last publication in its
      history, or the original file or absence. */
  lemma Serialisable(s: State, moves: Schedule, path: string)
    requires Init(s) && WellBehaved(s, moves)
    requires LockFree(Run(s, moves).lk, path)
    ensures Visible(Run(s, moves), path) == Settled(Run(s, moves).log, path, s.orig)
  {
    RunKeeps(s, moves);
    forall p: Pid ensures !Holds(Run(s, moves).lk, p, path) { LockFreeUnheld(Run(s, moves).lk, path, p); }
  }

  // The last entry of a destination in the history.
  function LastEvent(log: seq<Event>, path: string): Option<Event> {
    if log == [] then None
    else if log[|log| - 1].path == path then Some(log[|log| - 1])
    else LastEvent(log[..|log| - 1], path)
  }

  lemma {:induction false} SettledByLast(log: seq<Event>, path: string, orig: map<string, Bytes>)
    ensures LastEvent(log, path).Some? ==> Settled(log, path, orig) == Some(LastEvent(log, path).value.bytes)
    ensures LastEvent(log, path).None? || LastEvent(log, path).value.Committed? ==>
              Settled(log, path, orig) == LastCommitted(log, path, orig)
  {
    if log != [] && log[|log| - 1].path != path { SettledByLast(log[..|log| - 1], path, orig); }
    if log != [] && LastEvent(log, path).None? { NeverInLog(log, path, orig); }
  }

  lemma {:induction false} NeverInLog(log: seq<Event>, path: string, orig: map<string, Bytes>)
    requires LastEvent(log, path).None?
    ensures Settled(log, path, orig) == LastCommitted(log, path, orig)
  {
    if log != [] { NeverInLog(log[..|log| - 1], path, orig); }
  }

  /** A free destination shows the last committed publication exactly when the last thing that happened
      to it was not a failed undo, or that undo left the same bytes. */
  lemma CommittedUnlessStranded(s: State, moves: Schedule, path: string)
    requires Init(s) && WellBehaved(s, moves)
    requires LockFree(Run(s, moves).lk, path)
    ensures var log := Run(s, moves).log;
            var last := LastEvent(log, path);
            Visible(Run(s, moves), path) == LastCommitted(log, path, s.orig) <==>
            (last.Some? && last.value.Stranded? ==> Some(last.value.bytes) == LastCommitted(log, path, s.orig))
  {
    Serialisable(s, moves, path);
    SettledByLast(Run(s, moves).log, path, s.orig);
  }

  // ---- Never partial -------------------------------------------------------------------

  // The inode a Pending staged, closed without error.
  predicate Complete(q: Pending) {
    q.closed && !q.closeErr
  }

  /** After every move of every run a destination shows its settled content, or all the bytes of the
      completely staged file of the one Pending that holds its lock. */
  lemma NeverPartial(s: State, moves: Schedule, path: string)
    requires Init(s) && WellBehaved(s, moves)
    ensures var t := Run(s, moves);
            || Visible(t, path) == Settled(t.log, path, s.orig)
            || (exists p :: p in t.pend && Holds(t.lk, p, path) && Complete(t.pend[p]) &&
                            Visible(t, path) == Some(Read(t.fs, Staged(p))))
  {
    RunKeeps(s, moves);
    var t := Run(s, moves);
    if p: Pid :| Holds(t.lk, p, path) {
      assert p in t.pend;
      HolderShows(t, p, path);
    }
  }

  lemma HolderShows(t: State, p: Pid, path: string)
    requires p in t.pend && PendingInv(t, p) && Holds(t.lk, p, path)
    ensures Visible(t, path) == SettledAt(t, path) ||
            (Complete(t.pend[p]) && Visible(t, path) == Some(Read(t.fs, Staged(p))))
  {
    HeldIsDest(View(t, p), p, path);
  }

  /** A move changes what a destination shows only while its goroutine holds the lock of that
      destination, and then only by changing which file the name links to: no byte of a file that a
      reader can open under a destination ever changes. */
  lemma ReadersFilesAreFrozen(s: State, moves: Schedule, p: Pid, a: Action, path: string)
    requires Init(s) && WellBehaved(s, moves + [(p, a)])
    ensures var t, t' := Run(s, moves), Run(s, moves + [(p, a)]);
            && (!Holds(t.lk, p, path) ==> Visible(t', path) == Visible(t, path))
            && (Public(path) in t.fs.dir ==>
                  Read(t'.fs, t.fs.dir[Public(path)]) == Read(t.fs, t.fs.dir[Public(path)]))
  {
    var t := Run(s, moves);
    assert (moves + [(p, a)])[..|moves + [(p, a)]| - 1] == moves;
    RunKeeps(s, moves);
    if p in t.pend {
      StepSound(t, p, a);
      FrozenByFrame(View(t, p), Step(View(t, p), p, a), p, path);
    } else if a.Create? {
      BirthSound(t, p, a.path);
      FrozenByFrame(Unborn(t, p, a.path), Birth(t, p, a.path), p, path);
    }
  }

  lemma FrozenByFrame(v: Local, l: Local, p: Pid, path: string)
    requires Frame(v, l, p)
    ensures !Holds(v.lk, p, path) ==> Content(l.fs, Public(path)) == Content(v.fs, Public(path))
    ensures Public(path) in v.fs.dir ==> Read(l.fs, v.fs.dir[Public(path)]) == Read(v.fs, v.fs.dir[Public(path)])
  {
    if !Holds(v.lk, p, path) { ContentFrame(v, l, p, Public(path)); }
  }

  // ---- What is left behind -------------------------------------------------------------

  /** Once every Pending is finished and no cleanup or restore failed, the directory holds no name that
      a Pending minted, and every destination shows its last committed publication. */
  lemma NothingLeftBehind(s: State, moves: Schedule)
    requires Init(s) && WellBehaved(s, moves)
    requires forall p :: p in Run(s, moves).pend ==>
      Finished(Run(s, moves).pend[p]) && !Run(s, moves).pend[p].messy
    ensures forall n :: n in Run(s, moves).fs.dir ==> n.Public?
    ensures forall path: string :: Visible(Run(s, moves), path) == LastCommitted(Run(s, moves).log, path, s.orig)
    ensures Run(s, moves).lk.entries == map[]
  {
    RunKeeps(s, moves);
    var t := Run(s, moves);
    forall n | n in t.fs.dir && n.Private? ensures false {
      assert PendingInv(t, n.owner);
      FinishedNeedsNothing(View(t, n.owner), SettledAt(t, t.pend[n.owner].dest), n.owner, n);
    }
    forall p: Pid ensures LockTable.PcOf(t.lk, p).Idle? {
      if p in t.pend { assert PendingInv(t, p); }
    }
    AllIdleEmpty(t.lk);
    forall path: string ensures Visible(t, path) == LastCommitted(t.log, path, s.orig) {
      Serialisable(s, moves, path);
      forall e | e in t.log ensures e.Committed? { assert e.owner in t.pend && PendingInv(t, e.owner); }
      OnlyCommitted(t.log, path, s.orig);
    }
  }

  lemma FinishedNeedsNothing(v: Local, settled: Option<Bytes>, p: Pid, n: Name)
    requires LocalInv(v, settled, p) && Finished(v.q) && !v.q.messy
    ensures !(n in v.fs.dir && n.Private? && n.owner == p)
  {
  }

  lemma AllIdleEmpty(lk: LockTable.State)
    requires LockTable.Inv(lk) && forall p: Pid :: LockTable.PcOf(lk, p).Idle?
    ensures lk.entries == map[]
  {
    LockTable.IdleMeansEmpty(lk);
  }

  lemma {:induction false} OnlyCommitted(log: seq<Event>, path: string, orig: map<string, Bytes>)
    requires forall e :: e in log ==> e.Committed?
    ensures Settled(log, path, orig) == LastCommitted(log, path, orig)
  {
    if log != [] { OnlyCommitted(log[..|log| - 1], path, orig); }
  }

  /** A Pending that was rolled back without a failure leaves no trace: nothing of it is in the history
      of any destination, and none of the names it minted is in the directory. */
  lemma RolledBackLeavesNoTrace(s: State, moves: Schedule, p: Pid)
    requires Init(s) && WellBehaved(s, moves)
    requires p in Run(s, moves).pend
    requires Finished(Run(s, moves).pend[p]) && !Run(s, moves).pend[p].committed && !Run(s, moves).pend[p].messy
    ensures forall e :: e in Run(s, moves).log ==> e.owner != p
    ensures forall n :: n in Run(s, moves).fs.dir && n.Private? ==> n.owner != p
  {
    RunKeeps(s, moves);
    var t := Run(s, moves);
    assert PendingInv(t, p);
    forall n | n in t.fs.dir && n.Private? && n.owner == p ensures false {
      FinishedNeedsNothing(View(t, p), SettledAt(t, t.pend[p].dest), p, n);
    }
  }

  /** A published Pending can still be undone: whatever it replaced is under its backup name, or under
      the exchanged name, or there was nothing. */
  lemma PredecessorIsKept(s: State, moves: Schedule, p: Pid)
    requires Init(s) && WellBehaved(s, moves)
    requires p in Run(s, moves).pend && Run(s, moves).pend[p].pc.Idle? && Live(Run(s, moves).pend[p])
    ensures var t := Run(s, moves); var q := t.pend[p];
            && Holds(t.lk, p, q.dest)
            && Visible(t, q.dest) == Some(Read(t.fs, Staged(p)))
            && (if q.exchanged then Content(t.fs, q.temp)
                else if q.backup.Some? then Content(t.fs, q.backup.value)
                else None) == Settled(t.log, q.dest, s.orig)
  {
    RunKeeps(s, moves);
    assert PendingInv(Run(s, moves), p);
  }
}
