/**
 What a second Rollback does once one has failed after publication, for all three ways of
 publishing.
 */
module PublicationRetries {
  import opened Wrappers
  import opened Disk
  import opened Publication
  import opened PublicationSafety
  import opened PublicationRuns
  import opened PublicationTheorems
  import LockTable

  // What a Rollback of a published Pending would put at the destination.
  function Replacement(fs: Fs, q: Pending): Option<Bytes> {
    if q.exchanged then Content(fs, q.temp) else if q.backup.Some? then Content(fs, q.backup.value) else None
  }

  // Where the history last names a Pending.
  function LastOwn(log: seq<Event>, p: Pid): (i: Option<nat>)
    ensures i.Some? ==> i.value < |log| && log[i.value].owner == p
    ensures i.Some? ==> forall j :: i.value < j < |log| ==> log[j].owner != p
  {
    if log == [] then None
    else if log[|log| - 1].owner == p then Some(|log| - 1)
    else LastOwn(log[..|log| - 1], p)
  }

  lemma LastOwnAppend(log: seq<Event>, e: Event, p: Pid)
    ensures LastOwn(log + [e], p) == if e.owner == p then Some(|log|) else LastOwn(log, p)
  {
    assert (log + [e])[..|log|] == log;
  }

  /** An abandoned Pending keeps what its Rollback could not put back: after a failed undo, what the
      destination showed before it; after a swap that was not cleaned up, its own staged file. */
  ghost predicate UndoInv(log: seq<Event>, orig: map<string, Bytes>, fs: Fs, p: Pid, q: Pending) {
    && (q.swappedBack ==> q.abandoned)
    && (q.pc.RbDropStaged? || q.swappedBack ==> q.exchanged && q.temp in fs.dir && fs.dir[q.temp] == Staged(p))
    && (q.abandoned && !q.swappedBack ==> Stuck(log, orig, fs, p, q))
  }

  ghost predicate Stuck(log: seq<Event>, orig: map<string, Bytes>, fs: Fs, p: Pid, q: Pending) {
    var i := LastOwn(log, p);
    && i.Some? && log[i.value] == Stranded(q.dest, Read(fs, Staged(p)), p)
    && Replacement(fs, q) == Settled(log[..i.value], q.dest, orig)
  }

  ghost predicate AllUndo(s: State) {
    forall p <- s.pend :: UndoInv(s.log, s.orig, s.fs, p, s.pend[p])
  }

  // ---- The moves of others -----------------------------------------------------------------

  function Logged(log: seq<Event>, event: Option<Event>): seq<Event> {
    if event.Some? then log + [event.value] else log
  }

  lemma OthersUndo(log: seq<Event>, orig: map<string, Bytes>, v: Local, l: Local, p: Pid, other: Pid, q: Pending)
    requires other != p && Frame(v, l, p) && NameInv(other, q) && UndoInv(log, orig, v.fs, other, q)
    ensures UndoInv(Logged(log, l.event), orig, l.fs, other, q)
  {
    assert !MayTouch(v.lk, p, q.temp);
    ContentFrame(v, l, p, q.temp);
    if q.backup.Some? { ContentFrame(v, l, p, q.backup.value); }
    assert Replacement(l.fs, q) == Replacement(v.fs, q);
    if l.event.Some? {
      LastOwnAppend(log, l.event.value, other);
      var i := LastOwn(log, other);
      if i.Some? { assert (log + [l.event.value])[..i.value] == log[..i.value]; }
    }
  }

  // ---- The moves of the Pending itself -----------------------------------------------------

  // A Pending that is abandoned only gives its lock back.
  lemma AbandonedRests(l: Local, p: Pid, a: Action)
    requires FlagInv(l.q) && l.q.abandoned && l.event.None?
    requires l.q.pc.Idle? ==> !a.Relocate? && !a.Commit? && !a.Rollback?
    ensures var l' := Step(l, p, a);
      l'.fs == l.fs && l'.event.None? && l'.q == l.q.(pc := l'.q.pc) && !l'.q.pc.RbDropStaged?
  {
  }

  // The calls of Rollback after which a Pending may be abandoned.
  predicate Undoing(pc: Pc) {
    pc.RbSwap? || pc.RbDropStaged? || pc.RbRestore? || pc.RbRemoveDest?
  }

  lemma CallAbandonsNone(l: Local, p: Pid, a: Action)
    requires l.q.pc.Idle? && Steady(l.q)
    ensures Steady(CallStep(l, p, a).q)
  {
  }

  // The Pending has not been abandoned and is not about to be.
  predicate Steady(q: Pending) {
    !q.abandoned && !q.swappedBack && !q.pc.RbDropStaged?
  }

  lemma LockAbandonsNone(l: Local, p: Pid)
    requires Steady(l.q)
    ensures Steady(LockStep(l, p).q)
  {
    LockKeepsRecord(l, p);
    LockGoesOn(l, p);
  }

  lemma LockKeepsRecord(l: Local, p: Pid)
    ensures LockStep(l, p).q == l.q.(pc := LockStep(l, p).q.pc)
  {
    var pc := l.q.pc;
    if pc.Acquiring? { AcquiringKeepsRecord(l, p); }
    else if pc.Releasing? { ReleasingKeepsRecord(l, p); }
    else if pc.Unlocking? { assert LockStep(l, p).q == l.q.(pc := Releasing); }
    else { StrayLock(l, p); }
  }

  lemma AcquiringKeepsRecord(l: Local, p: Pid)
    requires l.q.pc.Acquiring?
    ensures LockStep(l, p).q == l.q.(pc := LockStep(l, p).q.pc)
    ensures LockStep(l, p).q.pc == l.q.pc || LockStep(l, p).q.pc == First(l.q.pc.op)
  {
    var lk := LockTable.Next(l.lk, p);
    var next := if LockTable.PcOf(lk, p).Holding? then First(l.q.pc.op) else l.q.pc;
    assert LockStep(l, p) == Goto(l, next).(lk := lk);
  }

  lemma ReleasingKeepsRecord(l: Local, p: Pid)
    requires l.q.pc.Releasing?
    ensures LockStep(l, p).q == l.q.(pc := LockStep(l, p).q.pc)
    ensures LockStep(l, p).q.pc.Idle? || LockStep(l, p).q.pc.Releasing?
  {
    var lk := LockTable.Next(l.lk, p);
    assert LockStep(l, p) == Goto(l, if LockTable.PcOf(lk, p).Idle? then Idle else Releasing).(lk := lk);
  }

  lemma LockGoesOn(l: Local, p: Pid)
    ensures var pc := LockStep(l, p).q.pc;
      pc == l.q.pc || pc.Releasing? || pc.Idle? || (l.q.pc.Acquiring? && pc == First(l.q.pc.op))
  {
    if l.q.pc.Acquiring? { AcquiringKeepsRecord(l, p); }
    else if l.q.pc.Releasing? { ReleasingKeepsRecord(l, p); }
    else if !l.q.pc.Unlocking? { StrayLock(l, p); }
  }

  lemma BackupAbandonsNone(l: Local, p: Pid, ok: bool, n: nat)
    requires FlagInv(l.q) && Steady(l.q) && WithBackupName(l.q.pc)
    ensures Steady(SysStep(l, p, ok, n).q)
  {
  }

  lemma PublishAbandonsNone(l: Local, p: Pid, ok: bool, n: nat)
    requires FlagInv(l.q) && Steady(l.q) && Unpublished(l.q.pc) && !WithBackupName(l.q.pc)
    ensures Steady(SysStep(l, p, ok, n).q)
  {
  }

  lemma SysAbandonsNone(l: Local, p: Pid, ok: bool, n: nat)
    requires FlagInv(l.q) && Steady(l.q) && !Undoing(l.q.pc)
    ensures Steady(SysStep(l, p, ok, n).q)
  {
    if WithBackupName(l.q.pc) { BackupAbandonsNone(l, p, ok, n); }
    else if Unpublished(l.q.pc) { PublishAbandonsNone(l, p, ok, n); }
  }

  // What the failing system call of a Rollback leaves.
  ghost predicate Strands(l: Local, l': Local, settled: Option<Bytes>, p: Pid) {
    && l'.q.abandoned && !l'.q.swappedBack && !l'.q.pc.RbDropStaged?
    && l'.event == Some(Stranded(l'.q.dest, Read(l.fs, Staged(p)), p))
    && Replacement(l'.fs, l'.q) == settled && Read(l'.fs, Staged(p)) == Read(l.fs, Staged(p))
  }

  lemma SwapBackUndo(l: Local, settled: Option<Bytes>, p: Pid, ok: bool)
    requires LocalInv(l, settled, p) && l.q.pc.RbSwap? && !l.q.swappedBack
    ensures var l' := SwapBackStep(l, p, ok);
      || Strands(l, l', settled, p)
      || (!l'.q.abandoned && !l'.q.swappedBack && l'.q.exchanged && l'.q.temp in l'.fs.dir &&
        l'.fs.dir[l'.q.temp] == Staged(p))
  {
  }

  lemma RestoreUndo(l: Local, settled: Option<Bytes>, p: Pid, ok: bool)
    requires LocalInv(l, settled, p) && l.q.pc.RbRestore? && !l.q.swappedBack
    ensures var l' := RestoreStep(l, p, ok);
      Strands(l, l', settled, p) || Steady(l'.q)
  {
  }

  lemma RemoveDestUndo(l: Local, settled: Option<Bytes>, p: Pid, ok: bool)
    requires LocalInv(l, settled, p) && l.q.pc.RbRemoveDest? && !l.q.swappedBack
    ensures var l' := RemoveDestStep(l, p, ok);
      Strands(l, l', settled, p) || Steady(l'.q)
  {
  }

  lemma DropStagedUndo(l: Local, p: Pid, ok: bool)
    requires l.q.pc.RbDropStaged? && FlagInv(l.q) && !l.q.swappedBack && l.event.None?
    ensures var l' := DropStagedStep(l, p, ok);
      && l'.event.None? && !l'.q.pc.RbDropStaged?
      && (if l'.q.abandoned then l'.q.swappedBack && l'.fs == l.fs && l'.q.temp == l.q.temp
          && l'.q.exchanged == l.q.exchanged
          else !l'.q.swappedBack)
  {
  }

  lemma StrandsIsStuck(log: seq<Event>, orig: map<string, Bytes>, l: Local, l': Local, p: Pid)
    requires Strands(l, l', Settled(log, l'.q.dest, orig), p)
    ensures UndoInv(Logged(log, l'.event), orig, l'.fs, p, l'.q)
  {
    var e := l'.event.value;
    LastOwnAppend(log, e, p);
    assert (log + [e])[..|log|] == log;
  }

  // One system call of a Rollback.
  lemma UndoingKeeps(log: seq<Event>, orig: map<string, Bytes>, l: Local, p: Pid, ok: bool, n: nat)
    requires LocalInv(l, Settled(log, l.q.dest, orig), p) && Undoing(l.q.pc)
    requires UndoInv(log, orig, l.fs, p, l.q)
    ensures var l' := SysStep(l, p, ok, n); UndoInv(Logged(log, l'.event), orig, l'.fs, p, l'.q)
  {
    var l', settled := SysStep(l, p, ok, n), Settled(log, l.q.dest, orig);
    match l.q.pc
    case RbSwap => SwapBackUndo(l, settled, p, ok); if l'.q.abandoned { StrandsIsStuck(log, orig, l, l', p); }
    case RbRestore => RestoreUndo(l, settled, p, ok); if l'.q.abandoned { StrandsIsStuck(log, orig, l, l', p); }
    case RbRemoveDest => RemoveDestUndo(l, settled, p, ok); if l'.q.abandoned { StrandsIsStuck(log, orig, l, l', p); }
    case RbDropStaged => DropStagedUndo(l, p, ok);
  }

  lemma OwnUndo(log: seq<Event>, orig: map<string, Bytes>, l: Local, p: Pid, a: Action)
    requires LocalInv(l, Settled(log, l.q.dest, orig), p) && UndoInv(log, orig, l.fs, p, l.q)
    requires l.q.abandoned && l.q.pc.Idle? ==> !a.Relocate? && !a.Commit? && !a.Rollback?
    ensures var l' := Step(l, p, a); UndoInv(Logged(log, l'.event), orig, l'.fs, p, l'.q)
  {
    if l.q.abandoned {
      AbandonedRests(l, p, a);
    } else if l.q.pc.Idle? {
      CallAbandonsNone(l, p, a);
    } else if a.Sys? && Undoing(l.q.pc) {
      UndoingKeeps(log, orig, l, p, a.ok, a.n);
    } else if a.Sys? {
      SysAbandonsNone(l, p, a.ok, a.n);
    } else if a.Lock? && !l.q.pc.RbDropStaged? {
      LockAbandonsNone(l, p);
    }
  }

  // ---- Over runs -----------------------------------------------------------------------------

  lemma SoundUndo(s: State, v: Local, l: Local, p: Pid)
    requires Inv(s) && AllUndo(s) && v.fs == s.fs && Frame(v, l, p)
    requires UndoInv(Logged(s.log, l.event), s.orig, l.fs, p, l.q)
    ensures AllUndo(After(s, p, l))
  {
    var s' := After(s, p, l);
    forall other <- s'.pend ensures UndoInv(s'.log, s'.orig, s'.fs, other, s'.pend[other]) {
      if other != p {
        assert PendingInv(s, other);
        OthersUndo(s.log, s.orig, v, l, p, other, s.pend[other]);
      }
    }
  }

  lemma NextUndo(s: State, p: Pid, a: Action)
    requires Inv(s) && AllUndo(s) && Allowed(s, p, a)
    ensures AllUndo(Next(s, p, a))
  {
    if p in s.pend {
      assert PendingInv(s, p);
      StepSound(s, p, a);
      OwnUndo(s.log, s.orig, View(s, p), p, a);
      SoundUndo(s, View(s, p), Step(View(s, p), p, a), p);
    } else if a.Create? {
      BirthSound(s, p, a.path);
      SoundUndo(s, Unborn(s, p, a.path), Birth(s, p, a.path), p);
    }
  }

  lemma {:induction false} RunUndo(s: State, moves: Schedule)
    requires Init(s) && WellBehaved(s, moves)
    ensures AllUndo(Run(s, moves))
  {
    if moves != [] {
      var before := moves[..|moves| - 1];
      RunUndo(s, before);
      RunKeeps(s, before);
      NextUndo(Run(s, before), moves[|moves| - 1].0, moves[|moves| - 1].1);
    }
  }

  // ---- The second Rollback -------------------------------------------------------------------

  // A move that ends no publication shows in what its Pending sees.
  lemma Advance(s: State, p: Pid, a: Action)
    requires p in s.pend && Step(View(s, p), p, a).event.None?
    ensures p in Next(s, p, a).pend && View(Next(s, p, a), p) == Step(View(s, p), p, a)
    ensures Next(s, p, a).log == s.log && Next(s, p, a).orig == s.orig
  {
  }

  // Rollback is called once more, and its system calls succeed where they can.
  function Retried(s: State, p: Pid): State {
    Next(Next(Next(s, p, Rollback), p, Sys(true, 0)), p, Sys(true, 0))
  }

  // What is known of an abandoned Pending between calls.
  predicate Resting(l: Local, p: Pid) {
    && l.q.pc.Idle? && !l.q.done && l.q.published && l.event.None? && LockTable.PcOf(l.lk, p).Idle?
    && l.q.temp.Private? && (l.q.backup.Some? ==> l.q.backup.value.Private?)
  }

  // The names that the system calls of the Rollback need.
  predicate CanUndo(l: Local) {
    if l.q.exchanged then l.q.temp in l.fs.dir && Public(l.q.dest) in l.fs.dir
    else l.q.backup.Some? ==> l.q.backup.value in l.fs.dir
  }

  lemma RetryExchanged(l: Local, p: Pid)
    requires Resting(l, p) && l.q.exchanged && CanUndo(l)
    ensures var l1 := Step(l, p, Rollback); var l2 := Step(l1, p, Sys(true, 0)); var l3 := Step(l2, p, Sys(true, 0));
      && l1.event.None? && l2.event.None? && l3.event.None? && l3.q.done && l3.lk == l.lk
      && l3.fs == Remove(Swap(l.fs, l.q.temp, Public(l.q.dest)), l.q.temp)
  {
    var l1 := Goto(l, RbSwap);
    assert Step(l, p, Rollback) == l1;
    var l2 := Goto(l1, RbDropStaged).(fs := Swap(l.fs, l.q.temp, Public(l.q.dest)));
    assert Step(l1, p, Sys(true, 0)) == l2;
  }

  lemma RetryRestore(l: Local, p: Pid)
    requires Resting(l, p) && !l.q.exchanged && l.q.backup.Some? && CanUndo(l)
    ensures var l1 := Step(l, p, Rollback); var l2 := Step(l1, p, Sys(true, 0)); var l3 := Step(l2, p, Sys(true, 0));
      && l1.event.None? && l2.event.None? && l3 == l2 && l2.q.done && l2.lk == l.lk
      && l2.fs == Rename(l.fs, l.q.backup.value, Public(l.q.dest))
  {
    var l1 := Goto(l, RbRestore);
    assert Step(l, p, Rollback) == l1;
    var l2 := RestoreStep(l1, p, true);
    assert Step(l1, p, Sys(true, 0)) == l2 && l2.q.pc.Idle?;
  }

  lemma RetryRemove(l: Local, p: Pid)
    requires Resting(l, p) && !l.q.exchanged && l.q.backup.None?
    ensures var l1 := Step(l, p, Rollback); var l2 := Step(l1, p, Sys(true, 0)); var l3 := Step(l2, p, Sys(true, 0));
      && l1.event.None? && l2.event.None? && l3 == l2 && l2.q.done && l2.lk == l.lk
      && l2.fs == Remove(l.fs, Public(l.q.dest))
  {
    var l1 := Goto(l, RbRemoveDest);
    assert Step(l, p, Rollback) == l1;
    var l2 := RemoveDestStep(l1, p, true);
    assert Step(l1, p, Sys(true, 0)) == l2 && l2.q.pc.Idle?;
  }

  lemma RetryFails(l: Local, p: Pid)
    requires Resting(l, p) && !CanUndo(l)
    ensures var l1 := Step(l, p, Rollback); var l2 := Step(l1, p, Sys(true, 0));
      l1.event.None? && !l2.q.done && l2.q.pc.Idle?
  {
    var l1 := Step(l, p, Rollback);
    assert l1 == Goto(l, if l.q.exchanged then RbSwap else RbRestore);
    assert Step(l1, p, Sys(true, 0)) == Strand(l1, p);
  }

  // What it puts at the destination.
  lemma RetryReplaces(l: Local, p: Pid)
    requires Resting(l, p) && CanUndo(l)
    ensures var l1 := Step(l, p, Rollback); var l2 := Step(l1, p, Sys(true, 0)); var l3 := Step(l2, p, Sys(true, 0));
      && l1.event.None? && l2.event.None? && l3.event.None? && l3.lk == l.lk
      && Content(l3.fs, Public(l.q.dest)) == Replacement(l.fs, l.q)
  {
    if l.q.exchanged { RetryExchanged(l, p); }
    else if l.q.backup.Some? { RetryRestore(l, p); }
    else { RetryRemove(l, p); }
  }

  // The second Rollback succeeds only when the names it needs are there.
  lemma RetryOutcome(t: State, p: Pid)
    requires p in t.pend && Resting(View(t, p), p)
    ensures p in Retried(t, p).pend && (Retried(t, p).pend[p].done ==> CanUndo(View(t, p)))
  {
    if !CanUndo(View(t, p)) {
      RetryFails(View(t, p), p);
      Advance(t, p, Rollback);
      var t1 := Next(t, p, Rollback);
      var t2 := Next(t1, p, Sys(true, 0));
      assert t2.pend[p] == Step(View(t1, p), p, Sys(true, 0)).q;
      assert Step(View(t2, p), p, Sys(true, 0)) == View(t2, p);
    }
  }

  lemma AbandonedRestsAt(s: State, moves: Schedule, p: Pid)
    requires Init(s) && WellBehaved(s, moves)
    requires p in Run(s, moves).pend && Run(s, moves).pend[p].abandoned && Run(s, moves).pend[p].pc.Idle?
    ensures Resting(View(Run(s, moves), p), p)
  {
    RunKeeps(s, moves);
    assert PendingInv(Run(s, moves), p);
  }

  /**
   In every reachable state where Rollback has failed on a published Pending, a second Rollback that
   succeeds replaces whatever the destination shows, without the lock and without a place in the
   history, by what the Pending kept: the exchanged name, the backup, or nothing.
   */
  lemma SecondRollbackReplaces(s: State, moves: Schedule, p: Pid)
    requires Init(s) && WellBehaved(s, moves)
    requires p in Run(s, moves).pend && Run(s, moves).pend[p].abandoned && Run(s, moves).pend[p].pc.Idle?
    requires Retried(Run(s, moves), p).pend[p].done
    ensures var t, u := Run(s, moves), Retried(Run(s, moves), p);
      && !Holds(t.lk, p, t.pend[p].dest) && u.lk == t.lk && u.log == t.log
      && Visible(u, t.pend[p].dest) == Replacement(t.fs, t.pend[p])
  {
    var t := Run(s, moves);
    AbandonedRestsAt(s, moves, p);
    RetryOutcome(t, p);
    RetryReplaces(View(t, p), p);
    Advance(t, p, Rollback);
    var t1 := Next(t, p, Rollback);
    Advance(t1, p, Sys(true, 0));
    Advance(Next(t1, p, Sys(true, 0)), p, Sys(true, 0));
  }

  /** What the Pending kept: what its destination showed before its failed undo, or its own staged bytes. */
  lemma WhatIsKept(s: State, moves: Schedule, p: Pid)
    requires Init(s) && WellBehaved(s, moves)
    requires p in Run(s, moves).pend && Run(s, moves).pend[p].abandoned
    ensures var t := Run(s, moves); var q := t.pend[p];
      if q.swappedBack then Replacement(t.fs, q) == Some(Read(t.fs, Staged(p)))
      else
        var i := LastOwn(t.log, p);
        && i.Some? && t.log[i.value] == Stranded(q.dest, Read(t.fs, Staged(p)), p)
        && Replacement(t.fs, q) == Settled(t.log[..i.value], q.dest, s.orig)
  {
    RunUndo(s, moves);
    RunKeeps(s, moves);
    assert UndoInv(Run(s, moves).log, s.orig, Run(s, moves).fs, p, Run(s, moves).pend[p]);
  }

  // ---- When it is right ----------------------------------------------------------------------

  // The history of all others once the publication of an abandoned Pending is undone.
  function WithoutUndone(log: seq<Event>, p: Pid, q: Pending): seq<Event> {
    var i := LastOwn(log, p);
    if q.swappedBack || i.None? then log else log[..i.value] + log[i.value + 1..]
  }

  // The undo failed, and no publication of the destination, committed or stranded, is later.
  predicate NothingSince(log: seq<Event>, p: Pid, q: Pending) {
    !q.swappedBack && LastEvent(log, q.dest).Some? && LastEvent(log, q.dest).value.owner == p
  }

  lemma {:induction false} SameTail(a: seq<Event>, b: seq<Event>, tail: seq<Event>, path: string,
    orig: map<string, Bytes>)
    requires (exists e <- tail :: e.path == path) || Settled(a, path, orig) == Settled(b, path, orig)
    ensures Settled(a + tail, path, orig) == Settled(b + tail, path, orig)
    decreases |tail|
  {
    if tail == [] {
      assert a + tail == a && b + tail == b;
    } else {
      var rest, last := tail[..|tail| - 1], tail[|tail| - 1];
      assert (a + tail)[..|a + tail| - 1] == a + rest && (b + tail)[..|b + tail| - 1] == b + rest;
      if last.path != path {
        assert forall e <- tail :: e == last || e in rest;
        SameTail(a, b, rest, path, orig);
      }
    }
  }

  lemma {:induction false} QuietTail(a: seq<Event>, tail: seq<Event>, path: string, orig: map<string, Bytes>)
    requires forall e <- tail :: e.path != path
    ensures Settled(a + tail, path, orig) == Settled(a, path, orig)
    decreases |tail|
  {
    if tail == [] {
      assert a + tail == a;
    } else {
      assert (a + tail)[..|a + tail| - 1] == a + tail[..|tail| - 1];
      assert tail[|tail| - 1] in tail;
      QuietTail(a, tail[..|tail| - 1], path, orig);
    }
  }

  // The last event of a destination, from one of its events on.
  lemma {:induction false} LastEventFrom(log: seq<Event>, path: string, i: nat) returns (k: nat)
    requires i < |log| && log[i].path == path
    ensures i <= k < |log| && log[k].path == path && LastEvent(log, path) == Some(log[k])
    ensures forall j :: k < j < |log| ==> log[j].path != path
    decreases |log|
  {
    if log[|log| - 1].path == path {
      k := |log| - 1;
    } else {
      k := LastEventFrom(log[..|log| - 1], path, i);
    }
  }

  // The history without event i shows what was there before it, or what came after.
  lemma WithoutOne(log: seq<Event>, path: string, orig: map<string, Bytes>, i: nat, p: Pid)
    requires LastOwn(log, p) == Some(i) && log[i].path == path
    ensures LastEvent(log, path).Some?
    ensures var rest := Settled(log[..i] + log[i + 1..], path, orig);
      if LastEvent(log, path).value.owner == p then rest == Settled(log[..i], path, orig)
      else rest == Settled(log, path, orig)
  {
    var k := LastEventFrom(log, path, i);
    var tail := log[i + 1..];
    if k == i {
      forall e <- tail ensures e.path != path {
        var j :| 0 <= j < |tail| && tail[j] == e;
        assert log[i + 1 + j] == e;
      }
      QuietTail(log[..i], tail, path, orig);
    } else {
      assert tail[k - i - 1] == log[k] && log[k] in tail;
      SameTail(log[..i], log[..i + 1], tail, path, orig);
      assert log[..i + 1] + tail == log;
    }
  }

  /**
   The exact condition: after a second Rollback that succeeds, the destination shows what all other
   publications leave there if and only if the first one could not put the predecessor back and nothing
   has been published there since, or the bytes put back are those that were there.
   */
  lemma SecondRollbackIsRightIff(s: State, moves: Schedule, p: Pid)
    requires Init(s) && WellBehaved(s, moves)
    requires p in Run(s, moves).pend && Run(s, moves).pend[p].abandoned && Run(s, moves).pend[p].pc.Idle?
    requires Retried(Run(s, moves), p).pend[p].done
    ensures var t, u := Run(s, moves), Retried(Run(s, moves), p); var q := t.pend[p];
      Visible(u, q.dest) == Settled(WithoutUndone(t.log, p, q), q.dest, s.orig)
      <==> NothingSince(t.log, p, q) || Replacement(t.fs, q) == Settled(t.log, q.dest, s.orig)
  {
    var t := Run(s, moves);
    var q := t.pend[p];
    SecondRollbackReplaces(s, moves, p);
    WhatIsKept(s, moves, p);
    if !q.swappedBack { WithoutOne(t.log, q.dest, s.orig, LastOwn(t.log, p).value, p); }
  }

  // ---- Commit and Relocate after a failed Rollback -------------------------------------------

  // Commit is called; `ok` says whether it can remove the name that the Pending kept.
  function LateCommit(s: State, p: Pid, ok: bool): State {
    Next(Next(s, p, Commit), p, Sys(ok, 0))
  }

  function KeptName(q: Pending): Option<Name> {
    if q.exchanged then Some(q.temp) else q.backup
  }

  lemma CommitAtRest(l: Local, p: Pid, ok: bool)
    requires Resting(l, p)
    ensures var l1 := Step(l, p, Commit); var l2 := Step(l1, p, Sys(ok, 0));
      && l1.event.None? && l2.event == Some(Committed(l.q.dest, Read(l.fs, Staged(p)), p))
      && l2.q.done && l2.q.committed && l2.q.pc.Idle? && l2.lk == l.lk
      && l2.fs == if ok && KeptName(l.q).Some? then Remove(l.fs, KeptName(l.q).value) else l.fs
  {
    var l1 := Goto(l, ComClean);
    assert Step(l, p, Commit) == l1;
    assert Step(l1, p, Sys(ok, 0)) == CommitStep(l1, p, ok);
  }

  lemma LastMove(s: State, p: Pid, a: Action)
    requires p in s.pend
    ensures var t, l := Next(s, p, a), Step(View(s, p), p, a);
      p in t.pend && t.pend[p] == l.q && t.fs == l.fs && t.lk == l.lk && t.log == Logged(s.log, l.event)
  {
  }

  /**
   In every reachable state where Rollback has failed on a published Pending, Commit is accepted: without
   the lock, it enters the publication into the history, changes no destination, and deletes what the
   Pending kept, unless that removal fails.
   */
  lemma LateCommitIsAccepted(s: State, moves: Schedule, p: Pid, ok: bool)
    requires Init(s) && WellBehaved(s, moves)
    requires p in Run(s, moves).pend && Run(s, moves).pend[p].abandoned && Run(s, moves).pend[p].pc.Idle?
    ensures var t, u := Run(s, moves), LateCommit(Run(s, moves), p, ok); var q := t.pend[p];
      && p in u.pend && u.pend[p].done && u.pend[p].committed
      && !Holds(t.lk, p, q.dest) && u.lk == t.lk
      && u.log == t.log + [Committed(q.dest, Read(t.fs, Staged(p)), p)]
      && (forall path: string :: Visible(u, path) == Visible(t, path))
      && (ok && KeptName(q).Some? ==> KeptName(q).value !in u.fs.dir)
  {
    var t := Run(s, moves);
    AbandonedRestsAt(s, moves, p);
    CommitAtRest(View(t, p), p, ok);
    Advance(t, p, Commit);
    LastMove(Next(t, p, Commit), p, Sys(ok, 0));
  }

  /**
   Readers of a destination whose lock is free then see the publication that Commit has accepted exactly
   when the undo had failed and nothing has been published there since, or the staged bytes happen to be
   there.
   */
  lemma LateCommitIsRightIff(s: State, moves: Schedule, p: Pid, ok: bool)
    requires Init(s) && WellBehaved(s, moves)
    requires p in Run(s, moves).pend && Run(s, moves).pend[p].abandoned && Run(s, moves).pend[p].pc.Idle?
    requires LockFree(Run(s, moves).lk, Run(s, moves).pend[p].dest)
    ensures var t, u := Run(s, moves), LateCommit(Run(s, moves), p, ok); var q := t.pend[p];
      Visible(u, q.dest) == LastCommitted(u.log, q.dest, s.orig)
      <==> NothingSince(t.log, p, q) || Settled(t.log, q.dest, s.orig) == Some(Read(t.fs, Staged(p)))
  {
    var t := Run(s, moves);
    var q := t.pend[p];
    LateCommitIsAccepted(s, moves, p, ok);
    Serialisable(s, moves, q.dest);
    SettledByLast(t.log, q.dest, s.orig);
    WhatIsKept(s, moves, p);
    if NothingSince(t.log, p, q) { OwnIsLast(t.log, q.dest, p); }
  }

  lemma OwnIsLast(log: seq<Event>, path: string, p: Pid)
    requires LastOwn(log, p).Some? && log[LastOwn(log, p).value].path == path
    requires LastEvent(log, path).Some? && LastEvent(log, path).value.owner == p
    ensures LastEvent(log, path).value == log[LastOwn(log, p).value]
  {
    var k := LastEventFrom(log, path, LastOwn(log, p).value);
  }

  /** RelocateExchangedPrevious then changes no destination and nothing in the history, and what a second
      Rollback would put back stays the same. */
  lemma LateRelocateIsHarmless(s: State, moves: Schedule, p: Pid, ok: bool)
    requires Init(s) && WellBehaved(s, moves)
    requires p in Run(s, moves).pend && Run(s, moves).pend[p].abandoned && Run(s, moves).pend[p].pc.Idle?
    ensures var t, u := Run(s, moves), Next(Run(s, moves), p, Relocate(ok));
      && p in u.pend && Replacement(u.fs, u.pend[p]) == Replacement(t.fs, t.pend[p])
      && u.lk == t.lk && u.log == t.log
      && forall path: string :: Visible(u, path) == Visible(t, path)
  {
    var t := Run(s, moves);
    AbandonedRestsAt(s, moves, p);
    var l := View(t, p);
    assert Step(l, p, Relocate(ok)) == RelocateStep(l, p, ok);
    LastMove(t, p, Relocate(ok));
  }
}
