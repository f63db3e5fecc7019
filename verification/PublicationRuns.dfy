/**
 The invariant of the whole system, over every run of any number of Pendings.
 */
module PublicationRuns {
  import opened Wrappers
  import opened Disk
  import opened Publication
  import opened PublicationSafety
  import LockTable

  // ---- The invariant of the whole system -----------------------------------------------

  // A Pending is in the history only as committed, or as one whose undoing failed.
  ghost predicate LogInv(log: seq<Event>, p: Pid, q: Pending) {
    forall e :: e in log && e.owner == p ==> if e.Committed? then q.committed else q.messy
  }

  ghost predicate PendingInv(s: State, p: Pid)
    requires p in s.pend
  {
    LocalInv(View(s, p), SettledAt(s, s.pend[p].dest), p) && LogInv(s.log, p, s.pend[p])
  }

  /** A destination that no Pending holds shows its settled content. */
  ghost predicate QuietInv(s: State) {
    forall path: string :: (forall p: Pid :: !Holds(s.lk, p, path)) ==> Visible(s, path) == SettledAt(s, path)
  }

  // Nothing of a Pending exists before it is created.
  ghost predicate UnbornInv(s: State) {
    && (forall p: Pid :: p !in s.pend ==> LockTable.PcOf(s.lk, p).Idle?)
    && (forall n :: n in s.fs.dir && n.Private? ==> n.owner in s.pend)
    && (forall n :: n in s.fs.dir && !s.fs.dir[n].Original? ==> s.fs.dir[n].owner in s.pend)
    && (forall i :: Read(s.fs, i) != [] && !i.Original? ==> i.owner in s.pend)
    && (forall e :: e in s.log ==> e.owner in s.pend)
  }

  ghost predicate Inv(s: State) {
    LockTable.Inv(s.lk) && QuietInv(s) && UnbornInv(s) && forall p :: p in s.pend ==> PendingInv(s, p)
  }

  // ---- A move leaves the other Pendings alone ------------------------------------------

  lemma SettledElsewhere(s: State, p: Pid, l: Local, path: string)
    requires l.event.Some? ==> l.event.value.path != path
    ensures SettledAt(After(s, p, l), path) == SettledAt(s, path)
  {
    if l.event.Some? {
      assert (s.log + [l.event.value])[..|s.log + [l.event.value]| - 1] == s.log;
    }
  }

  lemma SettledHere(s: State, p: Pid, l: Local, path: string)
    requires l.event.Some? ==> l.event.value.path == path
    ensures SettledAt(After(s, p, l), path) == SettledNow(l, SettledAt(s, path))
  {
  }

  lemma OthersInode(l: Local, l': Local, p: Pid, v: Local, other: Pid, settled: Option<Bytes>)
    requires Frame(l, l', p) && other != p && LocalInv(v, settled, other) && v.fs == l.fs && v.lk == l.lk
    requires forall path: string :: Holds(l.lk, other, path) ==> !Holds(l.lk, p, path)
    ensures InodeInv(l'.fs, other, v.q)
  {
    assert !MayTouch(l.lk, p, v.q.temp);
    if WithBackupName(v.q.pc) { assert !MayTouch(l.lk, p, v.q.pc.b); }
    if v.q.pc.AbsRemoveTemp? || v.q.pc.AbsUndo? { assert !MayTouch(l.lk, p, Public(v.q.dest)); }
  }

  lemma ContentFrame(l: Local, l': Local, p: Pid, n: Name)
    requires Frame(l, l', p) && !MayTouch(l.lk, p, n)
    ensures Content(l'.fs, n) == Content(l.fs, n)
  {
  }

  lemma OthersDest(l: Local, l': Local, p: Pid, v: Local, other: Pid, settled: Option<Bytes>)
    requires Frame(l, l', p) && other != p && LocalInv(v, settled, other) && v.fs == l.fs && v.lk == l.lk
    requires forall path: string :: Holds(l.lk, other, path) ==> !Holds(l.lk, p, path)
    requires Holds(l.lk, other, v.q.dest)
    ensures DestInv(l'.fs, settled, other, v.q)
  {
    ContentFrame(l, l', p, Public(v.q.dest));
    ContentFrame(l, l', p, v.q.temp);
    if v.q.backup.Some? { ContentFrame(l, l', p, v.q.backup.value); }
    if WithBackupName(v.q.pc) { ContentFrame(l, l', p, v.q.pc.b); }
  }

  lemma OthersLeftover(l: Local, l': Local, p: Pid, v: Local, other: Pid)
    requires DirFrame(l, l'.fs, p) && other != p && LeftoverInv(l.fs, other, v.q)
    ensures LeftoverInv(l'.fs, other, v.q)
  {
  }

  lemma OthersLog(s: State, p: Pid, l: Local, other: Pid)
    requires other in s.pend && other != p && LogInv(s.log, other, s.pend[other])
    requires l.event.Some? ==> l.event.value.owner == p
    ensures LogInv(After(s, p, l).log, other, s.pend[other])
  {
  }

  lemma OthersKeep(s: State, v: Local, l: Local, p: Pid, other: Pid)
    requires LockTable.Inv(s.lk) && other in s.pend && other != p && PendingInv(s, other)
    requires v.fs == s.fs && v.lk == s.lk && Frame(v, l, p)
    requires LockTable.PcOf(l.lk, other) == LockTable.PcOf(s.lk, other)
    ensures PendingInv(After(s, p, l), other)
  {
    var q := s.pend[other];
    var settled := SettledAt(s, q.dest);
    forall path: string | Holds(s.lk, other, path) ensures !Holds(s.lk, p, path) {
      if Holds(s.lk, p, path) { LockTable.OneHolder(s.lk, p, other); }
    }
    OthersInode(v, l, p, View(s, other), other, settled);
    OthersLeftover(v, l, p, View(s, other), other);
    OthersLog(s, p, l, other);
    if Holds(s.lk, other, q.dest) {
      OthersDest(v, l, p, View(s, other), other, settled);
      SettledElsewhere(s, p, l, q.dest);
    }
  }

  // ---- What a move must do for the invariant to last -----------------------------------

  /** A move of p to l is lawful towards the others and keeps the invariant of p. */
  ghost predicate Sound(s: State, v: Local, l: Local, p: Pid) {
    && v.fs == s.fs && v.lk == s.lk && RecordInv(v, p)
    && Frame(v, l, p)
    && ReleaseInv(v, l, SettledAt(s, v.q.dest), p)
    && RecordInv(l, p)
    && FilesInv(l, SettledAt(After(s, p, l), l.q.dest), p)
    && LockTable.Inv(l.lk)
    && forall o: Pid :: o != p ==> LockTable.PcOf(l.lk, o) == LockTable.PcOf(s.lk, o)
  }

  lemma QuietKeeps(s: State, v: Local, l: Local, p: Pid)
    requires QuietInv(s) && Sound(s, v, l, p)
    ensures QuietInv(After(s, p, l))
  {
    var s' := After(s, p, l);
    forall path: string | forall o: Pid :: !Holds(s'.lk, o, path) ensures Visible(s', path) == SettledAt(s', path) {
      if Holds(s.lk, p, path) {
        HeldIsDest(v, p, path);
        SettledHeld(s, v, l, p);
      } else {
        ContentFrame(v, l, p, Public(path));
        SettledElsewhere(s, p, l, path);
        forall o: Pid ensures !Holds(s.lk, o, path) { assert o != p ==> !Holds(s'.lk, o, path); }
      }
    }
  }

  // The only lock a Pending holds is that of its destination.
  lemma HeldIsDest(v: Local, p: Pid, path: string)
    requires RecordInv(v, p) && Holds(v.lk, p, path)
    ensures path == v.q.dest
  {
  }

  lemma SettledHeld(s: State, v: Local, l: Local, p: Pid)
    requires v.lk == s.lk && RecordInv(v, p) && EventFrame(v, l, p)
    ensures SettledAt(After(s, p, l), v.q.dest) == SettledNow(l, SettledAt(s, v.q.dest))
  {
    if l.event.Some? { HeldIsDest(v, p, l.event.value.path); }
    SettledHere(s, p, l, v.q.dest);
  }

  lemma UnbornKeeps(s: State, v: Local, l: Local, p: Pid)
    requires UnbornInv(s) && Sound(s, v, l, p)
    ensures UnbornInv(After(s, p, l))
  {
  }

  lemma LogKeeps(s: State, v: Local, l: Local, p: Pid)
    requires LogInv(s.log, p, v.q) && EventFrame(v, l, p)
    ensures LogInv(After(s, p, l).log, p, l.q)
  {
  }

  /** A sound move keeps the invariant of the system. */
  lemma SoundKeeps(s: State, v: Local, l: Local, p: Pid)
    requires Inv(s) && Sound(s, v, l, p) && LogInv(s.log, p, v.q)
    ensures Inv(After(s, p, l))
  {
    QuietKeeps(s, v, l, p);
    UnbornKeeps(s, v, l, p);
    LogKeeps(s, v, l, p);
    forall other | other in s.pend && other != p ensures PendingInv(After(s, p, l), other) {
      OthersKeep(s, v, l, p, other);
    }
  }

  lemma GoodIsSound(s: State, l: Local, p: Pid)
    requires p in s.pend && PendingInv(s, p) && Good(View(s, p), l, SettledAt(s, s.pend[p].dest), p)
    requires LockTable.Inv(l.lk)
    requires forall o: Pid :: o != p ==> LockTable.PcOf(l.lk, o) == LockTable.PcOf(s.lk, o)
    ensures Sound(s, View(s, p), l, p)
  {
    SettledHeld(s, View(s, p), l, p);
  }

  // ---- Every move ----------------------------------------------------------------------

  // The goroutine of a new Pending before CreateTemp.
  function Unborn(s: State, p: Pid, path: string): Local {
    Birth(s, p, path).(fs := s.fs)
  }

  lemma BirthSound(s: State, p: Pid, path: string)
    requires Inv(s) && p !in s.pend
    ensures Sound(s, Unborn(s, p, path), Birth(s, p, path), p) && LogInv(s.log, p, New(p, path))
  {
    BirthGood(s, p, path, SettledAt(s, path));
    SettledElsewhere(s, p, Birth(s, p, path), path);
  }

  lemma BirthGood(s: State, p: Pid, path: string, settled: Option<Bytes>)
    requires UnbornInv(s) && p !in s.pend
    ensures var l := Birth(s, p, path); var v := Unborn(s, p, path);
            Frame(v, l, p) && RecordInv(v, p) && ReleaseInv(v, l, settled, p) && LocalInv(l, settled, p) &&
            LogInv(s.log, p, l.q)
  {
  }

  lemma CallStepGood(l: Local, settled: Option<Bytes>, p: Pid, a: Action)
    requires LocalInv(l, settled, p) && l.q.pc.Idle? && !a.Retarget?
    requires l.q.abandoned ==> !a.Relocate? && !a.Commit? && !a.Rollback?
    ensures Good(l, CallStep(l, p, a), settled, p)
  {
    match a
    case Write(chunk) => WriteLawful(l, settled, p, chunk); WriteFiles(l, settled, p, chunk);
    case Close(ok) => CloseLawful(l, settled, p, ok); CloseFiles(l, settled, p, ok);
    case Relocate(ok) => RelocateLawful(l, settled, p, ok); RelocateFiles(l, settled, p, ok);
    case Commit => CommitLawful(l, settled, p); CommitFiles(l, settled, p);
    case Rollback => RollbackLawful(l, settled, p); RollbackFiles(l, settled, p);
    case Call(op) => CallGood(l, settled, p, op);
    case _ => StayGood(l, settled, p);
  }

  lemma CallSound(s: State, p: Pid, a: Action)
    requires p in s.pend && PendingInv(s, p) && LockTable.Inv(s.lk)
    requires s.pend[p].pc.Idle? && !a.Retarget? && Allowed(s, p, a)
    ensures Sound(s, View(s, p), CallStep(View(s, p), p, a), p)
  {
    CallStepGood(View(s, p), SettledAt(s, s.pend[p].dest), p, a);
    LockTable.BeginKeeps(s.lk, p, s.pend[p].dest);
    GoodIsSound(s, CallStep(View(s, p), p, a), p);
  }

  lemma RetargetSound(s: State, p: Pid, path: string)
    requires p in s.pend && PendingInv(s, p) && LockTable.Inv(s.lk)
    requires s.pend[p].pc.Idle? && !s.pend[p].done && !s.pend[p].published
    ensures Sound(s, View(s, p), CallStep(View(s, p), p, Retarget(path)), p)
  {
    var v := View(s, p);
    RetargetGood(v, SettledAt(s, s.pend[p].dest), p, path, SettledAt(s, path));
    SettledElsewhere(s, p, CallStep(v, p, Retarget(path)), path);
  }

  lemma StaySound(s: State, p: Pid)
    requires p in s.pend && PendingInv(s, p) && LockTable.Inv(s.lk)
    ensures Sound(s, View(s, p), View(s, p), p)
  {
    StayGood(View(s, p), SettledAt(s, s.pend[p].dest), p);
    GoodIsSound(s, View(s, p), p);
  }

  // A goroutine that takes the lock of a destination finds it settled.
  lemma AcquiresQuiet(s: State, p: Pid, path: string)
    requires Inv(s) && LockTable.Acquiring(LockTable.PcOf(s.lk, p)) && Holds(LockTable.Next(s.lk, p), p, path)
    ensures Visible(s, path) == SettledAt(s, path)
  {
    LockTable.NextKeeps(s.lk, p);
    forall o: Pid ensures !Holds(s.lk, o, path) {
      if Holds(s.lk, o, path) {
        LockTable.MovesAlone(s.lk, p, o);
        LockTable.OneHolder(LockTable.Next(s.lk, p), p, o);
      }
    }
  }

  lemma LockStepGood(v: Local, settled: Option<Bytes>, p: Pid)
    requires LocalInv(v, settled, p) && (v.q.pc.Acquiring? || v.q.pc.Unlocking? || v.q.pc.Releasing?)
    requires v.q.pc.Acquiring? && Holds(LockTable.Next(v.lk, p), p, v.q.dest) ==> Undisturbed(v.fs, settled, v.q)
    ensures Good(v, LockStep(v, p), settled, p)
  {
    LockStepMoves(v, settled, p);
    LockMoveLawful(v, LockStep(v, p), settled, p);
    LockMoveFiles(v, LockStep(v, p), settled, p);
  }

  lemma LockSound(s: State, p: Pid)
    requires Inv(s) && p in s.pend
    requires s.pend[p].pc.Acquiring? || s.pend[p].pc.Unlocking? || s.pend[p].pc.Releasing?
    ensures Sound(s, View(s, p), LockStep(View(s, p), p), p)
  {
    var v := View(s, p);
    assert PendingInv(s, p);
    if v.q.pc.Acquiring? && Holds(LockTable.Next(s.lk, p), p, v.q.dest) { AcquiresQuiet(s, p, v.q.dest); }
    LockStepGood(v, SettledAt(s, v.q.dest), p);
    LockTable.NextKeeps(s.lk, p);
    LockTable.BeginReleaseKeeps(s.lk, p);
    forall o: Pid | o != p ensures LockTable.PcOf(LockStep(v, p).lk, o) == LockTable.PcOf(s.lk, o) {
      LockTable.MovesAlone(s.lk, p, o);
    }
    GoodIsSound(s, LockStep(v, p), p);
  }

  lemma SysSound(s: State, p: Pid, ok: bool, n: nat)
    requires p in s.pend && PendingInv(s, p) && LockTable.Inv(s.lk) && !s.pend[p].pc.Idle?
    ensures Sound(s, View(s, p), SysStep(View(s, p), p, ok, n), p)
  {
    var v := View(s, p);
    var settled := SettledAt(s, s.pend[p].dest);
    var pc := v.q.pc;
    if pc.Acquiring? || pc.Unlocking? || pc.Releasing? { StayGood(v, settled, p); }
    else if Linking(pc) { LinkingGood(v, settled, p, ok, n); }
    else if WithBackupName(pc) { CopyingGood(v, settled, p, ok, n); }
    else if pc.PubStat? || pc.PubReserve? || pc.PubRename? || pc.PubUndo? { PublishGood(v, settled, p, ok, n); }
    else if pc.ComClean? || pc.RbRestore? || pc.RbRemoveDest? { EndGood(v, settled, p, ok, n); }
    else if pc.RbClose? || pc.RbRemoveTemp? { RollbackGood(v, settled, p, ok, n); }
    else if Ending(pc) { SwapBackGood(v, settled, p, ok, n); }
    else { OtherGood(v, settled, p, ok, n); }
    GoodIsSound(s, SysStep(v, p, ok, n), p);
  }

  lemma IdleSound(s: State, p: Pid, a: Action)
    requires Inv(s) && p in s.pend && Allowed(s, p, a) && s.pend[p].pc.Idle?
    ensures Sound(s, View(s, p), CallStep(View(s, p), p, a), p)
  {
    assert PendingInv(s, p);
    if !a.Retarget? { CallSound(s, p, a); }
    else if s.pend[p].done || s.pend[p].published { StaySound(s, p); }
    else { RetargetSound(s, p, a.path); }
  }

  // A goroutine in a call makes its system call, or its next statement in the lock table, or does not fit.
  lemma BusyStep(l: Local, p: Pid, a: Action)
    requires !l.q.pc.Idle?
    ensures Step(l, p, a) == if a.Sys? then SysStep(l, p, a.ok, a.n) else if a.Lock? then LockStep(l, p) else l
  {
  }

  lemma StrayLock(l: Local, p: Pid)
    requires !l.q.pc.Acquiring? && !l.q.pc.Unlocking? && !l.q.pc.Releasing?
    ensures LockStep(l, p) == l
  {
  }

  lemma BusyLockSound(s: State, p: Pid)
    requires Inv(s) && p in s.pend && !s.pend[p].pc.Idle?
    ensures Sound(s, View(s, p), LockStep(View(s, p), p), p)
  {
    var pc := s.pend[p].pc;
    assert PendingInv(s, p);
    if pc.Acquiring? || pc.Unlocking? || pc.Releasing? {
      LockSound(s, p);
    } else {
      StrayLock(View(s, p), p);
      StaySound(s, p);
    }
  }

  lemma BusySound(s: State, p: Pid, a: Action)
    requires Inv(s) && p in s.pend && !s.pend[p].pc.Idle?
    ensures Sound(s, View(s, p), Step(View(s, p), p, a), p)
  {
    assert PendingInv(s, p);
    BusyStep(View(s, p), p, a);
    if a.Sys? { SysSound(s, p, a.ok, a.n); }
    else if a.Lock? { BusyLockSound(s, p); }
    else { StaySound(s, p); }
  }

  lemma StepSound(s: State, p: Pid, a: Action)
    requires Inv(s) && p in s.pend && Allowed(s, p, a)
    ensures Sound(s, View(s, p), Step(View(s, p), p, a), p)
  {
    if s.pend[p].pc.Idle? { IdleSound(s, p, a); } else { BusySound(s, p, a); }
  }

  /** Every move a caller may make keeps the invariant of the system. */
  lemma NextKeeps(s: State, p: Pid, a: Action)
    requires Inv(s) && Allowed(s, p, a)
    ensures Inv(Next(s, p, a))
  {
    if p in s.pend {
      assert PendingInv(s, p);
      StepSound(s, p, a);
      SoundKeeps(s, View(s, p), Step(View(s, p), p, a), p);
    } else if a.Create? {
      BirthSound(s, p, a.path);
      SoundKeeps(s, Unborn(s, p, a.path), Birth(s, p, a.path), p);
    }
  }

  // ---- Whole runs ----------------------------------------------------------------------

  // A run from state s: which goroutine moves, and how.
  type Schedule = seq<(Pid, Action)>

  function Run(s: State, moves: Schedule): State {
    if moves == [] then s
    else Next(Run(s, moves[..|moves| - 1]), moves[|moves| - 1].0, moves[|moves| - 1].1)
  }

  /** No caller touches a Pending after its Rollback failed following a publication. */
  predicate WellBehaved(s: State, moves: Schedule) {
    moves == [] ||
    (WellBehaved(s, moves[..|moves| - 1]) &&
     Allowed(Run(s, moves[..|moves| - 1]), moves[|moves| - 1].0, moves[|moves| - 1].1))
  }

  /** Before the first Pending: files under public names only, every lock free. */
  ghost predicate Init(s: State) {
    && s.pend == map[] && s.log == [] && s.lk == LockTable.EMPTY
    && (forall n :: n in s.fs.dir ==> n.Public? && s.fs.dir[n].Original?)
    && (forall i :: Read(s.fs, i) != [] ==> i.Original?)
    && (forall path: string :: Visible(s, path) == if path in s.orig then Some(s.orig[path]) else None)
  }

  lemma InitInv(s: State)
    requires Init(s)
    ensures Inv(s)
  {
  }

  lemma {:induction false} RunKeeps(s: State, moves: Schedule)
    requires Init(s) && WellBehaved(s, moves)
    ensures Inv(Run(s, moves))
    ensures Run(s, moves).orig == s.orig
  {
    if moves == [] {
      InitInv(s);
    } else {
      var before := moves[..|moves| - 1];
      RunKeeps(s, before);
      NextKeeps(Run(s, before), moves[|moves| - 1].0, moves[|moves| - 1].1);
    }
  }
}
