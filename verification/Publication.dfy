/**
 Pending files published to destinations in one directory by any number of goroutines.

 Each Pending belongs to one goroutine.  Its calls are split at every system call and at
 every operation on the destination-lock table, and every system call may fail.  A run is any
 sequence of moves, each by any Pending; stopping a run anywhere is a crash.
 */
module Publication {
  import opened Wrappers
  import opened Disk
  import LockTable

  type Pid = nat

  // The three calls that lock the destination.
  datatype Op = Publish | PublishIfAbsent | Exchange

  // The system call a Pending is about to make.
  datatype Pc =
    | Idle
    | CreateChmod
    | CreateUndo
    | Acquiring(op: Op)
    | Unlocking
    | Releasing
    // Publish
    | PubStat
    | PubReserve
    | PubUnreserve(b: Name)
    | PubLink(b: Name)
    | PubCopyOpen(b: Name)
    | PubCopy(b: Name)
    | PubCopyUndo(b: Name)
    | PubDropBackup(b: Name)
    | PubRename
    | PubUndo
    // PublishIfAbsent
    | AbsLink
    | AbsRemoveTemp
    | AbsUndo
    // Exchange
    | ExSwap
    // Commit
    | ComClean
    // Rollback
    | RbClose
    | RbRemoveTemp(closeFailed: bool)
    | RbSwap
    | RbDropStaged
    | RbRestore
    | RbRemoveDest

  // The fields of the source's Pending, then what only the proof looks at: the next serial number,
  // whether a call finished it, whether it was committed, whether a cleanup or restore failed,
  // whether Rollback failed on it after publication, and whether that was after swapping back.
  datatype Pending = Pending(
    dest: string, temp: Name, backup: Option<Name>,
    closed: bool, closeErr: bool, published: bool, exchanged: bool, done: bool,
    pc: Pc,
    serial: nat, retired: bool, committed: bool, messy: bool, abandoned: bool, swappedBack: bool)

  // The history of a destination: publications that were committed, and publications left in place
  // because undoing them failed.
  datatype Event = Committed(path: string, bytes: Bytes, owner: Pid) | Stranded(path: string, bytes: Bytes, owner: Pid)

  datatype State = State(
    fs: Fs, lk: LockTable.State, pend: map<Pid, Pending>, log: seq<Event>, orig: map<string, Bytes>)

  // A move of one goroutine: a call on its Pending, the outcome of the system call it is at, or its
  // next statement inside the lock table.
  datatype Action =
    | Create(path: string)
    | Write(chunk: Bytes)
    | Close(ok: bool)
    | Retarget(path: string)
    | Call(op: Op)
    | Relocate(ok: bool)
    | Commit
    | Rollback
    | Sys(ok: bool, n: nat)
    | Lock

  // ---- The history ---------------------------------------------------------------------

  /** What a destination holds when no publication is in progress: the last publication that was
      committed or stranded, or the original file. */
  function Settled(log: seq<Event>, path: string, orig: map<string, Bytes>): Option<Bytes> {
    if log == [] then (if path in orig then Some(orig[path]) else None)
    else
      var last := log[|log| - 1];
      if last.path == path then Some(last.bytes) else Settled(log[..|log| - 1], path, orig)
  }

  /** The last committed publication, or the original file. */
  function LastCommitted(log: seq<Event>, path: string, orig: map<string, Bytes>): Option<Bytes> {
    if log == [] then (if path in orig then Some(orig[path]) else None)
    else
      var last := log[|log| - 1];
      if last.Committed? && last.path == path then Some(last.bytes) else LastCommitted(log[..|log| - 1], path, orig)
  }

  function SettledAt(s: State, path: string): Option<Bytes> {
    Settled(s.log, path, s.orig)
  }

  function Visible(s: State, path: string): Option<Bytes> {
    Content(s.fs, Public(path))
  }

  // ---- The moves -----------------------------------------------------------------------

  // What a goroutine reads and writes in one move: the directory, the lock table, its own Pending,
  // and the event it adds to the history, if any.
  datatype Local = Local(fs: Fs, lk: LockTable.State, q: Pending, event: Option<Event>)

  function New(p: Pid, path: string): Pending {
    Pending(
      path, Private(p, 0), None, false, false, false, false, false, CreateChmod, 1, false, false, false, false, false)
  }

  function View(s: State, p: Pid): Local
    requires p in s.pend
  {
    Local(s.fs, s.lk, s.pend[p], None)
  }

  // CreateTemp succeeds.
  function Birth(s: State, p: Pid, path: string): Local {
    Local(CreateFile(s.fs, Private(p, 0), Staged(p)), s.lk, New(p, path), None)
  }

  function After(s: State, p: Pid, l: Local): State {
    s.(fs := l.fs, lk := l.lk, pend := s.pend[p := l.q],
       log := if l.event.Some? then s.log + [l.event.value] else s.log)
  }

  /** The state after goroutine p makes move a; a move that does not fit changes nothing. */
  function Next(s: State, p: Pid, a: Action): State {
    if p in s.pend then After(s, p, Step(View(s, p), p, a))
    else if a.Create? then After(s, p, Birth(s, p, a.path))
    else s
  }

  /** A caller leaves a Pending alone once Rollback has failed on it after publication: Rollback is
      meant to be the deferred last call. */
  predicate Allowed(s: State, p: Pid, a: Action) {
    p in s.pend && s.pend[p].abandoned && s.pend[p].pc.Idle? ==> !a.Relocate? && !a.Commit? && !a.Rollback?
  }

  // The calls on the Pending are over: committed, rolled back, or never handed out.
  predicate Finished(q: Pending) {
    q.pc.Idle? && (q.done || (q.retired && !q.published))
  }

  function Step(l: Local, p: Pid, a: Action): Local {
    if l.q.pc.Idle? then CallStep(l, p, a)
    else
      match a
      case Sys(ok, n) => SysStep(l, p, ok, n)
      case Lock => LockStep(l, p)
      case _ => l
  }

  // A call, up to its first system call.
  function CallStep(l: Local, p: Pid, a: Action): Local {
    match a
    case Write(chunk) => if l.q.closed then l else l.(fs := Append(l.fs, Staged(p), chunk))
    case Close(ok) => if l.q.closed then l else l.(q := l.q.(closed := true, closeErr := !ok))
    case Retarget(path) => if l.q.done || l.q.published then l else l.(q := l.q.(dest := path))
    case Call(op) =>
      if l.q.done || l.q.published || !l.q.closed || l.q.closeErr then l
      else l.(q := l.q.(pc := Acquiring(op)), lk := LockTable.Begin(l.lk, p, l.q.dest))
    case Relocate(ok) => RelocateStep(l, p, ok)
    case Commit => if l.q.done || !l.q.published then l else Goto(l, ComClean)
    case Rollback => if l.q.done then l else Goto(l, RollbackStart(l.q))
    case _ => l
  }

  function Goto(l: Local, pc: Pc): Local {
    l.(q := l.q.(pc := pc))
  }

  // RelocateExchangedPrevious, to a name no one has used.
  function RelocateStep(l: Local, p: Pid, ok: bool): Local {
    if l.q.exchanged && l.q.published && !l.q.done && ok && l.q.temp in l.fs.dir
    then
      var minted := Private(p, l.q.serial);
      l.(q := l.q.(temp := minted, serial := l.q.serial + 1), fs := Rename(l.fs, l.q.temp, minted))
    else l
  }

  function RollbackStart(q: Pending): Pc {
    if !q.published then (if q.closed then RbRemoveTemp(false) else RbClose)
    else if q.exchanged then RbSwap
    else if q.backup.Some? then RbRestore
    else RbRemoveDest
  }

  function First(op: Op): Pc {
    match op
    case Publish => PubStat
    case PublishIfAbsent => AbsLink
    case Exchange => ExSwap
  }

  // The next statement of acquireDestinationLock or releaseDestinationLock.
  function LockStep(l: Local, p: Pid): Local {
    var lk := LockTable.Next(l.lk, p);
    var at := LockTable.PcOf(lk, p);
    match l.q.pc
    case Acquiring(op) => Goto(l, if at.Holding? then First(op) else Acquiring(op)).(lk := lk)
    case Unlocking => Goto(l, Releasing).(lk := LockTable.BeginRelease(l.lk, p))
    case Releasing => Goto(l, if at.Idle? then Idle else Releasing).(lk := lk)
    case _ => l
  }

  function SysStep(l: Local, p: Pid, ok: bool, n: nat): Local {
    match l.q.pc
    case CreateChmod => Goto(l, if ok then Idle else CreateUndo)
    case CreateUndo => CreateUndoStep(l, ok)
    case PubStat => StatStep(l, p, ok)
    case PubReserve => ReserveStep(l, p, ok)
    case PubUnreserve(b) => UnreserveStep(l, p, b, ok, n)
    case PubLink(b) => LinkStep(l, b, ok)
    case PubCopyOpen(b) => CopyOpenStep(l, p, b, ok)
    case PubCopy(b) => CopyStep(l, b, ok, n)
    case PubCopyUndo(b) => Goto(Dispose(l, b, ok), PubDropBackup(b))
    case PubDropBackup(b) => Unlock(Dispose(l, b, ok), p)
    case PubRename => RenameStep(l, ok)
    case PubUndo => UndoStep(l, p, ok)
    case AbsLink => AbsentLinkStep(l, p, ok)
    case AbsRemoveTemp => AbsentRemoveStep(l, ok)
    case AbsUndo => AbsentUndoStep(l, p, ok)
    case ExSwap => ExchangeStep(l, p, ok)
    case ComClean => CommitStep(l, p, ok)
    case RbClose => l.(q := l.q.(closed := true, closeErr := !ok, pc := RbRemoveTemp(!ok)))
    case RbRemoveTemp(closeFailed) => RemoveTempStep(l, p, closeFailed, ok)
    case RbSwap => SwapBackStep(l, p, ok)
    case RbDropStaged => DropStagedStep(l, p, ok)
    case RbRestore => RestoreStep(l, p, ok)
    case RbRemoveDest => RemoveDestStep(l, p, ok)
    case _ => l
  }

  // p.unlock(), which ends the call: release the lock if there is one.
  function Unlock(l: Local, p: Pid): Local {
    Goto(l, if LockTable.PcOf(l.lk, p).Holding? then Unlocking else Idle)
  }

  // Removing a private name; a failure is remembered.
  function Dispose(l: Local, n: Name, ok: bool): Local {
    if ok then l.(fs := Remove(l.fs, n)) else l.(q := l.q.(messy := l.q.messy || n in l.fs.dir))
  }

  // Undoing a publication failed: the staged file stays at the destination.
  function Strand(l: Local, p: Pid): Local {
    Unlock(l.(q := l.q.(messy := true, abandoned := l.q.published, retired := l.q.retired || l.q.published),
              event := Some(Stranded(l.q.dest, Read(l.fs, Staged(p)), p))), p)
  }

  function CreateUndoStep(l: Local, ok: bool): Local {
    Dispose(l.(q := l.q.(closed := true, done := true, retired := true, pc := Idle)), l.q.temp, ok)
  }

  // ---- Publish, with the lock held

  function StatStep(l: Local, p: Pid, ok: bool): Local {
    if !ok then Unlock(l, p) else Goto(l, if Public(l.q.dest) in l.fs.dir then PubReserve else PubRename)
  }

  function ReserveStep(l: Local, p: Pid, ok: bool): Local {
    if !ok then Unlock(l, p)
    else
      var b := Private(p, l.q.serial);
      l.(fs := CreateFile(l.fs, b, Reserved(p, l.q.serial)), q := l.q.(serial := l.q.serial + 1, pc := PubUnreserve(b)))
  }

  // n says whether closing the reserved file failed, ok whether removing it succeeded.
  function UnreserveStep(l: Local, p: Pid, b: Name, ok: bool, n: nat): Local {
    if ok && n == 0 then Goto(Dispose(l, b, ok), PubLink(b)) else Unlock(Dispose(l, b, ok), p)
  }

  function LinkStep(l: Local, b: Name, ok: bool): Local {
    if ok && Public(l.q.dest) in l.fs.dir && b !in l.fs.dir
    then l.(q := l.q.(backup := Some(b), pc := PubRename), fs := Link(l.fs, Public(l.q.dest), b))
    else Goto(l, PubCopyOpen(b))
  }

  // The inode of a copied backup.
  function CopyOf(p: Pid, b: Name): Ino {
    Copied(p, match b case Private(_, serial) => serial case Public(_) => 0)
  }

  function CopyOpenStep(l: Local, p: Pid, b: Name, ok: bool): Local {
    if ok && Public(l.q.dest) in l.fs.dir && b !in l.fs.dir
    then Goto(l, PubCopy(b)).(fs := CreateFile(l.fs, b, CopyOf(p, b)))
    else Goto(l, PubDropBackup(b))
  }

  // One write of io.Copy, of up to n + 1 bytes; at the end of the file, its sync and close.
  function CopyStep(l: Local, b: Name, ok: bool, n: nat): Local {
    var d := Public(l.q.dest);
    if !ok || d !in l.fs.dir || b !in l.fs.dir then Goto(l, PubCopyUndo(b))
    else
      var source, sofar := Read(l.fs, l.fs.dir[d]), Read(l.fs, l.fs.dir[b]);
      if |sofar| < |source| then l.(fs := Append(l.fs, l.fs.dir[b], Chunk(source, |sofar|, n)))
      else l.(q := l.q.(backup := Some(b), pc := PubRename))
  }

  function Chunk(source: Bytes, from: nat, n: nat): Bytes
    requires from < |source|
  {
    source[from..if from + n + 1 <= |source| then from + n + 1 else |source|]
  }

  function RenameStep(l: Local, ok: bool): Local {
    if ok && l.q.temp in l.fs.dir
    then l.(q := l.q.(published := true, pc := Idle), fs := Rename(l.fs, l.q.temp, Public(l.q.dest)))
    else Goto(l, PubUndo)
  }

  function UndoStep(l: Local, p: Pid, ok: bool): Local {
    var l1 := l.(q := l.q.(backup := None));
    Unlock(if l.q.backup.Some? then Dispose(l1, l.q.backup.value, ok) else l1, p)
  }

  // ---- PublishIfAbsent and Exchange, with the lock held

  function AbsentLinkStep(l: Local, p: Pid, ok: bool): Local {
    if ok && l.q.temp in l.fs.dir && Public(l.q.dest) !in l.fs.dir
    then Goto(l, AbsRemoveTemp).(fs := Link(l.fs, l.q.temp, Public(l.q.dest)))
    else Unlock(l, p)
  }

  function AbsentRemoveStep(l: Local, ok: bool): Local {
    if ok then l.(q := l.q.(published := true, pc := Idle), fs := Remove(l.fs, l.q.temp)) else Goto(l, AbsUndo)
  }

  function AbsentUndoStep(l: Local, p: Pid, ok: bool): Local {
    if ok then Unlock(l.(fs := Remove(l.fs, Public(l.q.dest))), p) else Strand(l, p)
  }

  function ExchangeStep(l: Local, p: Pid, ok: bool): Local {
    if ok && l.q.temp in l.fs.dir && Public(l.q.dest) in l.fs.dir
    then l.(q := l.q.(published := true, exchanged := true, pc := Idle),
            fs := Swap(l.fs, l.q.temp, Public(l.q.dest)))
    else Unlock(l, p)
  }

  // ---- Commit and Rollback

  function CommitStep(l: Local, p: Pid, ok: bool): Local {
    var cleanup := if l.q.exchanged then Some(l.q.temp) else l.q.backup;
    var cleaned := ok || cleanup.None?;
    Unlock(l.(q := l.q.(done := true, committed := true, retired := true,
                        backup := if cleaned then None else l.q.backup, messy := l.q.messy || !cleaned),
              fs := if ok && cleanup.Some? then Remove(l.fs, cleanup.value) else l.fs,
              event := Some(Committed(l.q.dest, Read(l.fs, Staged(p)), p))), p)
  }

  // The error of a close just made is returned, so the Pending is not done.
  function RemoveTempStep(l: Local, p: Pid, closeFailed: bool, ok: bool): Local {
    Unlock(Dispose(l.(q := l.q.(done := ok && !closeFailed, retired := true)), l.q.temp, ok), p)
  }

  function SwapBackStep(l: Local, p: Pid, ok: bool): Local {
    if ok && l.q.temp in l.fs.dir && Public(l.q.dest) in l.fs.dir
    then Goto(l, RbDropStaged).(fs := Swap(l.fs, l.q.temp, Public(l.q.dest)))
    else Strand(l, p)
  }

  function DropStagedStep(l: Local, p: Pid, ok: bool): Local {
    if ok then Unlock(l.(q := l.q.(done := true, retired := true), fs := Remove(l.fs, l.q.temp)), p)
    else Unlock(l.(q := l.q.(messy := true, abandoned := true, retired := true, swappedBack := true)), p)
  }

  function RestoreStep(l: Local, p: Pid, ok: bool): Local {
    if ok && l.q.backup.Some? && l.q.backup.value in l.fs.dir
    then Unlock(l.(q := l.q.(backup := None, done := true, retired := true),
                   fs := Rename(l.fs, l.q.backup.value, Public(l.q.dest))), p)
    else Strand(l, p)
  }

  function RemoveDestStep(l: Local, p: Pid, ok: bool): Local {
    if ok then Unlock(l.(q := l.q.(done := true, retired := true), fs := Remove(l.fs, Public(l.q.dest))), p)
    else Strand(l, p)
  }
}
