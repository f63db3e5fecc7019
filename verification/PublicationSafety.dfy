/**
 What every run of the publication machine keeps, for any number of Pendings and any
 outcomes of the system calls.
 */
module PublicationSafety {
  import opened Wrappers
  import opened Disk
  import opened Publication
  import LockTable

  // ---- One Pending ---------------------------------------------------------------------

  predicate Holds(lk: LockTable.State, p: Pid, path: string) {
    var pc := LockTable.PcOf(lk, p);
    pc.Holding? && pc.key == path
  }

  // Published and still locked against other publishers.
  predicate Live(q: Pending) {
    q.published && !q.done && !q.abandoned
  }

  predicate WithBackupName(pc: Pc) {
    pc.PubUnreserve? || pc.PubLink? || pc.PubCopyOpen? || pc.PubCopy? || pc.PubCopyUndo? || pc.PubDropBackup?
  }

  predicate Unpublished(pc: Pc) {
    pc.Acquiring? || pc.PubStat? || pc.PubReserve? || WithBackupName(pc) || pc.PubRename? || pc.PubUndo? ||
    pc.AbsLink? || pc.AbsRemoveTemp? || pc.AbsUndo? || pc.ExSwap?
  }

  predicate Ending(pc: Pc) {
    pc.ComClean? || pc.RbSwap? || pc.RbDropStaged? || pc.RbRestore? || pc.RbRemoveDest?
  }

  /** The goroutine of a Pending is where its call says it is in the lock table. */
  predicate LockInv(lk: LockTable.State, p: Pid, q: Pending) {
    var at := LockTable.PcOf(lk, p);
    match q.pc
    case Acquiring(_) => LockTable.Acquiring(at) && at.key == q.dest
    case Releasing => LockTable.Releasing(at)
    case Idle => if Live(q) then at.Holding? && at.key == q.dest else at.Idle?
    case CreateChmod | CreateUndo | RbClose | RbRemoveTemp(_) => at.Idle?
    case _ => at.Holding? && at.key == q.dest
  }

  predicate FlagInv(q: Pending) {
    && (q.published ==> q.closed)
    && (q.exchanged ==> q.published && q.backup.None?)
    && (q.done || q.abandoned ==> q.pc.Idle? || q.pc.Unlocking? || q.pc.Releasing?)
    && (q.done ==> q.closed)
    && (q.closeErr ==> !q.published && !Unpublished(q.pc))
    && (q.done && !q.messy ==> q.backup.None?)
    && (q.done && !q.published ==> q.retired)
    && (q.pc.Unlocking? || q.pc.Releasing? ==> !Live(q))
    && (q.committed ==> q.done)
    && (q.abandoned ==> q.published && q.messy && !q.done)
    && (q.pc.CreateChmod? || q.pc.CreateUndo? || q.pc.RbClose? ==> !q.published)
    && (q.pc.RbRemoveTemp? ==> !q.published && q.closed)
    && (Unpublished(q.pc) ==> !q.published && q.closed)
    && (Ending(q.pc) ==> q.published)
    && (q.pc.RbSwap? || q.pc.RbDropStaged? ==> q.exchanged)
    && (q.pc.RbRestore? ==> q.backup.Some?)
    && (q.pc.RbRemoveDest? ==> q.backup.None? && !q.exchanged)
    && (q.backup.Some? ==> q.published || q.pc.PubRename? || q.pc.PubUndo?)
  }

  // A name that p minted.
  predicate Minted(p: Pid, q: Pending, n: Name) {
    n.Private? && n.owner == p && n.serial < q.serial
  }

  predicate NameInv(p: Pid, q: Pending) {
    && Minted(p, q, q.temp)
    && (!q.published ==> q.temp == Private(p, 0))
    && (q.backup.Some? ==> Minted(p, q, q.backup.value) && q.backup.value != q.temp)
    && (WithBackupName(q.pc) ==> Minted(p, q, q.pc.b) && q.pc.b != q.temp)
  }

  // No file but n refers to inode i.
  ghost predicate OnlyAt(fs: Fs, i: Ino, n: Name) {
    forall m :: m in fs.dir && fs.dir[m] == i ==> m == n
  }

  predicate Owned(i: Ino, p: Pid) {
    !i.Original? && i.owner == p
  }

  // The staged inode is still private.
  predicate Unshared(q: Pending) {
    !q.closed || (!q.published && !q.messy && !q.pc.AbsRemoveTemp? && !q.pc.AbsUndo?)
  }

  ghost predicate InodeInv(fs: Fs, p: Pid, q: Pending) {
    && (!q.published && q.temp in fs.dir ==> fs.dir[q.temp] == Staged(p))
    && (Unshared(q) ==> OnlyAt(fs, Staged(p), q.temp))
    && (!q.messy && (q.pc.AbsRemoveTemp? || q.pc.AbsUndo?) ==>
          forall m :: m in fs.dir && fs.dir[m] == Staged(p) ==> m == q.temp || m == Public(q.dest))
    && (forall m :: m in fs.dir && fs.dir[m].Copied? && fs.dir[m].owner == p ==> fs.dir[m].serial < q.serial)
    && (forall k :: Read(fs, Reserved(p, k)) == [])
    && (q.pc.PubUnreserve? || q.pc.PubLink? || q.pc.PubCopyOpen? ==>
          forall m :: m in fs.dir ==> fs.dir[m] != CopyOf(p, q.pc.b))
    && (q.pc.PubCopy? ==>
          q.pc.b in fs.dir && fs.dir[q.pc.b] == CopyOf(p, q.pc.b) && OnlyAt(fs, CopyOf(p, q.pc.b), q.pc.b))
  }

  // What a Rollback would put back is the settled content.
  predicate UndoReady(fs: Fs, settled: Option<Bytes>, p: Pid, q: Pending) {
    match q.backup
    case None => settled == None
    case Some(b) => b in fs.dir && Content(fs, b) == settled && (!q.messy ==> fs.dir[b] != Staged(p))
  }

  predicate InPlace(fs: Fs, settled: Option<Bytes>, p: Pid, q: Pending) {
    && Public(q.dest) in fs.dir
    && fs.dir[Public(q.dest)] == Staged(p)
    && if q.exchanged then q.temp in fs.dir && Content(fs, q.temp) == settled else UndoReady(fs, settled, p, q)
  }

  predicate Undisturbed(fs: Fs, settled: Option<Bytes>, q: Pending) {
    Content(fs, Public(q.dest)) == settled
  }

  /** What the destination and the backup hold at each point of a call. */
  predicate DestInv(fs: Fs, settled: Option<Bytes>, p: Pid, q: Pending) {
    match q.pc
    case Idle => Live(q) ==> InPlace(fs, settled, p, q)
    case ComClean | RbSwap | RbRestore | RbRemoveDest => InPlace(fs, settled, p, q)
    case Unlocking | PubStat | PubCopyUndo(_) | PubDropBackup(_) | PubUndo | AbsLink | ExSwap |
         RbDropStaged => Undisturbed(fs, settled, q)
    case PubReserve | PubUnreserve(_) | PubLink(_) | PubCopyOpen(_) => Undisturbed(fs, settled, q) && settled.Some?
    case PubCopy(b) =>
      Undisturbed(fs, settled, q) && settled.Some? && Read(fs, CopyOf(p, b)) <= settled.value
    case PubRename => Undisturbed(fs, settled, q) && UndoReady(fs, settled, p, q)
    case AbsRemoveTemp | AbsUndo =>
      Public(q.dest) in fs.dir && fs.dir[Public(q.dest)] == Staged(p) && settled == None
    case _ => true
  }

  // A private name that a Pending still needs.
  predicate Needs(q: Pending, n: Name) {
    || (n == q.temp && if q.published then q.exchanged && !q.done else !q.retired)
    || q.backup == Some(n)
    || ((q.pc.PubUnreserve? || q.pc.PubCopy? || q.pc.PubCopyUndo? || q.pc.PubDropBackup?) && n == q.pc.b)
  }

  ghost predicate LeftoverInv(fs: Fs, p: Pid, q: Pending) {
    forall n :: n in fs.dir && n.Private? && n.owner == p ==> n.serial < q.serial && (q.messy || Needs(q, n))
  }

  // The record and the lock table; the directory.
  predicate RecordInv(l: Local, p: Pid) {
    LockInv(l.lk, p, l.q) && FlagInv(l.q) && NameInv(p, l.q)
  }

  ghost predicate FilesInv(l: Local, settled: Option<Bytes>, p: Pid) {
    InodeInv(l.fs, p, l.q) && DestInv(l.fs, settled, p, l.q) && LeftoverInv(l.fs, p, l.q)
  }

  ghost predicate LocalInv(l: Local, settled: Option<Bytes>, p: Pid) {
    RecordInv(l, p) && FilesInv(l, settled, p) && l.event.None?
  }

  // ---- What one move may do ------------------------------------------------------------

  /** A move of p changes its own names, and a destination only while p holds its lock. */
  predicate MayTouch(lk: LockTable.State, p: Pid, n: Name) {
    match n
    case Public(path) => Holds(lk, p, path)
    case Private(owner, _) => owner == p
  }

  ghost predicate DirFrame(l: Local, fs: Fs, p: Pid) {
    forall n :: !MayTouch(l.lk, p, n) ==>
      (n in l.fs.dir <==> n in fs.dir) && (n in fs.dir ==> l.fs.dir[n] == fs.dir[n])
  }

  // A link that a move adds leads to p's own inode, or to one that was linked where p may look.
  ghost predicate LinkFrame(l: Local, fs: Fs, p: Pid) {
    forall n :: n in fs.dir ==>
      || (n in l.fs.dir && l.fs.dir[n] == fs.dir[n])
      || Owned(fs.dir[n], p)
      || (exists m :: m in l.fs.dir && MayTouch(l.lk, p, m) && l.fs.dir[m] == fs.dir[n])
  }

  // A move writes only to an inode of p that no one but p can name.
  ghost predicate DataFrame(l: Local, fs: Fs, p: Pid) {
    forall i :: Read(l.fs, i) != Read(fs, i) ==>
      Owned(i, p) && forall n :: n in l.fs.dir && l.fs.dir[n] == i ==> n.Private? && n.owner == p
  }

  // A Pending enters the history when it commits, or when undoing it fails.
  predicate EventFrame(l: Local, l': Local, p: Pid) {
    && (l.q.committed ==> l'.q.committed)
    && (l.q.messy ==> l'.q.messy)
    && match l'.event
       case None => true
       case Some(Committed(path, bytes, owner)) =>
         owner == p && Holds(l.lk, p, path) && path == l'.q.dest && bytes == Read(l'.fs, Staged(p)) && l'.q.committed
       case Some(Stranded(path, bytes, owner)) =>
         owner == p && Holds(l.lk, p, path) && path == l'.q.dest && bytes == Read(l'.fs, Staged(p)) && l'.q.messy
  }

  ghost predicate Frame(l: Local, l': Local, p: Pid) {
    DirFrame(l, l'.fs, p) && LinkFrame(l, l'.fs, p) && DataFrame(l, l'.fs, p) && EventFrame(l, l', p)
  }

  function SettledNow(l': Local, settled: Option<Bytes>): Option<Bytes> {
    if l'.event.Some? then Some(l'.event.value.bytes) else settled
  }

  /** A Pending gives its destination back with the settled content. */
  predicate ReleaseInv(l: Local, l': Local, settled: Option<Bytes>, p: Pid) {
    Holds(l.lk, p, l.q.dest) && !Holds(l'.lk, p, l.q.dest) ==>
      Content(l'.fs, Public(l.q.dest)) == SettledNow(l', settled)
  }

  // What a move does to the rest of the system, and to the record of the Pending.
  ghost predicate Lawful(l: Local, l': Local, settled: Option<Bytes>, p: Pid) {
    Frame(l, l', p) && ReleaseInv(l, l', settled, p) && RecordInv(l', p) && l'.q.dest == l.q.dest
  }

  /** A move of p that does no harm and keeps the invariant of p. */
  ghost predicate Good(l: Local, l': Local, settled: Option<Bytes>, p: Pid) {
    Lawful(l, l', settled, p) && FilesInv(l', SettledNow(l', settled), p)
  }

  // ---- Each move keeps the invariant of the Pending that makes it ----------------------

  lemma WriteLawful(l: Local, settled: Option<Bytes>, p: Pid, chunk: Bytes)
    requires LocalInv(l, settled, p) && l.q.pc.Idle?
    ensures Lawful(l, CallStep(l, p, Write(chunk)), settled, p) && CallStep(l, p, Write(chunk)).lk == l.lk
  {
  }

  lemma WriteFiles(l: Local, settled: Option<Bytes>, p: Pid, chunk: Bytes)
    requires LocalInv(l, settled, p) && l.q.pc.Idle?
    ensures FilesInv(CallStep(l, p, Write(chunk)), SettledNow(CallStep(l, p, Write(chunk)), settled), p)
  {
  }

  lemma RelocateLawful(l: Local, settled: Option<Bytes>, p: Pid, ok: bool)
    requires LocalInv(l, settled, p) && l.q.pc.Idle? && !l.q.abandoned
    ensures Lawful(l, RelocateStep(l, p, ok), settled, p) && RelocateStep(l, p, ok).lk == l.lk
  {
  }

  lemma RelocateFiles(l: Local, settled: Option<Bytes>, p: Pid, ok: bool)
    requires LocalInv(l, settled, p) && l.q.pc.Idle? && !l.q.abandoned
    ensures FilesInv(RelocateStep(l, p, ok), SettledNow(RelocateStep(l, p, ok), settled), p)
  {
  }

  lemma CloseLawful(l: Local, settled: Option<Bytes>, p: Pid, ok: bool)
    requires LocalInv(l, settled, p) && l.q.pc.Idle?
    ensures Lawful(l, CallStep(l, p, Close(ok)), settled, p) && CallStep(l, p, Close(ok)).lk == l.lk
  {
  }

  lemma CloseFiles(l: Local, settled: Option<Bytes>, p: Pid, ok: bool)
    requires LocalInv(l, settled, p) && l.q.pc.Idle?
    ensures FilesInv(CallStep(l, p, Close(ok)), SettledNow(CallStep(l, p, Close(ok)), settled), p)
  {
  }

  lemma CommitLawful(l: Local, settled: Option<Bytes>, p: Pid)
    requires LocalInv(l, settled, p) && l.q.pc.Idle? && !l.q.abandoned
    ensures Lawful(l, CallStep(l, p, Commit), settled, p) && CallStep(l, p, Commit).lk == l.lk
  {
  }

  lemma CommitFiles(l: Local, settled: Option<Bytes>, p: Pid)
    requires LocalInv(l, settled, p) && l.q.pc.Idle? && !l.q.abandoned
    ensures FilesInv(CallStep(l, p, Commit), SettledNow(CallStep(l, p, Commit), settled), p)
  {
  }

  lemma RollbackLawful(l: Local, settled: Option<Bytes>, p: Pid)
    requires LocalInv(l, settled, p) && l.q.pc.Idle? && !l.q.abandoned
    ensures Lawful(l, CallStep(l, p, Rollback), settled, p) && CallStep(l, p, Rollback).lk == l.lk
  {
    var l' := CallStep(l, p, Rollback);
    assert l' == if l.q.done then l else Goto(l, RollbackStart(l.q));
    assert l'.fs == l.fs && l'.lk == l.lk && l'.event == l.event;
  }

  lemma RollbackFiles(l: Local, settled: Option<Bytes>, p: Pid)
    requires LocalInv(l, settled, p) && l.q.pc.Idle? && !l.q.abandoned
    ensures FilesInv(CallStep(l, p, Rollback), SettledNow(CallStep(l, p, Rollback), settled), p)
  {
  }

  lemma ChmodLawful(l: Local, settled: Option<Bytes>, p: Pid, ok: bool)
    requires LocalInv(l, settled, p) && l.q.pc.CreateChmod?
    ensures Lawful(l, Goto(l, if ok then Idle else CreateUndo), settled, p) &&
      Goto(l, if ok then Idle else CreateUndo).lk == l.lk
  {
  }

  lemma ChmodFiles(l: Local, settled: Option<Bytes>, p: Pid, ok: bool)
    requires LocalInv(l, settled, p) && l.q.pc.CreateChmod?
    ensures FilesInv(Goto(l, if ok then Idle else CreateUndo),
      SettledNow(Goto(l, if ok then Idle else CreateUndo), settled), p)
  {
  }

  lemma CreateUndoLawful(l: Local, settled: Option<Bytes>, p: Pid, ok: bool)
    requires LocalInv(l, settled, p) && l.q.pc.CreateUndo?
    ensures Lawful(l, CreateUndoStep(l, ok), settled, p) && CreateUndoStep(l, ok).lk == l.lk
  {
  }

  lemma CreateUndoFiles(l: Local, settled: Option<Bytes>, p: Pid, ok: bool)
    requires LocalInv(l, settled, p) && l.q.pc.CreateUndo?
    ensures FilesInv(CreateUndoStep(l, ok), SettledNow(CreateUndoStep(l, ok), settled), p)
  {
  }

  lemma StatLawful(l: Local, settled: Option<Bytes>, p: Pid, ok: bool)
    requires LocalInv(l, settled, p) && l.q.pc.PubStat?
    ensures Lawful(l, StatStep(l, p, ok), settled, p) && StatStep(l, p, ok).lk == l.lk
  {
  }

  lemma StatFiles(l: Local, settled: Option<Bytes>, p: Pid, ok: bool)
    requires LocalInv(l, settled, p) && l.q.pc.PubStat?
    ensures FilesInv(StatStep(l, p, ok), SettledNow(StatStep(l, p, ok), settled), p)
  {
  }

  lemma ReserveLawful(l: Local, settled: Option<Bytes>, p: Pid, ok: bool)
    requires LocalInv(l, settled, p) && l.q.pc.PubReserve?
    ensures Lawful(l, ReserveStep(l, p, ok), settled, p) && ReserveStep(l, p, ok).lk == l.lk
  {
  }

  lemma ReserveFiles(l: Local, settled: Option<Bytes>, p: Pid, ok: bool)
    requires LocalInv(l, settled, p) && l.q.pc.PubReserve?
    ensures FilesInv(ReserveStep(l, p, ok), SettledNow(ReserveStep(l, p, ok), settled), p)
  {
  }

  lemma UnreserveLawful(l: Local, settled: Option<Bytes>, p: Pid, ok: bool, n: nat)
    requires LocalInv(l, settled, p) && l.q.pc.PubUnreserve?
    ensures Lawful(l, UnreserveStep(l, p, l.q.pc.b, ok, n), settled, p) &&
      UnreserveStep(l, p, l.q.pc.b, ok, n).lk == l.lk
  {
  }

  lemma UnreserveFiles(l: Local, settled: Option<Bytes>, p: Pid, ok: bool, n: nat)
    requires LocalInv(l, settled, p) && l.q.pc.PubUnreserve?
    ensures FilesInv(UnreserveStep(l, p, l.q.pc.b, ok, n), SettledNow(UnreserveStep(l, p, l.q.pc.b, ok, n), settled), p)
  {
  }

  lemma LinkLawful(l: Local, settled: Option<Bytes>, p: Pid, ok: bool)
    requires LocalInv(l, settled, p) && l.q.pc.PubLink?
    ensures Lawful(l, LinkStep(l, l.q.pc.b, ok), settled, p) && LinkStep(l, l.q.pc.b, ok).lk == l.lk
  {
  }

  lemma LinkFiles(l: Local, settled: Option<Bytes>, p: Pid, ok: bool)
    requires LocalInv(l, settled, p) && l.q.pc.PubLink?
    ensures FilesInv(LinkStep(l, l.q.pc.b, ok), SettledNow(LinkStep(l, l.q.pc.b, ok), settled), p)
  {
  }

  lemma CopyOpenLawful(l: Local, settled: Option<Bytes>, p: Pid, ok: bool)
    requires LocalInv(l, settled, p) && l.q.pc.PubCopyOpen?
    ensures Lawful(l, CopyOpenStep(l, p, l.q.pc.b, ok), settled, p) && CopyOpenStep(l, p, l.q.pc.b, ok).lk == l.lk
  {
  }

  lemma CopyOpenFiles(l: Local, settled: Option<Bytes>, p: Pid, ok: bool)
    requires LocalInv(l, settled, p) && l.q.pc.PubCopyOpen?
    ensures FilesInv(CopyOpenStep(l, p, l.q.pc.b, ok), SettledNow(CopyOpenStep(l, p, l.q.pc.b, ok), settled), p)
  {
  }

  lemma CopyLawful(l: Local, settled: Option<Bytes>, p: Pid, ok: bool, n: nat)
    requires LocalInv(l, settled, p) && l.q.pc.PubCopy?
    ensures Lawful(l, CopyStep(l, l.q.pc.b, ok, n), settled, p) && CopyStep(l, l.q.pc.b, ok, n).lk == l.lk
  {
  }

  lemma CopyFiles(l: Local, settled: Option<Bytes>, p: Pid, ok: bool, n: nat)
    requires LocalInv(l, settled, p) && l.q.pc.PubCopy?
    ensures FilesInv(CopyStep(l, l.q.pc.b, ok, n), SettledNow(CopyStep(l, l.q.pc.b, ok, n), settled), p)
  {
    var sofar := Read(l.fs, CopyOf(p, l.q.pc.b));
    assert |sofar| >= |settled.value| ==> sofar == settled.value;
  }

  lemma CopyUndoLawful(l: Local, settled: Option<Bytes>, p: Pid, ok: bool)
    requires LocalInv(l, settled, p) && l.q.pc.PubCopyUndo?
    ensures Lawful(l, Goto(Dispose(l, l.q.pc.b, ok), PubDropBackup(l.q.pc.b)), settled, p) &&
      Goto(Dispose(l, l.q.pc.b, ok), PubDropBackup(l.q.pc.b)).lk == l.lk
  {
  }

  lemma CopyUndoFiles(l: Local, settled: Option<Bytes>, p: Pid, ok: bool)
    requires LocalInv(l, settled, p) && l.q.pc.PubCopyUndo?
    ensures FilesInv(Goto(Dispose(l, l.q.pc.b, ok), PubDropBackup(l.q.pc.b)),
      SettledNow(Goto(Dispose(l, l.q.pc.b, ok), PubDropBackup(l.q.pc.b)), settled), p)
  {
  }

  lemma DropBackupLawful(l: Local, settled: Option<Bytes>, p: Pid, ok: bool)
    requires LocalInv(l, settled, p) && l.q.pc.PubDropBackup?
    ensures Lawful(l, Unlock(Dispose(l, l.q.pc.b, ok), p), settled, p) && Unlock(Dispose(l, l.q.pc.b, ok), p).lk == l.lk
  {
  }

  lemma DropBackupFiles(l: Local, settled: Option<Bytes>, p: Pid, ok: bool)
    requires LocalInv(l, settled, p) && l.q.pc.PubDropBackup?
    ensures FilesInv(Unlock(Dispose(l, l.q.pc.b, ok), p), SettledNow(Unlock(Dispose(l, l.q.pc.b, ok), p), settled), p)
  {
  }

  lemma RenameLawful(l: Local, settled: Option<Bytes>, p: Pid, ok: bool)
    requires LocalInv(l, settled, p) && l.q.pc.PubRename?
    ensures Lawful(l, RenameStep(l, ok), settled, p) && RenameStep(l, ok).lk == l.lk
  {
    if ok && l.q.temp in l.fs.dir { RenamedLawful(l, settled, p); }
    else { assert RenameStep(l, ok) == Goto(l, PubUndo); }
  }

  lemma RenamedLawful(l: Local, settled: Option<Bytes>, p: Pid)
    requires LocalInv(l, settled, p) && l.q.pc.PubRename? && l.q.temp in l.fs.dir
    ensures Lawful(l, RenameStep(l, true), settled, p) && RenameStep(l, true).lk == l.lk
  {
    assert RenameStep(l, true).fs == Rename(l.fs, l.q.temp, Public(l.q.dest));
  }

  lemma RenameFiles(l: Local, settled: Option<Bytes>, p: Pid, ok: bool)
    requires LocalInv(l, settled, p) && l.q.pc.PubRename?
    ensures FilesInv(RenameStep(l, ok), SettledNow(RenameStep(l, ok), settled), p)
  {
  }

  lemma UndoLawful(l: Local, settled: Option<Bytes>, p: Pid, ok: bool)
    requires LocalInv(l, settled, p) && l.q.pc.PubUndo?
    ensures Lawful(l, UndoStep(l, p, ok), settled, p) && UndoStep(l, p, ok).lk == l.lk
  {
    if l.q.backup.None? || !ok { KeepingBackupLawful(l, settled, p, ok); } else { RemovingBackupLawful(l, settled, p); }
  }

  lemma KeepingBackupLawful(l: Local, settled: Option<Bytes>, p: Pid, ok: bool)
    requires LocalInv(l, settled, p) && l.q.pc.PubUndo? && (l.q.backup.None? || !ok)
    ensures Lawful(l, UndoStep(l, p, ok), settled, p) && UndoStep(l, p, ok).lk == l.lk
  {
    assert UndoStep(l, p, ok).fs == l.fs;
  }

  lemma RemovingBackupLawful(l: Local, settled: Option<Bytes>, p: Pid)
    requires LocalInv(l, settled, p) && l.q.pc.PubUndo? && l.q.backup.Some?
    ensures Lawful(l, UndoStep(l, p, true), settled, p) && UndoStep(l, p, true).lk == l.lk
  {
    assert UndoStep(l, p, true).fs == Remove(l.fs, l.q.backup.value);
  }

  lemma UndoFiles(l: Local, settled: Option<Bytes>, p: Pid, ok: bool)
    requires LocalInv(l, settled, p) && l.q.pc.PubUndo?
    ensures FilesInv(UndoStep(l, p, ok), SettledNow(UndoStep(l, p, ok), settled), p)
  {
    if l.q.backup.None? || !ok { KeepingBackupFiles(l, settled, p, ok); } else { RemovingBackupFiles(l, settled, p); }
  }

  lemma KeepingBackupFiles(l: Local, settled: Option<Bytes>, p: Pid, ok: bool)
    requires LocalInv(l, settled, p) && l.q.pc.PubUndo? && (l.q.backup.None? || !ok)
    ensures FilesInv(UndoStep(l, p, ok), SettledNow(UndoStep(l, p, ok), settled), p)
  {
    assert UndoStep(l, p, ok).fs == l.fs;
  }

  lemma RemovingBackupFiles(l: Local, settled: Option<Bytes>, p: Pid)
    requires LocalInv(l, settled, p) && l.q.pc.PubUndo? && l.q.backup.Some?
    ensures FilesInv(UndoStep(l, p, true), SettledNow(UndoStep(l, p, true), settled), p)
  {
    assert UndoStep(l, p, true).fs == Remove(l.fs, l.q.backup.value);
  }

  lemma AbsentLinkLawful(l: Local, settled: Option<Bytes>, p: Pid, ok: bool)
    requires LocalInv(l, settled, p) && l.q.pc.AbsLink?
    ensures Lawful(l, AbsentLinkStep(l, p, ok), settled, p) && AbsentLinkStep(l, p, ok).lk == l.lk
  {
  }

  lemma AbsentLinkFiles(l: Local, settled: Option<Bytes>, p: Pid, ok: bool)
    requires LocalInv(l, settled, p) && l.q.pc.AbsLink?
    ensures FilesInv(AbsentLinkStep(l, p, ok), SettledNow(AbsentLinkStep(l, p, ok), settled), p)
  {
  }

  lemma AbsentRemoveLawful(l: Local, settled: Option<Bytes>, p: Pid, ok: bool)
    requires LocalInv(l, settled, p) && l.q.pc.AbsRemoveTemp?
    ensures Lawful(l, AbsentRemoveStep(l, ok), settled, p) && AbsentRemoveStep(l, ok).lk == l.lk
  {
  }

  lemma AbsentRemoveFiles(l: Local, settled: Option<Bytes>, p: Pid, ok: bool)
    requires LocalInv(l, settled, p) && l.q.pc.AbsRemoveTemp?
    ensures FilesInv(AbsentRemoveStep(l, ok), SettledNow(AbsentRemoveStep(l, ok), settled), p)
  {
  }

  lemma AbsentUndoLawful(l: Local, settled: Option<Bytes>, p: Pid, ok: bool)
    requires LocalInv(l, settled, p) && l.q.pc.AbsUndo?
    ensures Lawful(l, AbsentUndoStep(l, p, ok), settled, p) && AbsentUndoStep(l, p, ok).lk == l.lk
  {
  }

  lemma AbsentUndoFiles(l: Local, settled: Option<Bytes>, p: Pid, ok: bool)
    requires LocalInv(l, settled, p) && l.q.pc.AbsUndo?
    ensures FilesInv(AbsentUndoStep(l, p, ok), SettledNow(AbsentUndoStep(l, p, ok), settled), p)
  {
  }

  lemma ExchangeLawful(l: Local, settled: Option<Bytes>, p: Pid, ok: bool)
    requires LocalInv(l, settled, p) && l.q.pc.ExSwap?
    ensures Lawful(l, ExchangeStep(l, p, ok), settled, p) && ExchangeStep(l, p, ok).lk == l.lk
  {
  }

  lemma ExchangeFiles(l: Local, settled: Option<Bytes>, p: Pid, ok: bool)
    requires LocalInv(l, settled, p) && l.q.pc.ExSwap?
    ensures FilesInv(ExchangeStep(l, p, ok), SettledNow(ExchangeStep(l, p, ok), settled), p)
  {
  }

  lemma CommitCleanLawful(l: Local, settled: Option<Bytes>, p: Pid, ok: bool)
    requires LocalInv(l, settled, p) && l.q.pc.ComClean?
    ensures Lawful(l, CommitStep(l, p, ok), settled, p) && CommitStep(l, p, ok).lk == l.lk
  {
  }

  lemma CommitCleanFiles(l: Local, settled: Option<Bytes>, p: Pid, ok: bool)
    requires LocalInv(l, settled, p) && l.q.pc.ComClean?
    ensures FilesInv(CommitStep(l, p, ok), SettledNow(CommitStep(l, p, ok), settled), p)
  {
  }

  lemma RollbackCloseLawful(l: Local, settled: Option<Bytes>, p: Pid, ok: bool)
    requires LocalInv(l, settled, p) && l.q.pc.RbClose?
    ensures Lawful(l, SysStep(l, p, ok, 0), settled, p) && SysStep(l, p, ok, 0).lk == l.lk
  {
  }

  lemma RollbackCloseFiles(l: Local, settled: Option<Bytes>, p: Pid, ok: bool)
    requires LocalInv(l, settled, p) && l.q.pc.RbClose?
    ensures FilesInv(SysStep(l, p, ok, 0), SettledNow(SysStep(l, p, ok, 0), settled), p)
  {
  }

  lemma RemoveTempLawful(l: Local, settled: Option<Bytes>, p: Pid, ok: bool)
    requires LocalInv(l, settled, p) && l.q.pc.RbRemoveTemp?
    ensures Lawful(l, RemoveTempStep(l, p, l.q.pc.closeFailed, ok), settled, p) &&
      RemoveTempStep(l, p, l.q.pc.closeFailed, ok).lk == l.lk
  {
  }

  lemma RemoveTempFiles(l: Local, settled: Option<Bytes>, p: Pid, ok: bool)
    requires LocalInv(l, settled, p) && l.q.pc.RbRemoveTemp?
    ensures FilesInv(RemoveTempStep(l, p, l.q.pc.closeFailed, ok),
      SettledNow(RemoveTempStep(l, p, l.q.pc.closeFailed, ok), settled), p)
  {
  }

  lemma SwapBackLawful(l: Local, settled: Option<Bytes>, p: Pid, ok: bool)
    requires LocalInv(l, settled, p) && l.q.pc.RbSwap?
    ensures Lawful(l, SwapBackStep(l, p, ok), settled, p) && SwapBackStep(l, p, ok).lk == l.lk
  {
  }

  lemma SwapBackFiles(l: Local, settled: Option<Bytes>, p: Pid, ok: bool)
    requires LocalInv(l, settled, p) && l.q.pc.RbSwap?
    ensures FilesInv(SwapBackStep(l, p, ok), SettledNow(SwapBackStep(l, p, ok), settled), p)
  {
  }

  lemma DropStagedLawful(l: Local, settled: Option<Bytes>, p: Pid, ok: bool)
    requires LocalInv(l, settled, p) && l.q.pc.RbDropStaged?
    ensures Lawful(l, DropStagedStep(l, p, ok), settled, p) && DropStagedStep(l, p, ok).lk == l.lk
  {
  }

  lemma DropStagedFiles(l: Local, settled: Option<Bytes>, p: Pid, ok: bool)
    requires LocalInv(l, settled, p) && l.q.pc.RbDropStaged?
    ensures FilesInv(DropStagedStep(l, p, ok), SettledNow(DropStagedStep(l, p, ok), settled), p)
  {
  }

  lemma RestoreLawful(l: Local, settled: Option<Bytes>, p: Pid, ok: bool)
    requires LocalInv(l, settled, p) && l.q.pc.RbRestore?
    ensures Lawful(l, RestoreStep(l, p, ok), settled, p) && RestoreStep(l, p, ok).lk == l.lk
  {
  }

  lemma RestoreFiles(l: Local, settled: Option<Bytes>, p: Pid, ok: bool)
    requires LocalInv(l, settled, p) && l.q.pc.RbRestore?
    ensures FilesInv(RestoreStep(l, p, ok), SettledNow(RestoreStep(l, p, ok), settled), p)
  {
  }

  lemma RemoveDestLawful(l: Local, settled: Option<Bytes>, p: Pid, ok: bool)
    requires LocalInv(l, settled, p) && l.q.pc.RbRemoveDest?
    ensures Lawful(l, RemoveDestStep(l, p, ok), settled, p) && RemoveDestStep(l, p, ok).lk == l.lk
  {
  }

  lemma RemoveDestFiles(l: Local, settled: Option<Bytes>, p: Pid, ok: bool)
    requires LocalInv(l, settled, p) && l.q.pc.RbRemoveDest?
    ensures FilesInv(RemoveDestStep(l, p, ok), SettledNow(RemoveDestStep(l, p, ok), settled), p)
  {
  }

  // Retargeting moves the Pending to the history of another destination.
  lemma RetargetGood(l: Local, settled: Option<Bytes>, p: Pid, path: string, settled': Option<Bytes>)
    requires LocalInv(l, settled, p) && l.q.pc.Idle? && !l.q.done && !l.q.published
    ensures var l' := CallStep(l, p, Retarget(path));
            Frame(l, l', p) && RecordInv(l', p) && FilesInv(l', settled', p) && ReleaseInv(l, l', settled, p)
  {
  }

  // A move that changes nothing.
  lemma StayGood(l: Local, settled: Option<Bytes>, p: Pid)
    requires LocalInv(l, settled, p)
    ensures Good(l, l, settled, p)
  {
  }

  lemma CallGood(l: Local, settled: Option<Bytes>, p: Pid, op: Op)
    requires LocalInv(l, settled, p) && l.q.pc.Idle?
    ensures Good(l, CallStep(l, p, Call(op)), settled, p)
  {
  }

  // A move inside the lock table.
  predicate LockMove(l: Local, l': Local, settled: Option<Bytes>) {
    && l' == Goto(l, l'.q.pc).(lk := l'.lk)
    && match l.q.pc
       case Acquiring(op) => l'.q.pc == l.q.pc || (l'.q.pc == First(op) && Undisturbed(l.fs, settled, l.q))
       case Unlocking => l'.q.pc.Releasing?
       case Releasing => l'.q.pc.Releasing? || l'.q.pc.Idle?
       case _ => false
  }

  lemma LockMoveLawful(l: Local, l': Local, settled: Option<Bytes>, p: Pid)
    requires LocalInv(l, settled, p) && LockMove(l, l', settled) && LockInv(l'.lk, p, l'.q)
    ensures Lawful(l, l', settled, p)
  {
  }

  lemma LockMoveFiles(l: Local, l': Local, settled: Option<Bytes>, p: Pid)
    requires LocalInv(l, settled, p) && LockMove(l, l', settled)
    ensures FilesInv(l', SettledNow(l', settled), p)
  {
  }

  lemma LockStepMoves(l: Local, settled: Option<Bytes>, p: Pid)
    requires LockInv(l.lk, p, l.q) && FlagInv(l.q)
    requires l.q.pc.Acquiring? && Holds(LockTable.Next(l.lk, p), p, l.q.dest) ==> Undisturbed(l.fs, settled, l.q)
    requires l.q.pc.Acquiring? || l.q.pc.Unlocking? || l.q.pc.Releasing?
    ensures LockMove(l, LockStep(l, p), settled) && LockInv(LockStep(l, p).lk, p, LockStep(l, p).q)
  {
  }

  // Up to the copy of the backup, and from there.
  predicate Linking(pc: Pc) {
    pc.PubUnreserve? || pc.PubLink? || pc.PubCopyOpen?
  }

  lemma LinkingGood(l: Local, settled: Option<Bytes>, p: Pid, ok: bool, n: nat)
    requires LocalInv(l, settled, p) && Linking(l.q.pc)
    ensures Good(l, SysStep(l, p, ok, n), settled, p) && SysStep(l, p, ok, n).lk == l.lk
  {
    match l.q.pc
    case PubUnreserve(b) => UnreserveLawful(l, settled, p, ok, n); UnreserveFiles(l, settled, p, ok, n);
    case PubLink(b) => LinkLawful(l, settled, p, ok); LinkFiles(l, settled, p, ok);
    case PubCopyOpen(b) => CopyOpenLawful(l, settled, p, ok); CopyOpenFiles(l, settled, p, ok);
  }

  lemma CopyingGood(l: Local, settled: Option<Bytes>, p: Pid, ok: bool, n: nat)
    requires LocalInv(l, settled, p) && WithBackupName(l.q.pc) && !Linking(l.q.pc)
    ensures Good(l, SysStep(l, p, ok, n), settled, p) && SysStep(l, p, ok, n).lk == l.lk
  {
    match l.q.pc
    case PubCopy(b) => CopyLawful(l, settled, p, ok, n); CopyFiles(l, settled, p, ok, n);
    case PubCopyUndo(b) => CopyUndoLawful(l, settled, p, ok); CopyUndoFiles(l, settled, p, ok);
    case PubDropBackup(b) => DropBackupLawful(l, settled, p, ok); DropBackupFiles(l, settled, p, ok);
  }

  lemma PublishGood(l: Local, settled: Option<Bytes>, p: Pid, ok: bool, n: nat)
    requires LocalInv(l, settled, p)
    requires l.q.pc.PubStat? || l.q.pc.PubReserve? || l.q.pc.PubRename? || l.q.pc.PubUndo?
    ensures Good(l, SysStep(l, p, ok, n), settled, p) && SysStep(l, p, ok, n).lk == l.lk
  {
    match l.q.pc
    case PubStat => StatLawful(l, settled, p, ok); StatFiles(l, settled, p, ok);
    case PubReserve => ReserveLawful(l, settled, p, ok); ReserveFiles(l, settled, p, ok);
    case PubRename => RenameLawful(l, settled, p, ok); RenameFiles(l, settled, p, ok);
    case PubUndo => UndoLawful(l, settled, p, ok); UndoFiles(l, settled, p, ok);
  }

  lemma OtherGood(l: Local, settled: Option<Bytes>, p: Pid, ok: bool, n: nat)
    requires LocalInv(l, settled, p)
    requires l.q.pc.CreateChmod? || l.q.pc.CreateUndo? || l.q.pc.AbsLink? || l.q.pc.AbsRemoveTemp? || l.q.pc.AbsUndo? ||
             l.q.pc.ExSwap?
    ensures Good(l, SysStep(l, p, ok, n), settled, p) && SysStep(l, p, ok, n).lk == l.lk
  {
    match l.q.pc
    case CreateChmod => ChmodLawful(l, settled, p, ok); ChmodFiles(l, settled, p, ok);
    case CreateUndo => CreateUndoLawful(l, settled, p, ok); CreateUndoFiles(l, settled, p, ok);
    case AbsLink => AbsentLinkLawful(l, settled, p, ok); AbsentLinkFiles(l, settled, p, ok);
    case AbsRemoveTemp => AbsentRemoveLawful(l, settled, p, ok); AbsentRemoveFiles(l, settled, p, ok);
    case AbsUndo => AbsentUndoLawful(l, settled, p, ok); AbsentUndoFiles(l, settled, p, ok);
    case ExSwap => ExchangeLawful(l, settled, p, ok); ExchangeFiles(l, settled, p, ok);
  }

  lemma EndGood(l: Local, settled: Option<Bytes>, p: Pid, ok: bool, n: nat)
    requires LocalInv(l, settled, p)
    requires l.q.pc.ComClean? || l.q.pc.RbRestore? || l.q.pc.RbRemoveDest?
    ensures Good(l, SysStep(l, p, ok, n), settled, p) && SysStep(l, p, ok, n).lk == l.lk
  {
    match l.q.pc
    case ComClean => CommitCleanLawful(l, settled, p, ok); CommitCleanFiles(l, settled, p, ok);
    case RbRestore => RestoreLawful(l, settled, p, ok); RestoreFiles(l, settled, p, ok);
    case RbRemoveDest => RemoveDestLawful(l, settled, p, ok); RemoveDestFiles(l, settled, p, ok);
  }

  lemma RollbackGood(l: Local, settled: Option<Bytes>, p: Pid, ok: bool, n: nat)
    requires LocalInv(l, settled, p)
    requires l.q.pc.RbClose? || l.q.pc.RbRemoveTemp?
    ensures Good(l, SysStep(l, p, ok, n), settled, p) && SysStep(l, p, ok, n).lk == l.lk
  {
    match l.q.pc
    case RbClose => RollbackCloseLawful(l, settled, p, ok); RollbackCloseFiles(l, settled, p, ok);
    case RbRemoveTemp(_) => RemoveTempLawful(l, settled, p, ok); RemoveTempFiles(l, settled, p, ok);
  }

  lemma SwapBackGood(l: Local, settled: Option<Bytes>, p: Pid, ok: bool, n: nat)
    requires LocalInv(l, settled, p)
    requires l.q.pc.RbSwap? || l.q.pc.RbDropStaged?
    ensures Good(l, SysStep(l, p, ok, n), settled, p) && SysStep(l, p, ok, n).lk == l.lk
  {
    match l.q.pc
    case RbSwap => SwapBackLawful(l, settled, p, ok); SwapBackFiles(l, settled, p, ok);
    case RbDropStaged => DropStagedLawful(l, settled, p, ok); DropStagedFiles(l, settled, p, ok);
  }
}
