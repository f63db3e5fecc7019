/**
 The Pending of the source as an object: its methods make the system calls in the source's order
 and update its fields.

 Every system call fails or succeeds as it likes.  Beside the directory runs the machine of module
 Publication, and every method is shown to be a run of that machine by one goroutine.
 */
module PendingFile {
  import opened Wrappers
  import opened Disk
  import opened Publication
  import LockTable

  // ---- Runs of one goroutine -----------------------------------------------------------

  ghost predicate Closed(states: iset<State>, p: Pid) {
    forall s: State, a: Action :: s in states && Allowed(s, p, a) ==> Next(s, p, a) in states
  }

  // The machine gets from s to t by moves of p alone, as a well-behaved caller makes them: t is in every
  // set of states that has s and is closed under those moves.
  ghost predicate Reaches(s: State, p: Pid, t: State) {
    forall states: iset<State> :: s in states && Closed(states, p) ==> t in states
  }

  lemma Stays(s: State, p: Pid)
    ensures Reaches(s, p, s)
  {
  }

  lemma Then(s: State, p: Pid, t: State, u: State)
    requires Reaches(s, p, t) && Reaches(t, p, u)
    ensures Reaches(s, p, u)
  {
  }

  lemma Moves(s: State, p: Pid, a: Action)
    requires Allowed(s, p, a)
    ensures Reaches(s, p, Next(s, p, a))
  {
  }

  // ---- The directory -------------------------------------------------------------------

  class Directory {
    var fs: Fs
    ghost var s: State
    ghost var faults: nat     // system calls that failed although the directory allowed them
    ghost var refusals: nat   // hard links that the system refused

    constructor (fs: Fs, ghost s: State)
      ensures this.fs == fs && this.s == s
    {
      this.fs, this.s, faults, refusals := fs, s, 0, 0;
    }

    ghost method Move(p: Pid, a: Action)
      requires p in s.pend && Allowed(s, p, a)
      modifies this`s
      ensures Reaches(old(s), p, s)
      ensures var l := Step(View(old(s), p), p, a);
        p in s.pend && s.pend[p] == l.q && s.fs == l.fs && s.lk == l.lk
    {
      Moves(s, p, a);
      s := Next(s, p, a);
    }

    // The same, where the caller names the part of the machine's step that applies.
    ghost method MoveTo(p: Pid, a: Action, l: Local)
      requires p in s.pend && Allowed(s, p, a) && l == Step(View(s, p), p, a)
      modifies this`s
      ensures Reaches(old(s), p, s) && p in s.pend && s.pend[p] == l.q && s.fs == l.fs && s.lk == l.lk
    {
      Move(p, a);
    }

    // A system call that the system itself may fail.
    method Attempt() returns (ok: bool)
      modifies this`faults
      ensures faults == old(faults) + if ok then 0 else 1
    {
      ok := *;
      if !ok { faults := faults + 1; }
    }

    method CreateTemp(n: Name, i: Ino) returns (ok: bool)
      modifies this`fs, this`faults
      ensures faults == old(faults) + if ok then 0 else 1
      ensures fs == if ok then CreateFile(old(fs), n, i) else old(fs)
    {
      ok := Attempt();
      if ok { fs := CreateFile(fs, n, i); }
    }

    method Append(i: Ino, chunk: Bytes)
      modifies this`fs
      ensures fs == Disk.Append(old(fs), i, chunk)
    {
      fs := Disk.Append(fs, i, chunk);
    }

    // A new file under a free name; its inode is one that no name links to, unless the system has none.
    method CreateExclusive(n: Name, i: Ino) returns (ok: bool)
      modifies this`fs, this`faults
      ensures old(faults) <= faults && (ok <==> faults == old(faults) && n !in old(fs).dir)
      ensures ok ==> (forall m <- old(fs).dir :: old(fs).dir[m] != i) && fs == CreateFile(old(fs), n, i)
      ensures !ok ==> fs == old(fs)
    {
      ok := Attempt();
      if ok && i in fs.dir.Values {
        faults := faults + 1;
        return false;
      }
      ok := ok && n !in fs.dir;
      if ok { fs := CreateFile(fs, n, i); }
    }

    // os.Stat; a missing file is an error of its own.
    method Stat(n: Name) returns (ok: bool, present: bool)
      modifies this`faults
      ensures faults == old(faults) + if ok then 0 else 1
      ensures present <==> n in fs.dir
    {
      ok := Attempt();
      present := n in fs.dir;
    }

    // os.Link; `taken` says that it failed because the target exists.
    method Link(source: Name, target: Name) returns (ok: bool, taken: bool)
      modifies this`fs, this`refusals
      ensures old(refusals) <= refusals
      ensures ok <==> refusals == old(refusals) && source in old(fs).dir && target !in old(fs).dir
      ensures taken <==> refusals == old(refusals) && source in old(fs).dir && target in old(fs).dir
      ensures fs == if ok then Disk.Link(old(fs), source, target) else old(fs)
    {
      ok := *;
      if !ok { refusals := refusals + 1; }
      taken := ok && source in fs.dir && target in fs.dir;
      ok := ok && source in fs.dir && target !in fs.dir;
      if ok { fs := Disk.Link(fs, source, target); }
    }

    method Rename(source: Name, target: Name) returns (ok: bool)
      modifies this`fs, this`faults
      ensures old(faults) <= faults && (ok <==> faults == old(faults) && source in old(fs).dir)
      ensures fs == if ok then Disk.Rename(old(fs), source, target) else old(fs)
    {
      ok := Attempt();
      ok := ok && source in fs.dir;
      if ok { fs := Disk.Rename(fs, source, target); }
    }

    // exchangePaths
    method Exchange(left: Name, right: Name) returns (ok: bool)
      modifies this`fs, this`faults
      ensures old(faults) <= faults && (ok <==> faults == old(faults) && left in old(fs).dir && right in old(fs).dir)
      ensures fs == if ok then Swap(old(fs), left, right) else old(fs)
    {
      ok := Attempt();
      ok := ok && left in fs.dir && right in fs.dir;
      if ok { fs := Swap(fs, left, right); }
    }

    // os.Remove
    method Remove(n: Name) returns (ok: bool)
      modifies this`fs, this`faults
      ensures old(faults) <= faults && (ok <==> faults == old(faults) && n in old(fs).dir)
      ensures fs == if ok then Disk.Remove(old(fs), n) else old(fs)
    {
      ok := Attempt();
      ok := ok && n in fs.dir;
      if ok { fs := Disk.Remove(fs, n); }
    }

    // removeIfPresent
    method RemoveIfPresent(n: Name) returns (ok: bool)
      modifies this`fs, this`faults
      ensures old(faults) <= faults && (ok <==> faults == old(faults)) && (!ok ==> n in old(fs).dir)
      ensures fs == if ok then Disk.Remove(old(fs), n) else old(fs)
    {
      if n in fs.dir {
        ok := Remove(n);
      } else {
        assert fs.dir - {n} == fs.dir;
        ok := true;
      }
    }

    // removeIfPresent of a path that may be empty.
    method RemoveOptional(n: Option<Name>) returns (ok: bool)
      modifies this`fs, this`faults
      ensures old(faults) <= faults && (ok <==> faults == old(faults)) && (!ok ==> n.Some? && n.value in old(fs).dir)
      ensures fs == if ok && n.Some? then Disk.Remove(old(fs), n.value) else old(fs)
    {
      if n.None? { return true; }
      ok := RemoveIfPresent(n.value);
    }
  }

  // ---- The lock table, for a goroutine that does not have to wait -----------------------------

  // Nobody is inside the table, and nobody holds the lock of the key.
  predicate CanLock(lk: LockTable.State, p: Pid, k: string) {
    lk.table.None? && LockTable.PcOf(lk, p).Idle? && Free(lk, k)
  }

  predicate Locked(lk: LockTable.State, p: Pid, k: string) {
    var pc := LockTable.PcOf(lk, p);
    lk.table.None? && pc.Holding? && pc.key == k && pc.e < |lk.heap|
  }

  // After n statements of acquireDestinationLock.
  predicate Acquired(lk: LockTable.State, p: Pid, k: string, n: nat) {
    var pc := LockTable.PcOf(lk, p);
    match n
    case 0 => pc == LockTable.AcqTable(k) && lk.table.None? && Free(lk, k)
    case 1 => pc == LockTable.AcqLookup(k) && lk.table == Some(p) && Free(lk, k)
    case 2 => pc.AcqRef? && pc.key == k && lk.table == Some(p) && Unheld(lk, pc.e)
    case 3 => pc.AcqUnlock? && pc.key == k && lk.table == Some(p) && Unheld(lk, pc.e)
    case 4 => pc.AcqEntry? && pc.key == k && lk.table.None? && Unheld(lk, pc.e)
    case _ => Locked(lk, p, k)
  }

  predicate Free(lk: LockTable.State, k: string) {
    k in lk.entries ==> Unheld(lk, lk.entries[k])
  }

  predicate Unheld(lk: LockTable.State, e: nat) {
    e < |lk.heap| && lk.heap[e].holder.None?
  }

  lemma AcquireNext(lk: LockTable.State, p: Pid, k: string, n: nat)
    requires n < 5 && Acquired(lk, p, k, n)
    ensures Acquired(LockTable.Next(lk, p), p, k, n + 1)
    ensures LockTable.PcOf(LockTable.Next(lk, p), p).Holding? <==> n == 4
  {
  }

  // After n statements of releaseDestinationLock.
  predicate Released(lk: LockTable.State, p: Pid, n: nat) {
    var pc := LockTable.PcOf(lk, p);
    match n
    case 0 => pc.RelTable? && lk.table.None? && pc.e < |lk.heap|
    case 1 => pc.RelRef? && pc.e < |lk.heap|
    case 2 => pc.RelUnlockEntry? && pc.e < |lk.heap|
    case 3 => pc.RelDrop?
    case 4 => pc.RelUnlock?
    case _ => pc.Idle? && lk.table.None?
  }

  lemma ReleaseNext(lk: LockTable.State, p: Pid, n: nat)
    requires n < 5 && Released(lk, p, n)
    ensures Released(LockTable.Next(lk, p), p, n + 1)
    ensures LockTable.PcOf(LockTable.Next(lk, p), p).Idle? <==> n == 4
  {
  }

  function Entry(fs: Fs, n: Name): Option<Ino> {
    if n in fs.dir then Some(fs.dir[n]) else None
  }

  // No destination changes, nor the staged file.
  ghost predicate Untouched(before: Fs, after: Fs, temporary: Name) {
    && (forall path: string :: Entry(after, Public(path)) == Entry(before, Public(path)))
    && Entry(after, temporary) == Entry(before, temporary)
  }

  // No destination but one changes.
  ghost predicate OthersUntouched(before: Fs, after: Fs, destination: string) {
    forall path: string :: path != destination ==> Entry(after, Public(path)) == Entry(before, Public(path))
  }

  lemma AppendReads(fs: Fs, i: Ino, j: Ino, chunk: Bytes)
    requires i != j
    ensures Read(Append(fs, i, chunk), i) == Read(fs, i) + chunk && Read(Append(fs, i, chunk), j) == Read(fs, j)
  {
  }

  lemma SameNames(before: Fs, after: Fs, temporary: Name)
    requires after.dir == before.dir
    ensures Untouched(before, after, temporary)
  {
  }

  lemma RenameReplaces(fs: Fs, source: Name, path: string)
    requires source in fs.dir && source.Private?
    ensures var after := Rename(fs, source, Public(path));
      && OthersUntouched(fs, after, path) && Entry(after, Public(path)) == Entry(fs, source) && after.data == fs.data
  {
  }

  lemma RenameMove(l: Local, p: Pid, ok: bool)
    requires l.q.pc.PubRename?
    ensures Step(l, p, Sys(ok, 0)) == RenameStep(l, ok)
  {
    assert Step(l, p, Sys(ok, 0)) == SysStep(l, p, ok, 0);
  }

  lemma DropStagedMove(l: Local, p: Pid, ok: bool)
    requires l.q.pc.RbDropStaged?
    ensures Step(l, p, Sys(ok, 0)) == DropStagedStep(l, p, ok)
  {
    assert Step(l, p, Sys(ok, 0)) == SysStep(l, p, ok, 0);
  }

  lemma CommitMove(l: Local, p: Pid, ok: bool)
    requires l.q.pc.ComClean?
    ensures Step(l, p, Sys(ok, 0)) == CommitStep(l, p, ok)
  {
    assert Step(l, p, Sys(ok, 0)) == SysStep(l, p, ok, 0);
  }

  lemma CopyOpenMove(l: Local, p: Pid, ok: bool)
    requires l.q.pc.PubCopyOpen?
    ensures Step(l, p, Sys(ok, 0)) == CopyOpenStep(l, p, l.q.pc.b, ok)
  {
    assert Step(l, p, Sys(ok, 0)) == SysStep(l, p, ok, 0);
  }

  lemma ExchangeMove(l: Local, p: Pid, ok: bool)
    requires l.q.pc.ExSwap?
    ensures Step(l, p, Sys(ok, 0)) == ExchangeStep(l, p, ok)
  {
    assert Step(l, p, Sys(ok, 0)) == SysStep(l, p, ok, 0);
  }

  lemma CopyMove(l: Local, p: Pid, ok: bool, n: nat)
    requires l.q.pc.PubCopy?
    ensures Step(l, p, Sys(ok, n)) == CopyStep(l, l.q.pc.b, ok, n)
  {
    assert Step(l, p, Sys(ok, n)) == SysStep(l, p, ok, n);
  }

  lemma AbsentUndoMove(l: Local, p: Pid, ok: bool)
    requires l.q.pc.AbsUndo?
    ensures Step(l, p, Sys(ok, 0)) == AbsentUndoStep(l, p, ok)
  {
    assert Step(l, p, Sys(ok, 0)) == SysStep(l, p, ok, 0);
  }

  lemma RestoreMove(l: Local, p: Pid, ok: bool)
    requires l.q.pc.RbRestore?
    ensures Step(l, p, Sys(ok, 0)) == RestoreStep(l, p, ok)
  {
    assert Step(l, p, Sys(ok, 0)) == SysStep(l, p, ok, 0);
  }

  lemma RemoveTempMove(l: Local, p: Pid, ok: bool)
    requires l.q.pc.RbRemoveTemp?
    ensures Step(l, p, Sys(ok, 0)) == RemoveTempStep(l, p, l.q.pc.closeFailed, ok)
  {
    assert Step(l, p, Sys(ok, 0)) == SysStep(l, p, ok, 0);
  }

  lemma RemoveDestMove(l: Local, p: Pid, ok: bool)
    requires l.q.pc.RbRemoveDest?
    ensures Step(l, p, Sys(ok, 0)) == RemoveDestStep(l, p, ok)
  {
    assert Step(l, p, Sys(ok, 0)) == SysStep(l, p, ok, 0);
  }

  // The move that forgets the backup.
  lemma UndoMove(l: Local, p: Pid, ok: bool)
    requires l.q.pc.PubUndo?
    ensures Step(l, p, Sys(ok, 0)) == UndoStep(l, p, ok)
  {
    assert Step(l, p, Sys(ok, 0)) == SysStep(l, p, ok, 0);
  }

  // p.unlock() starts the release of a lock, and ends the call where there is none.
  function AfterCall(l: Local, p: Pid): Pc {
    if LockTable.PcOf(l.lk, p).Holding? then Unlocking else Idle
  }

  lemma UnlockRests(l: Local, p: Pid)
    ensures var l' := Publication.Unlock(l, p); l'.lk == l.lk && l'.fs == l.fs && l'.q == l.q.(pc := AfterCall(l, p))
  {
  }

  lemma DisposeRests(l: Local, p: Pid, n: Name, ok: bool)
    ensures var l' := Publication.Unlock(Dispose(l, n, ok), p);
      && l'.lk == l.lk && l'.q == l.q.(pc := AfterCall(l, p), messy := l'.q.messy)
      && l'.fs == if ok then Remove(l.fs, n) else l.fs
  {
    UnlockRests(Dispose(l, n, ok), p);
  }

  lemma UndoForgets(l: Local, p: Pid, n: Name, ok: bool)
    requires l.q.backup == Some(n)
    ensures var l' := UndoStep(l, p, ok);
      && l'.lk == l.lk && l'.q == l.q.(backup := None, pc := AfterCall(l, p), messy := l'.q.messy)
      && l'.fs == if ok then Remove(l.fs, n) else l.fs
  {
    DisposeRests(l.(q := l.q.(backup := None)), p, n, ok);
  }

  // ---- The class -----------------------------------------------------------------------

  class Handle {
    const owner: Pid
    const disk: Directory
    var destination: string
    var temporary: Name
    var backup: Option<Name>
    var closed: bool
    var closeErr: bool
    var published: bool
    var exchanged: bool
    var done: bool
    var minted: nat     // names taken from CreateTemp

    // A Pending around a temporary file that CreateTemp has just made.
    constructor Around(disk: Directory, owner: Pid, destination: string)
      requires owner !in disk.s.pend
      requires disk.fs == CreateFile(disk.s.fs, Private(owner, 0), Staged(owner))
      modifies disk`s
      ensures this.disk == disk && this.owner == owner && At(CreateChmod) && disk.fs == old(disk.fs)
      ensures disk.s.lk == old(disk.s.lk) && Reaches(old(disk.s), owner, disk.s)
      ensures this.destination == destination && temporary == Private(owner, 0) && !disk.s.pend[owner].messy
      ensures !closed && !published && !done && !closeErr && backup.None? && !exchanged
    {
      this.disk, this.owner, this.destination, temporary := disk, owner, destination, Private(owner, 0);
      backup, closed, closeErr, published, exchanged, done, minted := None, false, false, false, false, false, 1;
      new;
      Moves(disk.s, owner, Action.Create(destination));
      disk.s := Next(disk.s, owner, Action.Create(destination));
    }

    // The fields are those of the machine's Pending.
    ghost predicate Valid()
      reads this, disk
    {
      && owner in disk.s.pend && disk.s.fs == disk.fs && Mirrors(disk.s.pend[owner])
      && temporary.Private? && temporary.owner == owner && temporary.serial < minted
      && (backup.Some? ==> backup.value.Private? && backup.value != temporary)
    }

    predicate Mirrors(q: Pending)
      reads this
    {
      && q.dest == destination && q.temp == temporary && q.backup == backup
      && q.closed == closed && q.closeErr == closeErr
      && q.published == published && q.exchanged == exchanged && q.done == done && q.serial == minted
    }

    ghost function Pc(): Pc
      requires owner in disk.s.pend
      reads this, disk
    {
      disk.s.pend[owner].pc
    }

    ghost predicate Stands(pc: Pc)
      reads this, disk
    {
      Valid() && Pc() == pc
    }

    // No Rollback has failed on it after publication.
    ghost predicate At(pc: Pc)
      reads this, disk
    {
      Stands(pc) && !disk.s.pend[owner].abandoned
    }

    ghost predicate Abandoned()
      requires owner in disk.s.pend
      reads this, disk
    {
      disk.s.pend[owner].abandoned
    }

    // No cleanup failed.
    twostate predicate Tidy()
      reads this, disk
    {
      && owner in old(disk.s.pend) && owner in disk.s.pend
      && disk.s.pend[owner].messy == old(disk.s.pend[owner].messy)
    }

    // The goroutine holds the lock of the destination, and nobody is inside the table.
    ghost predicate Holds()
      reads this, disk
    {
      Locked(disk.s.lk, owner, destination)
    }

    // The method was a run of the machine, and the staged bytes are what they were.
    twostate predicate Ran()
      reads this, disk
    {
      && Reaches(old(disk.s), owner, disk.s) && Read(disk.fs, Staged(owner)) == old(Read(disk.fs, Staged(owner)))
      && Counted()
    }

    twostate predicate Counted()
      reads disk
    {
      old(disk.faults) <= disk.faults && old(disk.refusals) <= disk.refusals
    }

    // No system call failed that the directory allowed, except a hard link that was refused.
    twostate predicate Faultless()
      reads disk
    {
      disk.faults == old(disk.faults)
    }

    // Nor was a hard link refused.
    twostate predicate Smooth()
      reads disk
    {
      disk.faults == old(disk.faults) && disk.refusals == old(disk.refusals)
    }

    predicate Has(n: Name)
      reads disk
    {
      n in disk.fs.dir
    }

    // Between calls: the lock is held exactly while the file is published and not done.
    ghost predicate Ready()
      reads this, disk
    {
      && At(Idle)
      && (if published && !done then Holds() else disk.s.lk.table.None? && LockTable.PcOf(disk.s.lk, owner).Idle?)
    }

    // In no call, and without a lock.
    ghost predicate Resting()
      reads this, disk
    {
      Stands(Idle) && disk.s.lk.table.None? && LockTable.PcOf(disk.s.lk, owner).Idle?
    }

    // The calls on it are over: committed, rolled back, or never handed out.
    ghost predicate Over()
      requires owner in disk.s.pend
      reads this, disk
    {
      Finished(disk.s.pend[owner])
    }

    // ---- Locking

    // The call, and the statements of acquireDestinationLock.
    ghost method Lock(op: Op)
      requires At(Idle) && !done && !published && closed && !closeErr && CanLock(disk.s.lk, owner, destination)
      modifies disk`s
      ensures At(First(op)) && Holds() && Reaches(old(disk.s), owner, disk.s) && Tidy()
    {
      disk.Move(owner, Call(op));
      var n := 0;
      while n < 5
        invariant n <= 5 && At(if n < 5 then Acquiring(op) else First(op)) && Tidy()
        invariant Acquired(disk.s.lk, owner, destination, n) && Reaches(old(disk.s), owner, disk.s)
      {
        var before := disk.s;
        AcquireOnce(op, n);
        Then(old(disk.s), owner, before, disk.s);
        n := n + 1;
      }
    }

    ghost method AcquireOnce(op: Op, n: nat)
      requires n < 5 && At(Acquiring(op)) && Acquired(disk.s.lk, owner, destination, n)
      modifies disk`s
      ensures At(if n < 4 then Acquiring(op) else First(op)) && Acquired(disk.s.lk, owner, destination, n + 1)
      ensures Reaches(old(disk.s), owner, disk.s) && Tidy()
    {
      AcquireNext(disk.s.lk, owner, destination, n);
      disk.Move(owner, Action.Lock);
    }

    // p.unlock(), where there is a lock.
    ghost method Unlock()
      requires Stands(Unlocking) && Holds()
      modifies disk`s
      ensures Resting() && Reaches(old(disk.s), owner, disk.s) && Tidy() && Abandoned() == old(Abandoned())
    {
      disk.Move(owner, Action.Lock);
      var n := 0;
      while n < 5
        invariant n <= 5 && Stands(if n < 5 then Releasing else Idle) && Tidy() && Abandoned() == old(Abandoned())
        invariant Released(disk.s.lk, owner, n) && Reaches(old(disk.s), owner, disk.s)
      {
        var before := disk.s;
        ReleaseOnce(n);
        Then(old(disk.s), owner, before, disk.s);
        n := n + 1;
      }
    }

    ghost method ReleaseOnce(n: nat)
      requires n < 5 && Stands(Releasing) && Released(disk.s.lk, owner, n)
      modifies disk`s
      ensures Stands(if n < 4 then Releasing else Idle) && Released(disk.s.lk, owner, n + 1)
      ensures Reaches(old(disk.s), owner, disk.s) && Tidy() && Abandoned() == old(Abandoned())
    {
      ReleaseNext(disk.s.lk, owner, n);
      disk.Move(owner, Action.Lock);
    }

    // ---- Before publication

    /** Bytes go to the temporary file while it is open; a failing write may have written a part. */
    method Write(body: Bytes) returns (n: nat, ok: bool)
      requires Ready()
      modifies disk
      ensures Ready() && Reaches(old(disk.s), owner, disk.s) && disk.s.lk == old(disk.s.lk)
      ensures n <= |body| && (ok ==> !closed && n == |body|) && (closed ==> n == 0 && disk.fs == old(disk.fs))
      ensures !closed ==> disk.fs == Append(old(disk.fs), Staged(owner), body[..n])
      ensures Tidy()
      ensures Counted() && (ok <==> !closed && Faultless())
      ensures disk.refusals == old(disk.refusals)
    {
      Stays(disk.s, owner);
      if closed { return 0, false; }
      ok := disk.Attempt();
      if ok { n := |body|; } else { n :| 0 <= n <= |body|; }
      disk.Append(Staged(owner), body[..n]);
      disk.Move(owner, Action.Write(body[..n]));
    }

    /** The error of a failing sync or close is remembered. */
    method Close() returns (ok: bool)
      requires Ready()
      modifies this`closed, this`closeErr, disk`s, disk`faults
      ensures Ready() && Ran() && closed && disk.s.lk == old(disk.s.lk)
      ensures if old(closed) then ok && closeErr == old(closeErr) else ok == !closeErr
      ensures Tidy()
      ensures ok <==> Faultless()
      ensures old(closed) ==> Smooth()
      ensures disk.refusals == old(disk.refusals)
    {
      Stays(disk.s, owner);
      if closed { return true; }
      ok := disk.Attempt();
      disk.Move(owner, Action.Close(ok));
      closed := true;
      closeErr := !ok;
    }

    method Retarget(path: string) returns (ok: bool)
      requires Ready()
      modifies this`destination, disk`s
      ensures Ready() && Ran()
      ensures ok == (!done && !published) && destination == if ok then path else old(destination)
      ensures Tidy()
    {
      Stays(disk.s, owner);
      if done || published { return false; }
      disk.Move(owner, Action.Retarget(path));
      destination := path;
      ok := true;
    }

    // ---- Publish, with the lock held

    method StatDestination() returns (ok: bool, present: bool)
      requires At(PubStat) && Holds()
      modifies disk`s, disk`faults
      ensures At(if !ok then Unlocking else if present then PubReserve else PubRename) && Holds()
      ensures Ran() && present == (Public(destination) in disk.fs.dir)
      ensures ok ==> Tidy()
      ensures ok <==> Faultless()
    {
      ok, present := disk.Stat(Public(destination));
      disk.MoveTo(owner, Sys(ok, 0), StatStep(View(disk.s, owner), owner, ok));
    }

    // reservePath, up to its close.
    method ReserveName() returns (name: Name, ok: bool)
      requires At(PubReserve) && Holds()
      modifies this`minted, disk
      ensures At(if ok then PubUnreserve(name) else Unlocking) && Holds()
      ensures Ran() && Untouched(old(disk.fs), disk.fs, temporary)
      ensures name == Private(owner, old(minted))
      ensures ok ==> Tidy()
      ensures ok <==> Faultless()
    {
      name := Private(owner, minted);
      ok := disk.CreateTemp(name, Reserved(owner, minted));
      disk.MoveTo(owner, Sys(ok, 0), ReserveStep(View(disk.s, owner), owner, ok));
      if ok { minted := minted + 1; }
    }

    // The rest of reservePath: the file is closed and its name is freed again.
    method FreeName(name: Name) returns (ok: bool)
      requires At(PubUnreserve(name)) && Holds() && name.Private? && name != temporary
      modifies disk
      ensures At(if ok then PubLink(name) else Unlocking) && Holds()
      ensures Ran() && Untouched(old(disk.fs), disk.fs, temporary)
      ensures ok ==> name !in disk.fs.dir
      ensures ok ==> Tidy()
      ensures ok <==> Faultless()
    {
      var closeOk := disk.Attempt();
      if closeOk {
        ok := RemoveReserved(name);
      } else {
        DropReserved(name);
        ok := false;
      }
    }

    method RemoveReserved(name: Name) returns (ok: bool)
      requires At(PubUnreserve(name)) && Holds() && name.Private? && name != temporary
      modifies disk
      ensures At(if ok then PubLink(name) else Unlocking) && Holds()
      ensures Ran() && Untouched(old(disk.fs), disk.fs, temporary)
      ensures ok ==> name !in disk.fs.dir
      ensures ok ==> Tidy()
      ensures ok <==> Faultless()
    {
      ok := disk.RemoveIfPresent(name);
      disk.MoveTo(owner, Sys(ok, 0), UnreserveStep(View(disk.s, owner), owner, name, ok, 0));
    }

    // After a close that failed.
    method DropReserved(name: Name)
      requires At(PubUnreserve(name)) && Holds() && name.Private? && name != temporary
      modifies disk
      ensures At(Unlocking) && Holds()
      ensures Ran() && Untouched(old(disk.fs), disk.fs, temporary)
    {
      var removed := disk.RemoveIfPresent(name);
      disk.MoveTo(owner, Sys(removed, 1), UnreserveStep(View(disk.s, owner), owner, name, removed, 1));
    }

    // backupFile, by a hard link.
    method LinkBackup(name: Name) returns (ok: bool)
      requires At(PubLink(name)) && Holds() && name.Private? && name != temporary
      modifies this`backup, disk
      ensures At(if ok then PubRename else PubCopyOpen(name)) && Holds()
      ensures Ran() && Untouched(old(disk.fs), disk.fs, temporary)
      ensures backup == (if ok then Some(name) else old(backup))
      ensures ok ==> Entry(disk.fs, name) == Entry(disk.fs, Public(destination))
      ensures Tidy()
      ensures Faultless() && (ok ==> old(Has(Public(destination)) && !Has(name)))
      ensures disk.refusals == old(disk.refusals) ==> ok == old(Has(Public(destination)) && !Has(name))
      ensures !ok ==> disk.fs == old(disk.fs)
    {
      var taken;
      ok, taken := disk.Link(Public(destination), name);
      disk.MoveTo(owner, Sys(ok, 0), LinkStep(View(disk.s, owner), name, ok));
      if ok { backup := Some(name); }
    }

    // backupFile, where links are refused: the copy is opened.
    method OpenCopy(name: Name) returns (ok: bool)
      requires At(PubCopyOpen(name)) && Holds() && name.Private? && name != temporary
      modifies disk
      ensures At(if ok then PubCopy(name) else PubDropBackup(name)) && Holds()
      ensures Ran() && Untouched(old(disk.fs), disk.fs, temporary)
      ensures ok ==> Opened(name) && Tidy()
      ensures ok <==> Faultless() && old(Has(Public(destination)) && !Has(name))
    {
      var found, present := disk.Stat(Public(destination));
      if found && present {
        ok := CreateCopy(name);
      } else {
        GiveUpCopy(name);
        ok := false;
      }
    }

    // An empty copy beside the destination, a file of its own.
    predicate Opened(name: Name)
      reads this, disk
    {
      && name in disk.fs.dir && disk.fs.dir[name] == CopyOf(owner, name) && Read(disk.fs, disk.fs.dir[name]) == []
      && Public(destination) in disk.fs.dir && disk.fs.dir[Public(destination)] != disk.fs.dir[name]
    }

    ghost method GiveUpCopy(name: Name)
      requires At(PubCopyOpen(name)) && Holds()
      modifies disk`s
      ensures At(PubDropBackup(name)) && Holds() && Ran()
    {
      CopyOpenMove(View(disk.s, owner), owner, false);
      disk.MoveTo(owner, Sys(false, 0), Goto(View(disk.s, owner), PubDropBackup(name)));
    }

    method CreateCopy(name: Name) returns (ok: bool)
      requires At(PubCopyOpen(name)) && Holds() && name.Private? && name != temporary && Has(Public(destination))
      modifies disk
      ensures At(if ok then PubCopy(name) else PubDropBackup(name)) && Holds()
      ensures Ran() && Untouched(old(disk.fs), disk.fs, temporary)
      ensures ok ==> Opened(name) && Tidy()
      ensures ok <==> Faultless() && old(!Has(name))
    {
      ok := disk.CreateExclusive(name, CopyOf(owner, name));
      CopyOpenMove(View(disk.s, owner), owner, ok);
      disk.MoveTo(owner, Sys(ok, 0), CopyOpenStep(View(disk.s, owner), owner, name, ok));
    }

    // Before another chunk of the copy.
    ghost predicate Copying(name: Name)
      reads this, disk
    {
      && At(PubCopy(name)) && Holds() && name.Private? && name != temporary
      && name in disk.fs.dir && Public(destination) in disk.fs.dir
      && disk.fs.dir[Public(destination)] != disk.fs.dir[name] == CopyOf(owner, name)
    }

    // One chunk of io.Copy, or its end with sync and close.
    method CopyChunk(name: Name) returns (ok: bool, finished: bool)
      requires Copying(name)
      modifies this`backup, disk
      ensures At(if !ok then PubCopyUndo(name) else if finished then PubRename else PubCopy(name)) && Holds()
      ensures Ran() && disk.fs.dir == old(disk.fs).dir
      ensures backup == (if ok && finished then Some(name) else old(backup))
      ensures Read(disk.fs, disk.fs.dir[Public(destination)]) == Read(old(disk.fs), disk.fs.dir[Public(destination)])
      ensures ok && !finished ==>
        && |Read(old(disk.fs), disk.fs.dir[name])| < |Read(disk.fs, disk.fs.dir[name])|
        && |Read(old(disk.fs), disk.fs.dir[name])| < |Read(disk.fs, disk.fs.dir[Public(destination)])|
      ensures Tidy()
      ensures ok <==> Faultless()
    {
      ok := disk.Attempt();
      finished := |Read(disk.fs, disk.fs.dir[name])| >= |Read(disk.fs, disk.fs.dir[Public(destination)])|;
      if !ok {
        StopCopy(name);
      } else if finished {
        EndCopy(name);
      } else {
        CopyMore(name);
      }
    }

    ghost method StopCopy(name: Name)
      requires Copying(name)
      modifies disk`s
      ensures At(PubCopyUndo(name)) && Holds() && Ran() && Tidy()
    {
      CopyMove(View(disk.s, owner), owner, false, 0);
      disk.MoveTo(owner, Sys(false, 0), Goto(View(disk.s, owner), PubCopyUndo(name)));
    }

    method EndCopy(name: Name)
      requires Copying(name)
      requires |Read(disk.fs, disk.fs.dir[name])| >= |Read(disk.fs, disk.fs.dir[Public(destination)])|
      modifies this`backup, disk`s
      ensures At(PubRename) && Holds() && Ran() && Tidy() && backup == Some(name)
    {
      CopyMove(View(disk.s, owner), owner, true, 0);
      disk.MoveTo(owner, Sys(true, 0), CopyStep(View(disk.s, owner), name, true, 0));
      backup := Some(name);
    }

    method CopyMore(name: Name)
      requires Copying(name)
      requires |Read(disk.fs, disk.fs.dir[name])| < |Read(disk.fs, disk.fs.dir[Public(destination)])|
      modifies disk
      ensures Copying(name) && Ran() && Tidy() && Smooth() && disk.fs.dir == old(disk.fs).dir
      ensures Read(disk.fs, disk.fs.dir[Public(destination)]) == Read(old(disk.fs), disk.fs.dir[Public(destination)])
      ensures |Read(old(disk.fs), disk.fs.dir[name])| < |Read(disk.fs, disk.fs.dir[name])|
    {
      var source, sofar := Read(disk.fs, disk.fs.dir[Public(destination)]), Read(disk.fs, disk.fs.dir[name]);
      var n :| 0 <= n < |source| - |sofar|;
      var chunk := Chunk(source, |sofar|, n);
      AppendReads(disk.fs, disk.fs.dir[name], disk.fs.dir[Public(destination)], chunk);
      AppendReads(disk.fs, disk.fs.dir[name], Staged(owner), chunk);
      disk.Append(disk.fs.dir[name], chunk);
      CopyMove(View(disk.s, owner), owner, true, n);
      disk.MoveTo(owner, Sys(true, n), CopyStep(View(disk.s, owner), name, true, n));
    }

    method CopyBackup(name: Name) returns (ok: bool)
      requires Copying(name)
      modifies this`backup, disk
      ensures At(if ok then PubRename else PubCopyUndo(name)) && Holds()
      ensures Ran() && Untouched(old(disk.fs), disk.fs, temporary)
      ensures backup == if ok then Some(name) else old(backup)
      ensures Tidy()
      ensures ok <==> Faultless()
    {
      Stays(disk.s, owner);
      ghost var total := |Read(disk.fs, disk.fs.dir[Public(destination)])|;
      while true
        invariant At(PubCopy(name)) && Holds() && Reaches(old(disk.s), owner, disk.s) && Tidy()
        invariant Counted() && Faultless()
        invariant disk.fs.dir == old(disk.fs).dir && backup == old(backup)
        invariant Read(disk.fs, Staged(owner)) == old(Read(disk.fs, Staged(owner)))
        invariant total == |Read(disk.fs, disk.fs.dir[Public(destination)])|
        decreases total - |Read(disk.fs, disk.fs.dir[name])|
      {
        ghost var before := disk.s;
        var finished;
        ok, finished := CopyChunk(name);
        Then(old(disk.s), owner, before, disk.s);
        if !ok || finished {
          SameNames(old(disk.fs), disk.fs, temporary);
          return;
        }
      }
    }

    // Removing the half-made copy.
    method DropCopy(name: Name)
      requires At(PubCopyUndo(name)) && Holds() && name.Private? && name != temporary
      modifies disk
      ensures At(PubDropBackup(name)) && Holds()
      ensures Ran() && Untouched(old(disk.fs), disk.fs, temporary)
    {
      var removed := disk.RemoveIfPresent(name);
      disk.MoveTo(owner, Sys(removed, 0), Goto(Dispose(View(disk.s, owner), name, removed), PubDropBackup(name)));
    }

    method DropBackup(name: Name)
      requires At(PubDropBackup(name)) && Holds() && name.Private? && name != temporary
      modifies disk
      ensures At(Unlocking) && Holds()
      ensures Ran() && Untouched(old(disk.fs), disk.fs, temporary)
    {
      var removed := disk.RemoveIfPresent(name);
      disk.MoveTo(owner, Sys(removed, 0), Publication.Unlock(Dispose(View(disk.s, owner), name, removed), owner));
    }

    method RenameTemporary() returns (ok: bool)
      requires At(PubRename) && Holds()
      modifies this`published, disk
      ensures At(if ok then Idle else PubUndo) && Holds() && published == (old(published) || ok)
      ensures Ran() && OthersUntouched(old(disk.fs), disk.fs, destination)
      ensures if ok then Entry(disk.fs, Public(destination)) == Entry(old(disk.fs), temporary) != None
              else disk.fs == old(disk.fs)
      ensures ok ==> Tidy()
      ensures ok <==> Faultless() && old(Has(temporary))
    {
      ok := disk.Rename(temporary, Public(destination));
      if ok {
        RenameReplaces(disk.s.fs, temporary, destination);
        RenameMove(View(disk.s, owner), owner, true);
        disk.MoveTo(owner, Sys(true, 0), RenameStep(View(disk.s, owner), true));
        published := true;
      } else {
        StayUnpublished();
      }
    }

    // The rename has failed.
    ghost method StayUnpublished()
      requires At(PubRename) && Holds()
      modifies disk`s
      ensures At(PubUndo) && Holds() && Ran()
    {
      RenameMove(View(disk.s, owner), owner, false);
      disk.MoveTo(owner, Sys(false, 0), Goto(View(disk.s, owner), PubUndo));
    }

    method UndoBackup()
      requires At(PubUndo) && Holds()
      modifies this`backup, disk
      ensures At(Unlocking) && Holds() && backup.None?
      ensures Ran() && Untouched(old(disk.fs), disk.fs, temporary)
    {
      if backup.Some? { RemoveBackup(backup.value); } else { ForgetBackup(); }
    }

    // os.Remove of an empty path.
    ghost method ForgetBackup()
      requires At(PubUndo) && Holds() && backup.None?
      modifies disk`s
      ensures At(Unlocking) && Holds() && Ran()
    {
      UndoMove(View(disk.s, owner), owner, true);
      disk.MoveTo(owner, Sys(true, 0), UndoStep(View(disk.s, owner), owner, true));
    }

    method RemoveBackup(name: Name)
      requires At(PubUndo) && Holds() && backup == Some(name)
      modifies this`backup, disk
      ensures At(Unlocking) && Holds() && backup.None?
      ensures Ran() && Untouched(old(disk.fs), disk.fs, temporary)
    {
      var removed := disk.RemoveIfPresent(name);
      UndoMove(View(disk.s, owner), owner, removed);
      UndoForgets(View(disk.s, owner), owner, name, removed);
      disk.MoveTo(owner, Sys(removed, 0), UndoStep(View(disk.s, owner), owner, removed));
      backup := None;
    }

    // The copy, and its removal when it fails.
    method CopyOrDrop(name: Name) returns (ok: bool)
      requires Copying(name)
      modifies this`backup, disk
      ensures At(if ok then PubRename else PubDropBackup(name)) && Holds()
      ensures Ran() && Untouched(old(disk.fs), disk.fs, temporary)
      ensures backup == if ok then Some(name) else old(backup)
      ensures ok ==> Tidy()
      ensures ok <==> Faultless()
    {
      ghost var s0 := disk.s;
      ok := CopyBackup(name);
      if !ok {
        ghost var s1 := disk.s;
        DropCopy(name);
        Then(s0, owner, s1, disk.s);
      }
    }

    // backupFile where links are refused.
    method CopyOver(name: Name) returns (ok: bool)
      requires At(PubCopyOpen(name)) && Holds() && name.Private? && name != temporary
      modifies this`backup, disk
      ensures At(if ok then PubRename else Unlocking) && Holds()
      ensures Ran() && Untouched(old(disk.fs), disk.fs, temporary)
      ensures backup == if ok then Some(name) else old(backup)
      ensures ok ==> Tidy()
      ensures ok <==> Faultless() && old(Has(Public(destination)) && !Has(name))
    {
      ghost var s0 := disk.s;
      ok := OpenCopy(name);
      if ok {
        ghost var s1 := disk.s;
        ok := CopyOrDrop(name);
        Then(s0, owner, s1, disk.s);
      }
      if !ok {
        ghost var s2 := disk.s;
        DropBackup(name);
        Then(s0, owner, s2, disk.s);
      }
    }

    // A hard link, or a copy.
    method BackupFile(name: Name) returns (ok: bool)
      requires At(PubLink(name)) && Holds() && name.Private? && name != temporary
      modifies this`backup, disk
      ensures At(if ok then PubRename else Unlocking) && Holds()
      ensures Ran() && Untouched(old(disk.fs), disk.fs, temporary)
      ensures backup == if ok then Some(name) else old(backup)
      ensures ok ==> Tidy()
      ensures ok <==> Faultless() && old(Has(Public(destination)) && !Has(name))
    {
      ghost var s0 := disk.s;
      ok := LinkBackup(name);
      if !ok {
        ghost var s1 := disk.s;
        ok := CopyOver(name);
        Then(s0, owner, s1, disk.s);
      }
    }

    // reservePath: a name of our own that no file has.
    method MintName() returns (name: Name, ok: bool)
      requires At(PubReserve) && Holds()
      modifies this`minted, disk
      ensures name.Private? && name != temporary
      ensures At(if ok then PubLink(name) else Unlocking) && Holds()
      ensures Ran() && Untouched(old(disk.fs), disk.fs, temporary)
      ensures ok ==> Tidy()
      ensures ok <==> Faultless()
      ensures ok ==> !Has(name)
    {
      ghost var s0 := disk.s;
      name, ok := ReserveName();
      if ok {
        ghost var s1 := disk.s;
        ok := FreeName(name);
        Then(s0, owner, s1, disk.s);
      }
    }

    /** A private backup of the destination, by a link or by a copy. */
    method TakeBackup() returns (ok: bool)
      requires At(PubReserve) && Holds() && backup.None?
      modifies this`backup, this`minted, disk
      ensures At(if ok then PubRename else Unlocking) && Holds() && (ok <==> backup.Some?)
      ensures Ran() && Untouched(old(disk.fs), disk.fs, temporary)
      ensures ok ==> Tidy()
      ensures ok <==> Faultless() && old(Has(Public(destination)))
    {
      ghost var s0 := disk.s;
      var name;
      name, ok := MintName();
      if ok {
        ghost var s1 := disk.s;
        ok := BackupFile(name);
        Then(s0, owner, s1, disk.s);
      }
    }

    // Publish with the lock held, up to the rename.
    method Preserve() returns (ok: bool)
      requires At(PubStat) && Holds() && backup.None?
      modifies this`backup, this`minted, disk
      ensures At(if ok then PubRename else Unlocking) && Holds() && (backup.Some? ==> ok)
      ensures Ran() && Untouched(old(disk.fs), disk.fs, temporary)
      ensures ok ==> (backup.Some? <==> Public(destination) in old(disk.fs).dir)
      ensures ok ==> Tidy()
      ensures ok <==> Faultless()
    {
      ghost var s0 := disk.s;
      var present;
      ok, present := StatDestination();
      if ok && present {
        ghost var s1 := disk.s;
        ok := TakeBackup();
        Then(s0, owner, s1, disk.s);
      }
    }

    // The rename, and what undoes the backup when it fails.
    method Replace() returns (ok: bool)
      requires At(PubRename) && Holds() && !published
      modifies this`published, this`backup, disk
      ensures published == ok && At(if ok then Idle else Unlocking) && Holds() && (!ok ==> backup.None?)
      ensures Ran() && OthersUntouched(old(disk.fs), disk.fs, destination)
      ensures ok ==> backup == old(backup)
      ensures if ok then Entry(disk.fs, Public(destination)) == Entry(old(disk.fs), temporary) != None
              else Untouched(old(disk.fs), disk.fs, temporary)
      ensures ok ==> Tidy()
      ensures ok <==> Faultless() && old(Has(temporary))
    {
      ghost var s0 := disk.s;
      ok := RenameTemporary();
      if !ok {
        ghost var s1 := disk.s;
        UndoBackup();
        Then(s0, owner, s1, disk.s);
      }
    }

    /**
     Publish replaces the destination with the staged file and keeps the lock and a backup of what it
     replaced; when it fails no destination has changed and the lock is free.
     */
    method Publish() returns (ok: bool)
      requires Ready() && (CanPublish() ==> backup.None? && CanLock(disk.s.lk, owner, destination))
      modifies this`backup, this`minted, this`published, disk
      ensures Ready() && Ran() && OthersUntouched(old(disk.fs), disk.fs, destination)
      ensures ok ==>
        old(CanPublish()) && published && Entry(disk.fs, Public(destination)) == Entry(old(disk.fs), temporary) != None
      ensures ok ==> (backup.Some? <==> Public(destination) in old(disk.fs).dir)
      ensures !ok ==>
        published == old(published) && backup == old(backup) && Untouched(old(disk.fs), disk.fs, temporary)
      ensures ok ==> Tidy()
      ensures ok <==> old(CanPublish() && Has(temporary)) && Faultless()
    {
      Stays(disk.s, owner);
      if done || published || !closed || closeErr { return false; }
      ok := PublishClosed();
    }

    method PublishClosed() returns (ok: bool)
      requires Ready() && CanPublish() && backup.None? && CanLock(disk.s.lk, owner, destination)
      modifies this`backup, this`minted, this`published, disk
      ensures Ready() && Ran() && OthersUntouched(old(disk.fs), disk.fs, destination)
      ensures published == ok && (ok ==> Entry(disk.fs, Public(destination)) == Entry(old(disk.fs), temporary) != None)
      ensures ok ==> (backup.Some? <==> Public(destination) in old(disk.fs).dir) && Tidy()
      ensures !ok ==> backup.None? && Untouched(old(disk.fs), disk.fs, temporary)
      ensures ok <==> Faultless() && old(Has(temporary))
    {
      ghost var s0 := disk.s;
      Lock(Op.Publish);
      ghost var s1 := disk.s;
      ok := PublishUnlocking();
      Then(s0, owner, s1, disk.s);
    }

    // With the lock held, which is kept only for a published file.
    method PublishUnlocking() returns (ok: bool)
      requires At(PubStat) && Holds() && backup.None? && !published && !done
      modifies this`backup, this`minted, this`published, disk
      ensures Ready() && Ran() && OthersUntouched(old(disk.fs), disk.fs, destination)
      ensures published == ok && (ok ==> Entry(disk.fs, Public(destination)) == Entry(old(disk.fs), temporary) != None)
      ensures ok ==> (backup.Some? <==> Public(destination) in old(disk.fs).dir) && Tidy()
      ensures !ok ==> backup.None? && Untouched(old(disk.fs), disk.fs, temporary)
      ensures ok <==> Faultless() && old(Has(temporary))
    {
      ghost var s0 := disk.s;
      ok := PublishLocked();
      if !ok {
        ghost var s1 := disk.s;
        Unlock();
        Then(s0, owner, s1, disk.s);
      }
    }

    method PublishLocked() returns (ok: bool)
      requires At(PubStat) && Holds() && backup.None? && !published
      modifies this`backup, this`minted, this`published, disk
      ensures published == ok && At(if ok then Idle else Unlocking) && Holds()
      ensures Ran() && OthersUntouched(old(disk.fs), disk.fs, destination)
      ensures ok ==> Entry(disk.fs, Public(destination)) == Entry(old(disk.fs), temporary) != None
      ensures ok ==> (backup.Some? <==> Public(destination) in old(disk.fs).dir)
      ensures !ok ==> backup.None? && Untouched(old(disk.fs), disk.fs, temporary)
      ensures ok ==> Tidy()
      ensures ok <==> Faultless() && old(Has(temporary))
    {
      ghost var s0 := disk.s;
      ok := Preserve();
      if ok {
        ghost var s1 := disk.s;
        ok := Replace();
        Then(s0, owner, s1, disk.s);
      }
    }

    predicate CanPublish()
      reads this
    {
      !done && !published && closed && !closeErr
    }

    // ---- PublishIfAbsent and Exchange

    method LinkTemporary() returns (ok: bool, taken: bool)
      requires At(AbsLink) && Holds()
      modifies disk
      ensures At(if ok then AbsRemoveTemp else Unlocking) && Holds() && Ran()
      ensures !ok ==> disk.fs == old(disk.fs)
      ensures ok ==>
        Entry(disk.fs, Public(destination)) == Entry(disk.fs, temporary) == Entry(old(disk.fs), temporary) != None
      ensures ok ==> Public(destination) !in old(disk.fs).dir && OthersUntouched(old(disk.fs), disk.fs, destination)
      ensures Tidy()
      ensures ok <==> Smooth() && old(Has(temporary) && !Has(Public(destination)))
      ensures taken <==> Smooth() && old(Has(temporary) && Has(Public(destination)))
      ensures Faultless()
    {
      ok, taken := disk.Link(temporary, Public(destination));
      disk.MoveTo(owner, Sys(ok, 0), AbsentLinkStep(View(disk.s, owner), owner, ok));
    }

    method DropTemporary() returns (ok: bool)
      requires At(AbsRemoveTemp) && Holds()
      modifies this`published, disk
      ensures At(if ok then Idle else AbsUndo) && Holds() && Ran()
      ensures published == (old(published) || ok) && OthersUntouched(old(disk.fs), disk.fs, destination)
      ensures Entry(disk.fs, Public(destination)) == Entry(old(disk.fs), Public(destination))
      ensures ok ==> temporary !in disk.fs.dir
      ensures !ok ==> disk.fs == old(disk.fs)
      ensures Tidy()
      ensures (ok <==> Faultless() && old(Has(temporary))) && disk.refusals == old(disk.refusals)
    {
      ok := disk.Remove(temporary);
      disk.MoveTo(owner, Sys(ok, 0), AbsentRemoveStep(View(disk.s, owner), ok));
      if ok { published := true; }
    }

    // The destination link is taken back.
    method UndoLink() returns (ok: bool)
      requires At(AbsUndo) && Holds() && !published
      modifies disk
      ensures At(Unlocking) && Holds() && Ran()
      ensures OthersUntouched(old(disk.fs), disk.fs, destination)
      ensures if ok then Public(destination) !in disk.fs.dir else disk.fs == old(disk.fs)
      ensures ok ==> Tidy()
      ensures disk.refusals == old(disk.refusals)
    {
      ok := disk.Remove(Public(destination));
      AbsentUndoMove(View(disk.s, owner), owner, ok);
      disk.MoveTo(owner, Sys(ok, 0), AbsentUndoStep(View(disk.s, owner), owner, ok));
    }

    // The link, and the removal of the temporary name or of the link.
    method PublishAbsentLocked() returns (created: bool, ok: bool, undone: bool)
      requires At(AbsLink) && Holds() && !published
      modifies this`published, disk
      ensures At(if created then Idle else Unlocking) && Holds() && published == created
      ensures Ran() && OthersUntouched(old(disk.fs), disk.fs, destination)
      ensures created || !undone ==>
        && Public(destination) !in old(disk.fs).dir
        && Entry(disk.fs, Public(destination)) == Entry(old(disk.fs), temporary) != None
      ensures created ==> undone && published && temporary !in disk.fs.dir
      ensures !created && undone ==> Entry(disk.fs, Public(destination)) == Entry(old(disk.fs), Public(destination))
      ensures undone ==> Tidy()
      ensures ok <==> Smooth() && old(Has(temporary))
      ensures created <==> ok && old(!Has(Public(destination)))
    {
      ghost var s0 := disk.s;
      undone := true;
      created, ok := LinkTemporary();
      if created {
        ghost var s1 := disk.s;
        created, undone := DropOrUndo();
        Then(s0, owner, s1, disk.s);
        ok := created;
      }
    }

    // The temporary name goes, or else the link.
    method DropOrUndo() returns (created: bool, undone: bool)
      requires At(AbsRemoveTemp) && Holds() && !published
      modifies this`published, disk
      ensures At(if created then Idle else Unlocking) && Holds() && published == created
      ensures Ran() && OthersUntouched(old(disk.fs), disk.fs, destination)
      ensures created || !undone ==> Entry(disk.fs, Public(destination)) == Entry(old(disk.fs), Public(destination))
      ensures created ==> undone && temporary !in disk.fs.dir
      ensures !created && undone ==> Public(destination) !in disk.fs.dir
      ensures undone ==> Tidy()
      ensures created <==> Smooth() && old(Has(temporary))
    {
      ghost var s0 := disk.s;
      undone := true;
      created := DropTemporary();
      if !created {
        ghost var s1 := disk.s;
        undone := UndoLink();
        Then(s0, owner, s1, disk.s);
      }
    }

    /**
     PublishIfAbsent never replaces: it creates the destination only where there was none, and otherwise
     leaves it as it was, unless taking back its own link fails.
     */
    method PublishIfAbsent() returns (created: bool, ok: bool, undone: bool)
      requires Ready() && (CanPublish() ==> CanLock(disk.s.lk, owner, destination))
      modifies this`published, disk
      ensures Ready() && Ran() && OthersUntouched(old(disk.fs), disk.fs, destination)
      ensures Public(destination) in old(disk.fs).dir ==>
        !created && undone && Entry(disk.fs, Public(destination)) == Entry(old(disk.fs), Public(destination))
      ensures created || !undone ==> old(CanPublish())
      ensures !created ==> published == old(published)
      ensures created || !undone ==>
        && Public(destination) !in old(disk.fs).dir
        && Entry(disk.fs, Public(destination)) == Entry(old(disk.fs), temporary) != None
      ensures created ==> undone && published && temporary !in disk.fs.dir
      ensures !created && undone ==> Entry(disk.fs, Public(destination)) == Entry(old(disk.fs), Public(destination))
      ensures undone ==> Tidy()
      ensures ok <==> old(CanPublish() && Has(temporary)) && Smooth()
      ensures created <==> ok && old(!Has(Public(destination)))
    {
      Stays(disk.s, owner);
      if done || published || !closed || closeErr { return false, false, true; }
      created, ok, undone := PublishClosedIfAbsent();
    }

    method PublishClosedIfAbsent() returns (created: bool, ok: bool, undone: bool)
      requires Ready() && CanPublish() && CanLock(disk.s.lk, owner, destination)
      modifies this`published, disk
      ensures Ready() && Ran() && OthersUntouched(old(disk.fs), disk.fs, destination)
      ensures created || !undone ==>
        && Public(destination) !in old(disk.fs).dir
        && Entry(disk.fs, Public(destination)) == Entry(old(disk.fs), temporary) != None
      ensures created ==> undone && temporary !in disk.fs.dir
      ensures published == created && (undone ==> Tidy())
      ensures !created && undone ==> Entry(disk.fs, Public(destination)) == Entry(old(disk.fs), Public(destination))
      ensures ok <==> old(Has(temporary)) && Smooth()
      ensures created <==> ok && old(!Has(Public(destination)))
    {
      ghost var s0 := disk.s;
      Lock(Op.PublishIfAbsent);
      ghost var s1 := disk.s;
      created, ok, undone := PublishAbsentUnlocking();
      Then(s0, owner, s1, disk.s);
    }

    // With the lock held, which is kept only for a created destination.
    method PublishAbsentUnlocking() returns (created: bool, ok: bool, undone: bool)
      requires At(AbsLink) && Holds() && !published && !done
      modifies this`published, disk
      ensures Ready() && Ran() && OthersUntouched(old(disk.fs), disk.fs, destination)
      ensures created || !undone ==>
        && Public(destination) !in old(disk.fs).dir
        && Entry(disk.fs, Public(destination)) == Entry(old(disk.fs), temporary) != None
      ensures created ==> undone && temporary !in disk.fs.dir
      ensures published == created && (undone ==> Tidy())
      ensures !created && undone ==> Entry(disk.fs, Public(destination)) == Entry(old(disk.fs), Public(destination))
      ensures ok <==> old(Has(temporary)) && Smooth()
      ensures created <==> ok && old(!Has(Public(destination)))
    {
      ghost var s0 := disk.s;
      created, ok, undone := PublishAbsentLocked();
      if !created {
        ghost var s1 := disk.s;
        Unlock();
        Then(s0, owner, s1, disk.s);
      }
    }

    method SwapIn() returns (ok: bool)
      requires At(ExSwap) && Holds() && !published
      modifies this`published, this`exchanged, disk
      ensures At(if ok then Idle else Unlocking) && Holds() && Ran()
      ensures published == ok && exchanged == (old(exchanged) || ok)
      ensures if ok then Swapped(old(disk.fs), disk.fs) else disk.fs == old(disk.fs)
      ensures Tidy()
      ensures ok <==> Faultless() && old(Has(temporary) && Has(Public(destination)))
    {
      ok := disk.Exchange(temporary, Public(destination));
      ExchangeMove(View(disk.s, owner), owner, ok);
      disk.MoveTo(owner, Sys(ok, 0), ExchangeStep(View(disk.s, owner), owner, ok));
      if ok { published, exchanged := true, true; }
    }

    // The two names are present and have changed places; no other destination is touched.
    ghost predicate Swapped(before: Fs, after: Fs)
      reads this
    {
      && Entry(after, Public(destination)) == Entry(before, temporary) != None
      && Entry(after, temporary) == Entry(before, Public(destination)) != None
      && OthersUntouched(before, after, destination)
    }

    /** Exchange swaps the staged file with an existing destination: afterwards the temporary name is
        the predecessor. */
    method Exchange() returns (ok: bool)
      requires Ready() && (CanPublish() ==> CanLock(disk.s.lk, owner, destination))
      modifies this`published, this`exchanged, disk
      ensures Ready() && Ran()
      ensures ok ==> old(CanPublish()) && published && exchanged && Swapped(old(disk.fs), disk.fs)
      ensures !ok ==> published == old(published) && exchanged == old(exchanged) && disk.fs == old(disk.fs)
      ensures Tidy()
      ensures ok <==> old(CanPublish() && Has(temporary) && Has(Public(destination))) && Faultless()
    {
      Stays(disk.s, owner);
      if done || published || !closed || closeErr { return false; }
      ok := ExchangeClosed();
    }

    method ExchangeClosed() returns (ok: bool)
      requires Ready() && CanPublish() && CanLock(disk.s.lk, owner, destination)
      modifies this`published, this`exchanged, disk
      ensures Ready() && Ran() && Tidy()
      ensures ok ==> published && exchanged && Swapped(old(disk.fs), disk.fs)
      ensures !ok ==> published == old(published) && exchanged == old(exchanged) && disk.fs == old(disk.fs)
      ensures ok <==> old(Has(temporary) && Has(Public(destination))) && Faultless()
    {
      ghost var s0 := disk.s;
      Lock(Op.Exchange);
      ghost var s1 := disk.s;
      ok := ExchangeUnlocking();
      Then(s0, owner, s1, disk.s);
    }

    // With the lock held, which is kept only for exchanged files.
    method ExchangeUnlocking() returns (ok: bool)
      requires At(ExSwap) && Holds() && !published && !done
      modifies this`published, this`exchanged, disk
      ensures Ready() && Ran() && Tidy()
      ensures ok ==> published && exchanged && Swapped(old(disk.fs), disk.fs)
      ensures !ok ==> published == old(published) && exchanged == old(exchanged) && disk.fs == old(disk.fs)
      ensures ok <==> old(Has(temporary) && Has(Public(destination))) && Faultless()
    {
      ghost var s0 := disk.s;
      ok := SwapIn();
      if !ok {
        ghost var s1 := disk.s;
        Unlock();
        Then(s0, owner, s1, disk.s);
      }
    }

    // ---- Commit and Rollback

    // Removing the backup or the exchanged predecessor.
    method CleanUp() returns (ok: bool)
      requires At(ComClean) && Holds() && published && !done
      modifies this`done, this`backup, disk
      ensures At(Unlocking) && Holds() && done && Ran()
      ensures forall path: string :: Entry(disk.fs, Public(path)) == Entry(old(disk.fs), Public(path))
      ensures ok ==>
        var cleanup := if exchanged then Some(temporary) else old(backup);
        cleanup.Some? ==> cleanup.value !in disk.fs.dir
      ensures ok ==> Tidy()
      ensures ok <==> Faultless()
      ensures !exchanged && old(backup).None? ==> ok
      ensures disk.refusals == old(disk.refusals)
    {
      var cleanup := if exchanged then Some(temporary) else backup;
      ok := disk.RemoveOptional(cleanup);
      CommitMove(View(disk.s, owner), owner, ok);
      disk.MoveTo(owner, Sys(ok, 0), CommitStep(View(disk.s, owner), owner, ok));
      if ok { backup := None; }
      done := true;
    }

    /** Commit accepts the published file: it is done even when the cleanup fails, and no destination changes. */
    method Commit() returns (ok: bool)
      requires Ready()
      modifies this`done, this`backup, disk
      ensures Ready() && Ran()
      ensures forall path: string :: Entry(disk.fs, Public(path)) == Entry(old(disk.fs), Public(path))
      ensures done == old(done || published)
      ensures ok && !old(done) ==>
        var cleanup := if exchanged then Some(temporary) else old(backup);
        published && (cleanup.Some? ==> cleanup.value !in disk.fs.dir)
      ensures ok ==> Tidy()
      ensures ok <==> old(done) || (published && Faultless())
      ensures !exchanged && old(backup).None? ==> Faultless()
      ensures disk.refusals == old(disk.refusals)
    {
      Stays(disk.s, owner);
      if done { return true; }
      if !published { return false; }
      ghost var s0 := disk.s;
      disk.Move(owner, Action.Commit);
      ghost var s1 := disk.s;
      ok := Accept();
      Then(s0, owner, s1, disk.s);
    }

    // The cleanup, and the release of the lock.
    method Accept() returns (ok: bool)
      requires At(ComClean) && Holds() && published && !done
      modifies this`done, this`backup, disk
      ensures Ready() && done && Ran()
      ensures forall path: string :: Entry(disk.fs, Public(path)) == Entry(old(disk.fs), Public(path))
      ensures ok ==>
        var cleanup := if exchanged then Some(temporary) else old(backup);
        cleanup.Some? ==> cleanup.value !in disk.fs.dir
      ensures ok ==> Tidy()
      ensures ok <==> Faultless()
      ensures !exchanged && old(backup).None? ==> ok
      ensures disk.refusals == old(disk.refusals)
    {
      ghost var s0 := disk.s;
      ok := CleanUp();
      ghost var s1 := disk.s;
      Unlock();
      Then(s0, owner, s1, disk.s);
    }

    // The unpublished temporary file is closed.
    method CloseForRollback() returns (ok: bool)
      requires At(RbClose) && !closed
      modifies this`closed, this`closeErr, disk`s, disk`faults
      ensures At(RbRemoveTemp(!ok)) && closed && disk.s.lk == old(disk.s.lk) && Ran()
      ensures ok <==> Faultless()
      ensures Tidy()
      ensures disk.refusals == old(disk.refusals)
    {
      ok := disk.Attempt();
      disk.Move(owner, Sys(ok, 0));
      closed, closeErr := true, !ok;
    }

    method RemoveUnpublished(closeFailed: bool) returns (ok: bool)
      requires At(RbRemoveTemp(closeFailed)) && !published && !done && LockTable.PcOf(disk.s.lk, owner).Idle?
      modifies this`done, disk
      ensures At(Idle) && disk.s.lk == old(disk.s.lk) && Ran() && Over()
      ensures done == ok && (ok ==> !closeFailed && temporary !in disk.fs.dir)
      ensures forall path: string :: Entry(disk.fs, Public(path)) == Entry(old(disk.fs), Public(path))
      ensures ok <==> Faultless() && !closeFailed
      ensures ok ==> Tidy()
      ensures disk.refusals == old(disk.refusals)
    {
      var removed := disk.RemoveIfPresent(temporary);
      ok := removed && !closeFailed;
      ghost var v := View(disk.s, owner);
      DisposeRests(v.(q := v.q.(done := ok, retired := true)), owner, temporary, removed);
      RemoveTempMove(v, owner, removed);
      disk.MoveTo(owner, Sys(removed, 0), RemoveTempStep(v, owner, closeFailed, removed));
      done := ok;
    }

    method SwapBack() returns (ok: bool)
      requires At(RbSwap) && Holds() && published
      modifies disk
      ensures Stands(if ok then RbDropStaged else Unlocking) && Abandoned() == !ok && Holds() && Ran()
      ensures if ok then Swapped(old(disk.fs), disk.fs) else disk.fs == old(disk.fs)
      ensures ok <==> Faultless() && old(Has(temporary) && Has(Public(destination)))
      ensures disk.refusals == old(disk.refusals)
    {
      ok := disk.Exchange(temporary, Public(destination));
      disk.MoveTo(owner, Sys(ok, 0), SwapBackStep(View(disk.s, owner), owner, ok));
    }

    method DropStaged() returns (ok: bool)
      requires At(RbDropStaged) && Holds() && published
      modifies this`done, disk
      ensures Stands(Unlocking) && Abandoned() == !ok && Holds() && Ran()
      ensures done == (old(done) || ok) && (ok ==> temporary !in disk.fs.dir)
      ensures forall path: string :: Entry(disk.fs, Public(path)) == Entry(old(disk.fs), Public(path))
      ensures ok <==> Faultless()
      ensures disk.refusals == old(disk.refusals)
    {
      ok := disk.RemoveIfPresent(temporary);
      DropStagedMove(View(disk.s, owner), owner, ok);
      disk.MoveTo(owner, Sys(ok, 0), DropStagedStep(View(disk.s, owner), owner, ok));
      if ok { done := true; }
    }

    method UndoExchange() returns (ok: bool)
      requires At(RbSwap) && Holds() && published && !done
      modifies this`done, disk
      ensures Stands(Unlocking) && Abandoned() == !ok && Holds() && Ran()
      ensures done == ok && OthersUntouched(old(disk.fs), disk.fs, destination)
      ensures ok ==> Entry(disk.fs, Public(destination)) == Entry(old(disk.fs), temporary) && temporary !in disk.fs.dir
      ensures ok <==> Faultless() && old(Has(temporary) && Has(Public(destination)))
      ensures disk.refusals == old(disk.refusals)
    {
      ghost var s0 := disk.s;
      ok := SwapBack();
      if ok {
        ghost var s1 := disk.s;
        ok := DropStaged();
        Then(s0, owner, s1, disk.s);
      }
    }

    method RestoreBackup() returns (ok: bool)
      requires At(RbRestore) && Holds() && published && !done && backup.Some?
      modifies this`done, this`backup, disk
      ensures Stands(Unlocking) && Abandoned() == !ok && Holds() && Ran()
      ensures done == ok && OthersUntouched(old(disk.fs), disk.fs, destination)
      ensures if ok then Entry(disk.fs, Public(destination)) == Entry(old(disk.fs), old(backup).value)
              else disk.fs == old(disk.fs)
      ensures ok <==> Faultless() && old(Has(backup.value))
      ensures disk.refusals == old(disk.refusals)
    {
      ok := disk.Rename(backup.value, Public(destination));
      RestoreMove(View(disk.s, owner), owner, ok);
      disk.MoveTo(owner, Sys(ok, 0), RestoreStep(View(disk.s, owner), owner, ok));
      if ok { backup, done := None, true; }
    }

    method RemoveCreated() returns (ok: bool)
      requires At(RbRemoveDest) && Holds() && published && !done
      modifies this`done, disk
      ensures Stands(Unlocking) && Abandoned() == !ok && Holds() && Ran()
      ensures done == ok && OthersUntouched(old(disk.fs), disk.fs, destination)
      ensures if ok then Public(destination) !in disk.fs.dir else disk.fs == old(disk.fs)
      ensures ok <==> Faultless()
      ensures disk.refusals == old(disk.refusals)
    {
      ok := disk.RemoveIfPresent(Public(destination));
      RemoveDestMove(View(disk.s, owner), owner, ok);
      disk.MoveTo(owner, Sys(ok, 0), RemoveDestStep(View(disk.s, owner), owner, ok));
      if ok { done := true; }
    }

    // What Rollback puts back at the destination.
    ghost function Predecessor(): Option<Ino>
      reads this, disk
    {
      if !published then Entry(disk.fs, Public(destination))
      else if exchanged then Entry(disk.fs, temporary)
      else if backup.Some? then Entry(disk.fs, backup.value)
      else None
    }

    // The rest of Rollback on a Pending that was not published.
    method Discard() returns (ok: bool)
      requires At(if closed then RbRemoveTemp(false) else RbClose) && !done && !published
      requires disk.s.lk.table.None? && LockTable.PcOf(disk.s.lk, owner).Idle?
      modifies this`closed, this`closeErr, this`done, disk
      ensures Ready() && Ran() && Over() && done == ok && (ok ==> temporary !in disk.fs.dir)
      ensures forall path: string :: Entry(disk.fs, Public(path)) == Entry(old(disk.fs), Public(path))
      ensures ok <==> Faultless()
      ensures ok ==> Tidy()
      ensures disk.refusals == old(disk.refusals)
    {
      if closed {
        ok := RemoveUnpublished(false);
      } else {
        ghost var s0 := disk.s;
        var closeOk := CloseForRollback();
        ghost var s1 := disk.s;
        ok := RemoveUnpublished(!closeOk);
        Then(s0, owner, s1, disk.s);
      }
    }

    // What the system calls of Rollback need is there.
    predicate CanRestore()
      reads this, disk
    {
      published ==>
        if exchanged then Has(temporary) && Has(Public(destination)) else backup.Some? ==> Has(backup.value)
    }

    method RollbackUnpublished() returns (ok: bool)
      requires Ready() && !done && !published
      modifies this`closed, this`closeErr, this`done, disk
      ensures Ready() && Ran() && Over() && done == ok && (ok ==> temporary !in disk.fs.dir)
      ensures forall path: string :: Entry(disk.fs, Public(path)) == Entry(old(disk.fs), Public(path))
      ensures ok <==> Faultless()
      ensures ok ==> Tidy()
      ensures disk.refusals == old(disk.refusals)
    {
      ghost var s0 := disk.s;
      disk.Move(owner, Action.Rollback);
      ghost var s1 := disk.s;
      ok := Discard();
      Then(s0, owner, s1, disk.s);
    }

    method RollbackPublished() returns (ok: bool)
      requires Ready() && !done && published
      modifies this`backup, this`done, disk
      ensures Resting() && Abandoned() == !ok
      ensures Ran() && done == ok && OthersUntouched(old(disk.fs), disk.fs, destination)
      ensures ok ==> Entry(disk.fs, Public(destination)) == old(Predecessor())
      ensures ok && exchanged ==> temporary !in disk.fs.dir
      ensures ok <==> Faultless() && old(CanRestore())
      ensures disk.refusals == old(disk.refusals)
    {
      ghost var s0 := disk.s;
      disk.Move(owner, Action.Rollback);
      ghost var s1 := disk.s;
      ok := RestoreUnlocking();
      Then(s0, owner, s1, disk.s);
    }

    method RestoreUnlocking() returns (ok: bool)
      requires Valid() && At(RollbackStart(disk.s.pend[owner])) && Holds() && !done && published
      modifies this`backup, this`done, disk
      ensures Resting() && Abandoned() == !ok
      ensures Ran() && done == ok && OthersUntouched(old(disk.fs), disk.fs, destination)
      ensures ok ==> Entry(disk.fs, Public(destination)) == old(Predecessor())
      ensures ok && exchanged ==> temporary !in disk.fs.dir
      ensures ok <==> Faultless() && old(CanRestore())
      ensures disk.refusals == old(disk.refusals)
    {
      ghost var s0 := disk.s;
      ok := Restore();
      ghost var s1 := disk.s;
      Unlock();
      Then(s0, owner, s1, disk.s);
    }

    method Restore() returns (ok: bool)
      requires Valid() && At(RollbackStart(disk.s.pend[owner])) && Holds() && !done && published
      modifies this`backup, this`done, disk
      ensures Stands(Unlocking) && Abandoned() == !ok && Holds()
      ensures Ran() && done == ok && OthersUntouched(old(disk.fs), disk.fs, destination)
      ensures ok ==> Entry(disk.fs, Public(destination)) == old(Predecessor())
      ensures ok && exchanged ==> temporary !in disk.fs.dir
      ensures ok <==> Faultless() && old(CanRestore())
      ensures disk.refusals == old(disk.refusals)
    {
      if exchanged {
        ok := UndoExchange();
      } else if backup.Some? {
        ok := RestoreBackup();
      } else {
        ok := RemoveCreated();
      }
    }

    /**
     Rollback removes an unpublished temporary file, or puts back what Publish, PublishIfAbsent or
     Exchange replaced, and frees the lock either way.  It does nothing when the Pending is done.
     */
    method Rollback() returns (ok: bool)
      requires Ready()
      modifies this`closed, this`closeErr, this`backup, this`done, disk
      ensures Resting() && (ok || !published ==> Ready() && Over())
      ensures Ran() && (done <==> ok) && OthersUntouched(old(disk.fs), disk.fs, destination)
      ensures old(done) ==> disk.fs == old(disk.fs)
      ensures ok && !old(done) ==> Entry(disk.fs, Public(destination)) == old(Predecessor())
      ensures ok && !old(done) && (exchanged || !published) ==> temporary !in disk.fs.dir
      ensures !published && !old(done) ==>
        Entry(disk.fs, Public(destination)) == Entry(old(disk.fs), Public(destination))
      ensures old(done) ==> Tidy() && done && Ready()
      ensures ok <==> old(done) || (Faultless() && old(CanRestore()))
      ensures old(done) ==> Smooth()
      ensures disk.refusals == old(disk.refusals)
      ensures ok && !published ==> Tidy()
    {
      Stays(disk.s, owner);
      if done { return true; }
      if !published {
        ok := RollbackUnpublished();
      } else {
        ok := RollbackPublished();
      }
    }

    /** The displaced predecessor moves to another private name; Rollback and Commit follow it there. */
    method RelocateExchangedPrevious() returns (ok: bool)
      requires Ready() && backup.None?
      modifies this`temporary, this`minted, disk
      ensures Ready() && Ran() && Predecessor() == old(Predecessor())
      ensures ok ==> exchanged && published && !done && temporary == Private(owner, old(minted))
      ensures !ok ==> temporary == old(temporary)
      ensures forall path: string :: Entry(disk.fs, Public(path)) == Entry(old(disk.fs), Public(path))
      ensures ok <==> exchanged && published && !done && Faultless() && old(Has(temporary))
    {
      Stays(disk.s, owner);
      if !exchanged || !published || done { return false; }
      ok := disk.Rename(temporary, Private(owner, minted));
      disk.Move(owner, Action.Relocate(ok));
      if ok { temporary, minted := Private(owner, minted), minted + 1; }
    }

    method Chmod() returns (ok: bool)
      requires At(CreateChmod)
      modifies disk`s, disk`faults
      ensures At(if ok then Idle else CreateUndo) && disk.s.lk == old(disk.s.lk) && Ran()
      ensures ok ==> Tidy()
      ensures ok <==> Faultless()
      ensures disk.refusals == old(disk.refusals)
    {
      ok := disk.Attempt();
      disk.Move(owner, Sys(ok, 0));
    }

    method AbandonCreate()
      requires At(CreateUndo) && !published && backup.None?
      modifies this`closed, this`done, disk
      ensures At(Idle) && disk.s.lk == old(disk.s.lk) && Ran() && Over()
      ensures forall path: string :: Entry(disk.fs, Public(path)) == Entry(old(disk.fs), Public(path))
      ensures disk.refusals == old(disk.refusals)
    {
      var removed := disk.RemoveIfPresent(temporary);
      ghost var l := CreateUndoStep(View(disk.s, owner), removed);
      assert l.fs == disk.fs && l.lk == disk.s.lk;
      assert l.q == disk.s.pend[owner].(closed := true, done := true, retired := true, pc := Idle, messy := l.q.messy);
      disk.MoveTo(owner, Sys(removed, 0), l);
      closed, done := true, true;
    }

    // The mode of the new file, or the file is given up.
    method Prepare() returns (ok: bool)
      requires At(CreateChmod) && !published && backup.None?
      modifies this`closed, this`done, disk
      ensures At(Idle) && disk.s.lk == old(disk.s.lk) && Ran() && (!ok ==> Over())
      ensures forall path: string :: Entry(disk.fs, Public(path)) == Entry(old(disk.fs), Public(path))
      ensures ok ==> disk.fs == old(disk.fs) && closed == old(closed) && done == old(done) && Tidy()
      ensures ok <==> Faultless()
      ensures disk.refusals == old(disk.refusals)
    {
      ghost var s0 := disk.s;
      ok := Chmod();
      if !ok {
        ghost var s1 := disk.s;
        AbandonCreate();
        Then(s0, owner, s1, disk.s);
      }
    }

    // One chunk of the writer.
    method WriteChunk(chunk: Bytes) returns (ok: bool)
      requires Ready() && !closed
      modifies disk
      ensures Ready() && Reaches(old(disk.s), owner, disk.s) && disk.s.lk == old(disk.s.lk) && Tidy()
      ensures disk.fs.dir == old(disk.fs).dir
      ensures ok ==> Read(disk.fs, Staged(owner)) == old(Read(disk.fs, Staged(owner))) + chunk
      ensures Counted() && (ok <==> Faultless())
      ensures disk.refusals == old(disk.refusals)
    {
      var n;
      n, ok := Write(chunk);
      assert ok ==> chunk[..n] == chunk;
    }

    // Writes the chunks in turn, up to the first that fails.
    method WriteAll(chunks: seq<Bytes>) returns (ok: bool)
      requires Ready() && !closed
      modifies disk
      ensures Ready() && Reaches(old(disk.s), owner, disk.s) && disk.s.lk == old(disk.s.lk) && Tidy()
      ensures disk.fs.dir == old(disk.fs).dir
      ensures ok ==> Read(disk.fs, Staged(owner)) == old(Read(disk.fs, Staged(owner))) + Concat(chunks)
      ensures Counted() && (ok <==> Faultless())
      ensures disk.refusals == old(disk.refusals)
    {
      Stays(disk.s, owner);
      ghost var start := Read(disk.fs, Staged(owner));
      for i := 0 to |chunks|
        invariant Ready() && Reaches(old(disk.s), owner, disk.s) && disk.s.lk == old(disk.s.lk) && Tidy()
        invariant Smooth()
        invariant disk.fs.dir == old(disk.fs).dir
        invariant Read(disk.fs, Staged(owner)) == start + Concat(chunks[..i])
      {
        ghost var before := disk.s;
        ok := WriteChunk(chunks[i]);
        Then(old(disk.s), owner, before, disk.s);
        if !ok { return; }
        ConcatNext(start, chunks, i);
      }
      assert chunks[..|chunks|] == chunks;
      ok := true;
    }
  }

  function Concat(chunks: seq<Bytes>): Bytes {
    if chunks == [] then [] else Concat(chunks[..|chunks| - 1]) + chunks[|chunks| - 1]
  }

  lemma ConcatNext(start: Bytes, chunks: seq<Bytes>, i: nat)
    requires i < |chunks|
    ensures start + Concat(chunks[..i]) + chunks[i] == start + Concat(chunks[..i + 1])
  {
    assert chunks[..i + 1][..i] == chunks[..i];
  }

  /** A temporary file beside the destination, or nothing. */
  method Create(disk: Directory, owner: Pid, destination: string) returns (h: Handle?)
    requires owner !in disk.s.pend && disk.s.fs == disk.fs
    requires disk.s.lk.table.None? && LockTable.PcOf(disk.s.lk, owner).Idle?
    modifies disk
    ensures Reaches(old(disk.s), owner, disk.s) && disk.s.fs == disk.fs && disk.s.lk == old(disk.s.lk)
    ensures forall path: string :: Entry(disk.fs, Public(path)) == Entry(old(disk.fs), Public(path))
    ensures destination == "" ==> h == null
    ensures h == null && owner in disk.s.pend ==> Finished(disk.s.pend[owner])
    ensures h != null ==>
      && fresh(h) && h.disk == disk && h.owner == owner && h.destination == destination && h.Ready()
      && !h.closed && !h.closeErr && !h.published && !h.exchanged && !h.done && h.backup.None?
      && !disk.s.pend[owner].messy
      && Content(disk.fs, h.temporary) == Some([]) && Entry(disk.fs, h.temporary) == Some(Staged(owner))
    ensures old(disk.faults) <= disk.faults && disk.refusals == old(disk.refusals)
    ensures h != null <==> destination != "" && disk.faults == old(disk.faults)
  {
    Stays(disk.s, owner);
    if destination == "" { return null; }
    var ok := disk.CreateTemp(Private(owner, 0), Staged(owner));
    if !ok { return null; }
    h := Wrap(disk, owner, destination);
  }

  // The Pending around the file that CreateTemp has just made, if its mode can be set.
  method Wrap(disk: Directory, owner: Pid, destination: string) returns (h: Handle?)
    requires owner !in disk.s.pend
    requires disk.fs == CreateFile(disk.s.fs, Private(owner, 0), Staged(owner))
    requires disk.s.lk.table.None? && LockTable.PcOf(disk.s.lk, owner).Idle?
    modifies disk
    ensures Reaches(old(disk.s), owner, disk.s) && disk.s.fs == disk.fs && disk.s.lk == old(disk.s.lk)
    ensures forall path: string :: Entry(disk.fs, Public(path)) == Entry(old(disk.fs), Public(path))
    ensures h == null && owner in disk.s.pend ==> Finished(disk.s.pend[owner])
    ensures h != null ==>
      && fresh(h) && h.disk == disk && h.owner == owner && h.destination == destination && h.Ready()
      && !h.closed && !h.closeErr && !h.published && !h.exchanged && !h.done && h.backup.None?
      && !disk.s.pend[owner].messy
      && Content(disk.fs, h.temporary) == Some([]) && Entry(disk.fs, h.temporary) == Some(Staged(owner))
    ensures old(disk.faults) <= disk.faults && disk.refusals == old(disk.refusals)
    ensures h != null <==> disk.faults == old(disk.faults)
  {
    ghost var s0 := disk.s;
    var made := new Handle.Around(disk, owner, destination);
    ghost var s1 := disk.s;
    var ok := made.Prepare();
    Then(s0, owner, s1, disk.s);
    h := if ok then made else null;
  }

  // A Pending that has just been written: open or closed without an error, and not published.
  ghost predicate Staging(h: Handle)
    reads h, h.disk
  {
    && h.Ready() && !h.closeErr && !h.published && !h.exchanged && !h.done && h.backup.None?
    && CanLock(h.disk.s.lk, h.owner, h.destination) && Entry(h.disk.fs, h.temporary) == Some(Staged(h.owner))
  }

  // Close, Publish and Commit.
  method Finish(h: Handle) returns (ok: bool)
    requires Staging(h)
    modifies h, h.disk
    ensures h.Ran() && h.Ready() && h.done == h.published && (ok ==> h.published && h.Tidy())
    ensures OthersUntouched(old(h.disk.fs), h.disk.fs, h.destination) && h.destination == old(h.destination)
    ensures Entry(h.disk.fs, Public(h.destination)) ==
      if h.published then Some(Staged(h.owner)) else Entry(old(h.disk.fs), Public(h.destination))
    ensures ok <==> h.Faultless()
  {
    ghost var s0 := h.disk.s;
    ok := h.Close();
    if !ok { return; }
    ghost var s1 := h.disk.s;
    ok := h.Publish();
    Then(s0, h.owner, s1, h.disk.s);
    if !ok { return; }
    ghost var s2 := h.disk.s;
    ok := h.Commit();
    Then(s0, h.owner, s2, h.disk.s);
  }

  // Close, PublishIfAbsent and Commit.  `undone` is false when taking the link back failed.
  method FinishIfAbsent(h: Handle) returns (created: bool, ok: bool, undone: bool)
    requires Staging(h)
    modifies h, h.disk
    ensures h.Ran() && h.Ready() && h.done == h.published == created && (ok ==> h.Tidy())
    ensures OthersUntouched(old(h.disk.fs), h.disk.fs, h.destination) && h.destination == old(h.destination)
    ensures created || !undone ==>
      Public(h.destination) !in old(h.disk.fs).dir && Entry(h.disk.fs, Public(h.destination)) == Some(Staged(h.owner))
    ensures created ==> undone
    ensures !created && undone ==>
      Entry(h.disk.fs, Public(h.destination)) == Entry(old(h.disk.fs), Public(h.destination))
    ensures ok <==> h.Smooth()
    ensures created <==> ok && Public(h.destination) !in old(h.disk.fs).dir
  {
    ghost var s0 := h.disk.s;
    created, undone := false, true;
    ok := h.Close();
    if !ok { return; }
    ghost var s1 := h.disk.s;
    created, ok, undone := h.PublishIfAbsent();
    Then(s0, h.owner, s1, h.disk.s);
    if !created { return; }
    ghost var s2 := h.disk.s;
    ok := h.Commit();
    Then(s0, h.owner, s2, h.disk.s);
  }

  // The chunks of the caller's writer, which may then return an error of its own.
  method Stage(h: Handle, chunks: seq<Bytes>, fails: bool) returns (ok: bool)
    requires h.Ready() && !h.closed
    modifies h.disk
    ensures h.Ready() && Reaches(old(h.disk.s), h.owner, h.disk.s) && h.disk.s.lk == old(h.disk.s.lk) && h.Tidy()
    ensures h.disk.fs.dir == old(h.disk.fs).dir && h.Counted() && h.disk.refusals == old(h.disk.refusals)
    ensures ok <==> !fails && h.Faultless()
    ensures ok ==> Read(h.disk.fs, Staged(h.owner)) == old(Read(h.disk.fs, Staged(h.owner))) + Concat(chunks)
  {
    ok := h.WriteAll(chunks);
    ok := ok && !fails;
  }

  // The publication if all was written, and the deferred Rollback.
  method FinishOrRollback(h: Handle, staged: bool) returns (ok: bool)
    requires Staging(h)
    modifies h, h.disk
    ensures h.Ran() && h.Resting() && h.Over() && (ok ==> h.published && h.done && h.Tidy())
    ensures OthersUntouched(old(h.disk.fs), h.disk.fs, h.destination) && h.destination == old(h.destination)
    ensures Entry(h.disk.fs, Public(h.destination)) ==
      if h.published then Some(Staged(h.owner)) else Entry(old(h.disk.fs), Public(h.destination))
    ensures h.published ==> staged
    ensures ok <==> staged && h.Faultless()
  {
    Stays(h.disk.s, h.owner);
    ghost var s0 := h.disk.s;
    ok := false;
    if staged { ok := Finish(h); }
    ghost var s1 := h.disk.s;
    var cleaned := h.Rollback();
    Then(s0, h.owner, s1, h.disk.s);
    ok := ok && cleaned;
  }

  method FinishIfAbsentOrRollback(h: Handle, staged: bool) returns (created: bool, ok: bool, undone: bool)
    requires Staging(h)
    modifies h, h.disk
    ensures h.Ran() && h.Resting() && h.Over()
    ensures (ok ==> h.Tidy()) && (created ==> staged && undone)
    ensures OthersUntouched(old(h.disk.fs), h.disk.fs, h.destination) && h.destination == old(h.destination)
    ensures created || !undone ==>
      && staged && Public(h.destination) !in old(h.disk.fs).dir
      && Entry(h.disk.fs, Public(h.destination)) == Some(Staged(h.owner))
    ensures !created && undone ==>
      Entry(h.disk.fs, Public(h.destination)) == Entry(old(h.disk.fs), Public(h.destination))
    ensures ok <==> staged && h.Smooth()
    ensures created <==> ok && Public(h.destination) !in old(h.disk.fs).dir
  {
    Stays(h.disk.s, h.owner);
    ghost var s0 := h.disk.s;
    created, ok, undone := false, false, true;
    if staged { created, ok, undone := FinishIfAbsent(h); }
    ghost var s1 := h.disk.s;
    var cleaned := h.Rollback();
    Then(s0, h.owner, s1, h.disk.s);
    ok := ok && cleaned;
  }

  // The goroutine's calls are over, and none of their cleanups failed.
  predicate Clean(s: State, p: Pid) {
    p in s.pend && Finished(s.pend[p]) && !s.pend[p].messy
  }

  /**
   Write: the destination ends with all the chunks or as it was, and no other destination changes.
   It succeeds exactly when the caller's writer does, there is a destination, and no system call failed; a
   hard link that was refused is made good by a copy.  `fails` says that the writer returns an error after
   its chunks.
   */
  method WriteFile(disk: Directory, owner: Pid, destination: string, chunks: seq<Bytes>, fails: bool)
    returns (ok: bool)
    requires owner !in disk.s.pend && disk.s.fs == disk.fs && CanLock(disk.s.lk, owner, destination)
    modifies disk
    ensures Reaches(old(disk.s), owner, disk.s) && disk.s.fs == disk.fs
    ensures OthersUntouched(old(disk.fs), disk.fs, destination)
    ensures ok ==> !fails && Content(disk.fs, Public(destination)) == Some(Concat(chunks)) && Clean(disk.s, owner)
    ensures ok <==> !fails && destination != "" && disk.faults == old(disk.faults)
    ensures Entry(disk.fs, Public(destination)) == Entry(old(disk.fs), Public(destination))
      || (!fails && Content(disk.fs, Public(destination)) == Some(Concat(chunks)))
    ensures disk.s.lk.table.None? && LockTable.PcOf(disk.s.lk, owner).Idle?
    ensures owner in disk.s.pend ==> Finished(disk.s.pend[owner])
  {
    var h := Create(disk, owner, destination);
    if h == null { return false; }
    ghost var s0, s1 := old(disk.s), disk.s;
    assert Read(disk.fs, Staged(owner)) == [];
    var staged := Stage(h, chunks, fails);
    Then(s0, owner, s1, disk.s);
    assert [] + Concat(chunks) == Concat(chunks);
    ghost var s2 := disk.s;
    ok := FinishOrRollback(h, staged);
    Then(s0, owner, s2, disk.s);
  }

  /**
   WriteIfAbsent: an existing destination is never replaced, and that is no error.  Where there was none,
   the destination ends with all the chunks, or without a file; `undone` is false when it ends with all the
   chunks although the call failed, because taking the link back failed.
   */
  method WriteFileIfAbsent(disk: Directory, owner: Pid, destination: string, chunks: seq<Bytes>, fails: bool)
    returns (created: bool, ok: bool, undone: bool)
    requires owner !in disk.s.pend && disk.s.fs == disk.fs && CanLock(disk.s.lk, owner, destination)
    modifies disk
    ensures Reaches(old(disk.s), owner, disk.s) && disk.s.fs == disk.fs
    ensures OthersUntouched(old(disk.fs), disk.fs, destination)
    ensures Public(destination) in old(disk.fs).dir ==>
      !created && undone && Entry(disk.fs, Public(destination)) == Entry(old(disk.fs), Public(destination))
    ensures created || !undone ==> !fails && Content(disk.fs, Public(destination)) == Some(Concat(chunks))
    ensures !created && undone ==> Entry(disk.fs, Public(destination)) == Entry(old(disk.fs), Public(destination))
    ensures created ==> undone
    ensures ok ==> Clean(disk.s, owner)
    ensures ok <==>
      !fails && destination != "" && disk.faults == old(disk.faults) && disk.refusals == old(disk.refusals)
    ensures created <==> ok && Public(destination) !in old(disk.fs).dir
    ensures disk.s.lk.table.None? && LockTable.PcOf(disk.s.lk, owner).Idle?
    ensures owner in disk.s.pend ==> Finished(disk.s.pend[owner])
  {
    var h := Create(disk, owner, destination);
    if h == null { return false, false, true; }
    ghost var s0, s1 := old(disk.s), disk.s;
    assert Read(disk.fs, Staged(owner)) == [];
    var staged := Stage(h, chunks, fails);
    Then(s0, owner, s1, disk.s);
    assert [] + Concat(chunks) == Concat(chunks);
    ghost var s2 := disk.s;
    created, ok, undone := FinishIfAbsentOrRollback(h, staged);
    Then(s0, owner, s2, disk.s);
  }
}
