/**
 The reference-counted table of per-destination locks.

 Every goroutine that publishes to a destination runs acquireDestinationLock and
 releaseDestinationLock.  Both are split here at each mutex operation and at each access to
 shared data, and any number of goroutines interleave.  `table` is the mutex of the table
 itself; each entry carries its own mutex and a count of the goroutines that want it.
 */
module LockTable {
  import opened Wrappers

  type Pid = nat
  type Key = string
  type Eid = nat

  // What the goroutines share: the identity of an entry is its index in `heap`, which only grows.
  datatype Entry = Entry(refs: int, holder: Option<Pid>)

  // Where one goroutine stands.
  datatype Pc =
    | Idle
    | AcqTable(key: Key)                 // about to lock the table
    | AcqLookup(key: Key)                // table locked: find or insert the entry
    | AcqRef(key: Key, e: Eid)           // table locked: refs++
    | AcqUnlock(key: Key, e: Eid)        // table locked: unlock it
    | AcqEntry(key: Key, e: Eid)         // about to lock the entry
    | Holding(key: Key, e: Eid)
    | RelTable(key: Key, e: Eid)         // about to lock the table
    | RelRef(key: Key, e: Eid)           // table locked: refs--
    | RelUnlockEntry(key: Key, e: Eid)   // table locked: unlock the entry
    | RelDrop(key: Key, e: Eid)          // table locked: delete the entry when refs is zero
    | RelUnlock(key: Key, e: Eid)        // table locked: unlock it

  datatype State = State(
    table: Option<Pid>,
    entries: map<Key, Eid>,
    heap: seq<Entry>,
    pcs: map<Pid, Pc>)

  const EMPTY := State(None, map[], [], map[])

  function PcOf(s: State, p: Pid): Pc {
    if p in s.pcs then s.pcs[p] else Idle
  }

  function At(s: State, p: Pid, pc: Pc): State {
    s.(pcs := s.pcs[p := pc])
  }

  predicate InTable(pc: Pc) {
    pc.AcqLookup? || pc.AcqRef? || pc.AcqUnlock? ||
    pc.RelRef? || pc.RelUnlockEntry? || pc.RelDrop? || pc.RelUnlock?
  }

  // Between refs++ and refs--.
  predicate Counts(pc: Pc, e: Eid) {
    (pc.AcqUnlock? || pc.AcqEntry? || pc.Holding? || pc.RelTable? || pc.RelRef?) && pc.e == e
  }

  // Between locking and unlocking the mutex of the entry.
  predicate Owns(pc: Pc, e: Eid) {
    (pc.Holding? || pc.RelTable? || pc.RelRef? || pc.RelUnlockEntry?) && pc.e == e
  }

  predicate Acquiring(pc: Pc) {
    pc.AcqTable? || pc.AcqLookup? || pc.AcqRef? || pc.AcqUnlock? || pc.AcqEntry?
  }

  predicate Releasing(pc: Pc) {
    pc.RelTable? || pc.RelRef? || pc.RelUnlockEntry? || pc.RelDrop? || pc.RelUnlock?
  }

  predicate Knows(pc: Pc) {
    !pc.Idle? && !pc.AcqTable? && !pc.AcqLookup?
  }

  // A goroutine calls acquireDestinationLock(k).
  function Begin(s: State, p: Pid, k: Key): State {
    if PcOf(s, p).Idle? then At(s, p, AcqTable(k)) else s
  }

  // A goroutine that holds a lock calls releaseDestinationLock.
  function BeginRelease(s: State, p: Pid): State {
    match PcOf(s, p)
    case Holding(k, e) => At(s, p, RelTable(k, e))
    case _ => s
  }

  // The goroutine is inside one of the two functions and its next statement does not block.
  predicate Enabled(s: State, p: Pid) {
    match PcOf(s, p)
    case Idle => false
    case Holding(_, _) => false
    case AcqTable(_) => s.table.None?
    case RelTable(_, _) => s.table.None?
    case AcqEntry(_, e) => e < |s.heap| && s.heap[e].holder.None?
    case _ => true
  }

  // The next statement of goroutine p; a blocked goroutine does not move.
  function Next(s: State, p: Pid): State {
    if !Enabled(s, p) then s else
    match PcOf(s, p)
    case AcqTable(k) => At(s.(table := Some(p)), p, AcqLookup(k))
    case AcqLookup(k) =>
      if k in s.entries then At(s, p, AcqRef(k, s.entries[k]))
      else
        At(s.(entries := s.entries[k := |s.heap|], heap := s.heap + [Entry(0, None)]), p, AcqRef(k, |s.heap|))
    case AcqRef(k, e) => if e < |s.heap| then At(AddRef(s, e, 1), p, AcqUnlock(k, e)) else s
    case AcqUnlock(k, e) => At(s.(table := None), p, AcqEntry(k, e))
    case AcqEntry(k, e) => At(SetHolder(s, e, Some(p)), p, Holding(k, e))
    case RelTable(k, e) => At(s.(table := Some(p)), p, RelRef(k, e))
    case RelRef(k, e) => if e < |s.heap| then At(AddRef(s, e, -1), p, RelUnlockEntry(k, e)) else s
    case RelUnlockEntry(k, e) => if e < |s.heap| then At(SetHolder(s, e, None), p, RelDrop(k, e)) else s
    case RelDrop(k, e) =>
      if e < |s.heap| && s.heap[e].refs == 0 then At(s.(entries := s.entries - {k}), p, RelUnlock(k, e))
      else At(s, p, RelUnlock(k, e))
    case RelUnlock(_, _) => At(s.(table := None), p, Idle)
    case _ => s
  }

  function AddRef(s: State, e: Eid, delta: int): State
    requires e < |s.heap|
  {
    s.(heap := s.heap[e := s.heap[e].(refs := s.heap[e].refs + delta)])
  }

  function SetHolder(s: State, e: Eid, holder: Option<Pid>): State
    requires e < |s.heap|
  {
    s.(heap := s.heap[e := s.heap[e].(holder := holder)])
  }

  ghost function Counted(s: State, e: Eid): set<Pid> {
    set p | p in s.pcs && Counts(s.pcs[p], e)
  }

  // ---- The invariant -------------------------------------------------------------------

  ghost predicate TableInv(s: State) {
    forall p: Pid :: s.table == Some(p) <==> InTable(PcOf(s, p))
  }

  ghost predicate RefsInv(s: State) {
    forall e :: 0 <= e < |s.heap| ==> s.heap[e].refs == |Counted(s, e)|
  }

  ghost predicate HolderInv(s: State) {
    forall e: Eid, p: Pid :: e < |s.heap| ==> (s.heap[e].holder == Some(p) <==> Owns(PcOf(s, p), e))
  }

  ghost predicate Known(s: State, pc: Pc) {
    Knows(pc) ==> pc.e < |s.heap| && (!pc.RelUnlock? ==> pc.key in s.entries && s.entries[pc.key] == pc.e)
  }

  ghost predicate KnowsInv(s: State) {
    forall p: Pid :: Known(s, PcOf(s, p))
  }

  ghost predicate EntriesInv(s: State) {
    && (forall k :: k in s.entries ==> s.entries[k] < |s.heap|)
    && (forall k, l :: k in s.entries && l in s.entries && s.entries[k] == s.entries[l] ==> k == l)
    && (forall k :: k in s.entries && s.heap[s.entries[k]].refs == 0 ==>
          s.table.Some? && var pc := PcOf(s, s.table.value);
          (pc.AcqRef? || pc.RelUnlockEntry? || pc.RelDrop?) && pc.key == k)
  }

  ghost predicate Inv(s: State) {
    TableInv(s) && RefsInv(s) && HolderInv(s) && KnowsInv(s) && EntriesInv(s)
  }

  // ---- Preservation --------------------------------------------------------------------

  // Moving one goroutine changes the counted set of an entry by at most that goroutine.
  lemma CountedAfter(s: State, s': State, p: Pid, e: Eid)
    requires s'.pcs == s.pcs[p := PcOf(s', p)]
    ensures Counted(s', e) == if Counts(PcOf(s', p), e) then Counted(s, e) + {p} else Counted(s, e) - {p}
    ensures p in Counted(s, e) <==> Counts(PcOf(s, p), e)
    ensures |Counted(s', e)| == |Counted(s, e)|
                                + (if Counts(PcOf(s', p), e) then 1 else 0)
                                - (if Counts(PcOf(s, p), e) then 1 else 0)
  {
    var now := if Counts(PcOf(s', p), e) then Counted(s, e) + {p} else Counted(s, e) - {p};
    forall q ensures q in Counted(s', e) <==> q in now {
      assert q != p ==> (q in s'.pcs <==> q in s.pcs) && (q in s.pcs ==> s'.pcs[q] == s.pcs[q]);
    }
    assert Counted(s', e) == now;
  }

  lemma RefsAfter(s: State, s': State, p: Pid)
    requires RefsInv(s)
    requires s'.pcs == s.pcs[p := PcOf(s', p)]
    requires |s.heap| <= |s'.heap| <= |s.heap| + 1
    requires forall e :: 0 <= e < |s.heap| ==>
      s'.heap[e].refs == s.heap[e].refs + (if Counts(PcOf(s', p), e) then 1 else 0)
                         - (if Counts(PcOf(s, p), e) then 1 else 0)
    requires |s'.heap| > |s.heap| ==>
      s'.heap[|s.heap|].refs == 0 && Counted(s, |s.heap|) == {} && !Counts(PcOf(s', p), |s.heap|)
    ensures RefsInv(s')
  {
    forall e | 0 <= e < |s'.heap| ensures s'.heap[e].refs == |Counted(s', e)| {
      CountedAfter(s, s', p, e);
    }
  }

  lemma BeginKeeps(s: State, p: Pid, k: Key)
    requires Inv(s)
    ensures Inv(Begin(s, p, k))
  {
    var s' := Begin(s, p, k);
    if PcOf(s, p).Idle? {
      RefsAfter(s, s', p);
    }
  }

  lemma BeginReleaseKeeps(s: State, p: Pid)
    requires Inv(s)
    ensures Inv(BeginRelease(s, p))
  {
    var s' := BeginRelease(s, p);
    if PcOf(s, p).Holding? {
      RefsAfter(s, s', p);
    }
  }

  lemma NextKeeps(s: State, p: Pid)
    requires Inv(s)
    ensures Inv(Next(s, p))
  {
    NextTable(s, p);
    NextRefs(s, p);
    NextHolder(s, p);
    NextKnows(s, p);
    NextEntries(s, p);
  }

  lemma MovesAlone(s: State, p: Pid, o: Pid)
    requires o != p
    ensures PcOf(Next(s, p), o) == PcOf(s, o)
    ensures PcOf(BeginRelease(s, p), o) == PcOf(s, o)
  {
  }

  lemma NextTable(s: State, p: Pid)
    requires Inv(s)
    ensures TableInv(Next(s, p))
  {
  }

  lemma NextRefs(s: State, p: Pid)
    requires Inv(s)
    ensures RefsInv(Next(s, p))
  {
    if Enabled(s, p) {
      assert Knows(PcOf(s, p)) ==> PcOf(s, p).e < |s.heap|;
      if PcOf(s, p).AcqLookup? {
        NobodyCountsFresh(s);
      }
      RefsAfter(s, Next(s, p), p);
    }
  }

  lemma NobodyCountsFresh(s: State)
    requires KnowsInv(s)
    ensures Counted(s, |s.heap|) == {}
  {
    assert forall q: Pid :: Known(s, PcOf(s, q));
    assert forall q :: q in s.pcs ==> PcOf(s, q) == s.pcs[q];
  }

  lemma HolderAfter(s: State, s': State, p: Pid)
    requires HolderInv(s) && KnowsInv(s)
    requires s'.pcs == s.pcs[p := PcOf(s', p)] && |s.heap| <= |s'.heap|
    requires forall e: Eid :: e < |s.heap| ==>
      var was, now := Owns(PcOf(s, p), e), Owns(PcOf(s', p), e);
      s'.heap[e].holder == if now == was then s.heap[e].holder else if now then Some(p) else None
    requires forall e: Eid :: e < |s.heap| && Owns(PcOf(s', p), e) && !Owns(PcOf(s, p), e) ==> s.heap[e].holder == None
    requires forall e: Eid :: |s.heap| <= e < |s'.heap| ==> s'.heap[e].holder == None && !Owns(PcOf(s', p), e)
    ensures HolderInv(s')
  {
    forall e: Eid, q: Pid | e < |s'.heap| ensures s'.heap[e].holder == Some(q) <==> Owns(PcOf(s', q), e) {
      if q != p { assert PcOf(s', q) == PcOf(s, q) && Known(s, PcOf(s, q)); }
      if e < |s.heap| {
        assert s.heap[e].holder == Some(q) <==> Owns(PcOf(s, q), e);
        assert s.heap[e].holder == Some(p) <==> Owns(PcOf(s, p), e);
      }
    }
  }

  lemma NextHolder(s: State, p: Pid)
    requires Inv(s)
    ensures HolderInv(Next(s, p))
  {
    if Enabled(s, p) {
      if Acquiring(PcOf(s, p)) { AcquireHolder(s, p); } else { ReleaseHolder(s, p); }
    }
  }

  lemma AcquireHolder(s: State, p: Pid)
    requires Inv(s) && Enabled(s, p) && Acquiring(PcOf(s, p))
    ensures HolderInv(Next(s, p))
  {
    var s' := Next(s, p);
    assert Known(s, PcOf(s, p));
    match PcOf(s, p)
    case AcqTable(k) => HolderAfter(s, s', p);
    case AcqLookup(k) => HolderAfter(s, s', p);
    case AcqRef(k, e) => HolderAfter(s, s', p);
    case AcqUnlock(k, e) => HolderAfter(s, s', p);
    case AcqEntry(k, e) => HolderAfter(s, s', p);
  }

  lemma ReleaseHolder(s: State, p: Pid)
    requires Inv(s) && Enabled(s, p) && Releasing(PcOf(s, p))
    ensures HolderInv(Next(s, p))
  {
    var s' := Next(s, p);
    assert Known(s, PcOf(s, p));
    match PcOf(s, p)
    case RelTable(k, e) => HolderAfter(s, s', p);
    case RelRef(k, e) => HolderAfter(s, s', p);
    case RelUnlockEntry(k, e) => HolderAfter(s, s', p);
    case RelDrop(k, e) => HolderAfter(s, s', p);
    case RelUnlock(k, e) => HolderAfter(s, s', p);
  }

  lemma NextKnows(s: State, p: Pid)
    requires Inv(s)
    ensures KnowsInv(Next(s, p))
  {
    var s' := Next(s, p);
    assert Known(s, PcOf(s, p));
    forall q: Pid ensures Known(s', PcOf(s', q)) {
      assert Known(s, PcOf(s, q));
      if PcOf(s, p).RelDrop? && q != p {
        if s.heap[PcOf(s, p).e].refs == 0 { DropSpares(s, p, q); }
      }
    }
  }

  lemma NextEntries(s: State, p: Pid)
    requires Inv(s)
    ensures EntriesInv(Next(s, p))
  {
    assert Knows(PcOf(s, p)) ==> PcOf(s, p).e < |s.heap|;
    if Counts(PcOf(s, p), if Knows(PcOf(s, p)) then PcOf(s, p).e else 0) {
      CountPositive(s, p, PcOf(s, p).e);
    }
  }

  lemma CountPositive(s: State, p: Pid, e: Eid)
    requires RefsInv(s) && e < |s.heap| && Counts(PcOf(s, p), e)
    ensures s.heap[e].refs > 0
  {
    assert p in Counted(s, e);
  }

  // An entry is deleted only when no other goroutine relies on it.
  lemma DropSpares(s: State, p: Pid, q: Pid)
    requires Inv(s) && PcOf(s, p).RelDrop? && q != p
    requires PcOf(s, p).e < |s.heap| && s.heap[PcOf(s, p).e].refs == 0
    ensures Knows(PcOf(s, q)) && !PcOf(s, q).RelUnlock? ==> PcOf(s, q).key != PcOf(s, p).key
  {
    var e := PcOf(s, p).e;
    assert Known(s, PcOf(s, p)) && Known(s, PcOf(s, q));
    assert s.heap[e].refs == |Counted(s, e)|;
    assert Counts(PcOf(s, q), e) ==> q in Counted(s, e);
  }

  // ---- Whole runs ----------------------------------------------------------------------

  // One move of a schedule: a goroutine starts a call, or runs its next statement.
  datatype Move = Acquire(p: Pid, k: Key) | Release(p: Pid) | Step(p: Pid)

  function Apply(s: State, m: Move): State {
    match m
    case Acquire(p, k) => Begin(s, p, k)
    case Release(p) => BeginRelease(s, p)
    case Step(p) => Next(s, p)
  }

  function Run(moves: seq<Move>): State {
    if moves == [] then EMPTY else Apply(Run(moves[..|moves| - 1]), moves[|moves| - 1])
  }

  lemma {:induction false} RunKeeps(moves: seq<Move>)
    ensures Inv(Run(moves))
  {
    if moves == [] {
    } else {
      var before := moves[..|moves| - 1];
      RunKeeps(before);
      match moves[|moves| - 1]
      case Acquire(p, k) => BeginKeeps(Run(before), p, k);
      case Release(p) => BeginReleaseKeeps(Run(before), p);
      case Step(p) => NextKeeps(Run(before), p);
    }
  }

  // ---- What the invariant means --------------------------------------------------------

  /** Two goroutines never hold the lock of one key at the same time. */
  lemma MutualExclusion(moves: seq<Move>, p: Pid, q: Pid)
    requires PcOf(Run(moves), p).Holding? && PcOf(Run(moves), q).Holding?
    requires PcOf(Run(moves), p).key == PcOf(Run(moves), q).key
    ensures p == q
  {
    RunKeeps(moves);
    OneHolder(Run(moves), p, q);
  }

  lemma OneHolder(s: State, p: Pid, q: Pid)
    requires Inv(s)
    requires PcOf(s, p).Holding? && PcOf(s, q).Holding? && PcOf(s, p).key == PcOf(s, q).key
    ensures p == q
  {
    var e := PcOf(s, p).e;
    assert Knows(PcOf(s, p)) && Knows(PcOf(s, q));
    assert Owns(PcOf(s, p), e) && Owns(PcOf(s, q), e);
    assert s.heap[e].holder == Some(p) && s.heap[e].holder == Some(q);
  }

  /** All goroutines that want one key, or hold it, use the same entry, and it is the one in the table. */
  lemma SharedEntry(moves: seq<Move>, p: Pid, q: Pid, d: Eid, e: Eid)
    requires Counts(PcOf(Run(moves), p), d) && Counts(PcOf(Run(moves), q), e)
    ensures PcOf(Run(moves), p).key == PcOf(Run(moves), q).key <==> d == e
    ensures PcOf(Run(moves), p).key in Run(moves).entries && Run(moves).entries[PcOf(Run(moves), p).key] == d
  {
    RunKeeps(moves);
    assert Knows(PcOf(Run(moves), p)) && Knows(PcOf(Run(moves), q));
  }

  /** Whenever the table is unlocked, an entry is in it exactly while its count is positive, and the
      count is the number of goroutines that hold or wait for it. */
  lemma InTableWhileCounted(moves: seq<Move>, e: Eid)
    requires Run(moves).table.None? && e < |Run(moves).heap|
    ensures (exists k :: k in Run(moves).entries && Run(moves).entries[k] == e) <==> Run(moves).heap[e].refs > 0
    ensures Run(moves).heap[e].refs == |Counted(Run(moves), e)|
  {
    RunKeeps(moves);
    var s := Run(moves);
    if s.heap[e].refs > 0 {
      assert Counted(s, e) != {};
      var p :| p in Counted(s, e);
      assert Knows(PcOf(s, p));
      assert PcOf(s, p).key in s.entries && s.entries[PcOf(s, p).key] == e;
    }
  }

  /** Once every goroutine has released, nothing is left in the table and no mutex is locked. */
  lemma EmptyWhenAllReleased(moves: seq<Move>)
    requires forall p :: PcOf(Run(moves), p).Idle?
    ensures Run(moves).entries == map[] && Run(moves).table == None
    ensures forall e :: 0 <= e < |Run(moves).heap| ==> Run(moves).heap[e] == Entry(0, None)
  {
    RunKeeps(moves);
    IdleMeansEmpty(Run(moves));
  }

  lemma IdleMeansEmpty(s: State)
    requires Inv(s) && forall p: Pid :: PcOf(s, p).Idle?
    ensures s.entries == map[] && s.table == None
    ensures forall e :: 0 <= e < |s.heap| ==> s.heap[e] == Entry(0, None)
  {
    assert s.table == None by {
      assert s.table.Some? ==> !InTable(PcOf(s, s.table.value));
    }
    forall e: Eid | e < |s.heap| ensures s.heap[e] == Entry(0, None) {
      assert forall q :: q in s.pcs ==> s.pcs[q] == PcOf(s, q);
      assert Counted(s, e) == {};
      assert s.heap[e].holder.Some? ==> !Owns(PcOf(s, s.heap[e].holder.value), e);
    }
  }

  /** The table cannot deadlock: while some goroutine is inside a call, some goroutine can move, or
      some goroutine holds a lock and can start its release. */
  lemma NoDeadlock(moves: seq<Move>, p: Pid)
    requires !PcOf(Run(moves), p).Idle?
    ensures exists q :: Enabled(Run(moves), q) || PcOf(Run(moves), q).Holding?
  {
    RunKeeps(moves);
    var s := Run(moves);
    if s.table.Some? {
      assert Enabled(s, s.table.value);
    } else if PcOf(s, p).AcqEntry? {
      var e := PcOf(s, p).e;
      assert Knows(PcOf(s, p));
      if s.heap[e].holder.Some? {
        var q := s.heap[e].holder.value;
        assert Owns(PcOf(s, q), e);
        assert Enabled(s, q) || PcOf(s, q).Holding?;
      } else {
        assert Enabled(s, p);
      }
    } else {
      assert Enabled(s, p) || PcOf(s, p).Holding?;
    }
  }
}
