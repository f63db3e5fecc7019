/**
 The queue of last-seen updates: any number of request handlers offer the hash of a session
 token, one worker writes them, and Close cancels both.

 A handler runs queueSessionTouch, split at each locked section and at its select; the worker
 runs runTouches, split at its select, its write and its locked section.
 */
module TouchQueue {
  type Hash = string
  type Pid = nat

  const CAPACITY := 256

  // What the goroutines share.
  datatype Shared = Shared(pending: set<Hash>, touches: seq<Hash>, cancelled: bool)

  // Before the locked section that inserts, before the select, before finishTouch.
  datatype CallerPc = Idle | Inserting(hash: Hash) | Offering(hash: Hash) | Undoing(hash: Hash)

  // At its select, writing, before finishTouch, returned.
  datatype WorkerPc = Waiting | Writing(hash: Hash) | Finishing(hash: Hash) | Returned

  // `sent` and `taken` are the hashes that went into and came out of the channel, in order.
  datatype State = State(q: Shared, callers: map<Pid, CallerPc>, worker: WorkerPc, sent: seq<Hash>, taken: seq<Hash>)

  // ---- The sections --------------------------------------------------------------------

  function Insert(q: Shared, hash: Hash): (Shared, bool) {
    if hash in q.pending then (q, false) else (q.(pending := q.pending + {hash}), true)
  }

  function Finish(q: Shared, hash: Hash): Shared {
    q.(pending := q.pending - {hash})
  }

  // The select of a caller: a ready case is taken, any of them when both are, and the default otherwise.
  datatype Choice = Send | Done | Default

  predicate CanChoose(q: Shared, choice: Choice) {
    match choice
    case Send => |q.touches| < CAPACITY
    case Done => q.cancelled
    case Default => |q.touches| >= CAPACITY && !q.cancelled
  }

  // ---- The class, as one goroutine runs it alone --------------------------------------------

  class AsyncSessionLookup {
    var pending: set<Hash>
    var touches: seq<Hash>
    var cancelled: bool

    function Fields(): Shared
      reads this
    {
      Shared(pending, touches, cancelled)
    }

    constructor ()
      ensures Fields() == Shared({}, [], false)
    {
      pending, touches, cancelled := {}, [], false;
    }

    method InsertPending(hash: Hash) returns (inserted: bool)
      modifies this`pending
      ensures (Fields(), inserted) == Insert(old(Fields()), hash)
    {
      if hash in pending { return false; }
      pending := pending + {hash};
      inserted := true;
    }

    method FinishTouch(hash: Hash)
      modifies this`pending
      ensures Fields() == Finish(old(Fields()), hash)
    {
      pending := pending - {hash};
    }

    /** A hash is queued unless it is pending already, the queue is full or the lookup is closed;
        otherwise nothing changes. */
    method QueueSessionTouch(hash: Hash) returns (queued: bool)
      modifies this`pending, this`touches
      ensures queued <==> !old(cancelled) && hash !in old(pending) && |old(touches)| < 256
      ensures Fields() == if queued then Shared(old(pending) + {hash}, old(touches) + [hash], false) else old(Fields())
    {
      if cancelled { return false; }
      var inserted := InsertPending(hash);
      if !inserted { return false; }
      if |touches| < CAPACITY {
        touches := touches + [hash];
        return true;
      }
      FinishTouch(hash);
      queued := false;
    }

    /** One turn of the worker that finds a hash in the queue. */
    method RunTouch() returns (hash: Hash)
      requires touches != []
      modifies this`pending, this`touches
      ensures hash == old(touches)[0]
      ensures Fields() == Shared(old(pending) - {hash}, old(touches)[1..], old(cancelled))
    {
      hash := touches[0];
      touches := touches[1..];
      FinishTouch(hash);
    }
  }

  // ---- The moves -----------------------------------------------------------------------

  datatype Action =
    | Queue(p: Pid, hash: Hash)            // queueSessionTouch is called
    | CallerStep(p: Pid, choice: Choice)
    | WorkerStep(stop: bool)               // `stop` is the select's choice of the cancelled case
    | Cancel                               // Close, or the parent context

  function CallerOf(s: State, p: Pid): CallerPc {
    if p in s.callers then s.callers[p] else Idle
  }

  function AtCaller(s: State, p: Pid, pc: CallerPc): State {
    s.(callers := s.callers[p := pc])
  }

  function StepCaller(s: State, p: Pid, choice: Choice): State {
    match CallerOf(s, p)
    case Idle => s
    case Inserting(hash) =>
      var (q, inserted) := Insert(s.q, hash);
      AtCaller(s.(q := q), p, if inserted then Offering(hash) else Idle)
    case Offering(hash) =>
      if !CanChoose(s.q, choice) then s
      else if choice.Send? then
        AtCaller(s.(q := s.q.(touches := s.q.touches + [hash]), sent := s.sent + [hash]), p, Idle)
      else AtCaller(s, p, Undoing(hash))
    case Undoing(hash) => AtCaller(s.(q := Finish(s.q, hash)), p, Idle)
  }

  function StepWorker(s: State, stop: bool): State {
    match s.worker
    case Waiting =>
      if stop then (if s.q.cancelled then s.(worker := Returned) else s)
      else if s.q.touches == [] then s
      else
        s.(q := s.q.(touches := s.q.touches[1..]), worker := Writing(s.q.touches[0]),
           taken := s.taken + [s.q.touches[0]])
    case Writing(hash) => s.(worker := Finishing(hash))
    case Finishing(hash) => s.(q := Finish(s.q, hash), worker := Waiting)
    case Returned => s
  }

  function Next(s: State, a: Action): State {
    match a
    case Queue(p, hash) =>
      if CallerOf(s, p).Idle? && !s.q.cancelled then AtCaller(s, p, Inserting(hash)) else s
    case CallerStep(p, choice) => StepCaller(s, p, choice)
    case WorkerStep(stop) => StepWorker(s, stop)
    case Cancel => s.(q := s.q.(cancelled := true))
  }

  const INIT := State(Shared({}, [], false), map[], Waiting, [], [])

  function Run(s: State, actions: seq<Action>): State {
    if actions == [] then s else Next(Run(s, actions[..|actions| - 1]), actions[|actions| - 1])
  }

  // ---- Where a hash is -----------------------------------------------------------------

  datatype Place = InChannel(i: nat) | WithWorker | WithCaller(p: Pid)

  predicate WorkerHas(worker: WorkerPc, hash: Hash) {
    (worker.Writing? || worker.Finishing?) && worker.hash == hash
  }

  predicate CallerHas(pc: CallerPc, hash: Hash) {
    (pc.Offering? || pc.Undoing?) && pc.hash == hash
  }

  predicate Holds(s: State, place: Place, hash: Hash) {
    match place
    case InChannel(i) => i < |s.q.touches| && s.q.touches[i] == hash
    case WithWorker => WorkerHas(s.worker, hash)
    case WithCaller(p) => p in s.callers && CallerHas(s.callers[p], hash)
  }

  // The pending set is exactly what the channel, the worker and the callers hold, each hash once.
  ghost predicate PendingInv(s: State) {
    && (forall place, hash :: Holds(s, place, hash) ==> hash in s.q.pending)
    && (forall hash <- s.q.pending :: exists place :: Holds(s, place, hash))
    && (forall a, b, hash :: Holds(s, a, hash) && Holds(s, b, hash) ==> a == b)
  }

  ghost predicate Inv(s: State) {
    && PendingInv(s)
    && |s.q.touches| <= CAPACITY
    && s.sent == s.taken + s.q.touches
  }

  lemma InsertKeeps(s: State, p: Pid, choice: Choice)
    requires Inv(s) && CallerOf(s, p).Inserting?
    ensures Inv(StepCaller(s, p, choice))
  {
    var t, hash := StepCaller(s, p, choice), CallerOf(s, p).hash;
    assert forall place, h :: Holds(t, place, h) ==>
      Holds(s, place, h) || (place == WithCaller(p) && h == hash && hash !in s.q.pending);
    forall h <- t.q.pending ensures exists place :: Holds(t, place, h) {
      if h in s.q.pending {
        var place :| Holds(s, place, h);
        assert Holds(t, place, h);
      } else {
        assert Holds(t, WithCaller(p), h);
      }
    }
  }

  lemma SendKeeps(s: State, p: Pid, choice: Choice)
    requires Inv(s) && CallerOf(s, p).Offering?
    ensures Inv(StepCaller(s, p, choice))
  {
    var t, hash := StepCaller(s, p, choice), CallerOf(s, p).hash;
    if !CanChoose(s.q, choice) { return; }
    var here := WithCaller(p);
    assert Holds(s, here, hash);
    var there := if choice.Send? then InChannel(|s.q.touches|) else here;
    assert Holds(t, there, hash);
    assert forall place, h :: Holds(t, place, h) ==>
      (place == there && h == hash) || (place != here && Holds(s, place, h));
    forall h <- t.q.pending ensures exists place :: Holds(t, place, h) {
      var place :| Holds(s, place, h);
      assert Holds(t, if place == here then there else place, h);
    }
  }

  lemma UndoKeeps(s: State, p: Pid, choice: Choice)
    requires Inv(s) && CallerOf(s, p).Undoing?
    ensures Inv(StepCaller(s, p, choice))
  {
    var t, hash := StepCaller(s, p, choice), CallerOf(s, p).hash;
    assert Holds(s, WithCaller(p), hash);
    assert forall place, h :: Holds(t, place, h) ==> place != WithCaller(p) && Holds(s, place, h);
    forall h <- t.q.pending ensures exists place :: Holds(t, place, h) {
      var place :| Holds(s, place, h);
      assert Holds(t, place, h);
    }
  }

  lemma TakeKeeps(s: State)
    requires Inv(s) && s.worker.Waiting? && s.q.touches != []
    ensures Inv(StepWorker(s, false))
  {
    var t := StepWorker(s, false);
    assert t.taken + t.q.touches == s.taken + s.q.touches;
    forall place, h | Holds(t, place, h) ensures Holds(s, Before(place), h) {}
    forall h <- t.q.pending ensures exists place :: Holds(t, place, h) {
      var place :| Holds(s, place, h);
      assert Holds(t, Later(place), h);
    }
    forall a, b, h | Holds(t, a, h) && Holds(t, b, h) ensures a == b {
      assert Before(a) == Before(b);
    }
  }

  // Where a hash was before the worker took the first one, and where it is after.
  function Before(place: Place): Place {
    match place
    case InChannel(i) => InChannel(i + 1)
    case WithWorker => InChannel(0)
    case WithCaller(p) => place
  }

  function Later(place: Place): Place {
    match place
    case InChannel(i) => if i == 0 then WithWorker else InChannel(i - 1)
    case WithWorker => place
    case WithCaller(p) => place
  }

  lemma WorkerKeeps(s: State, stop: bool)
    requires Inv(s)
    ensures Inv(StepWorker(s, stop))
  {
    var t := StepWorker(s, stop);
    if s.worker.Waiting? && !stop && s.q.touches != [] {
      TakeKeeps(s);
    } else if s.worker.Finishing? {
      assert Holds(s, WithWorker, s.worker.hash);
      assert forall place, h :: Holds(t, place, h) ==> place != WithWorker && Holds(s, place, h);
      forall h <- t.q.pending ensures exists place :: Holds(t, place, h) {
        var place :| Holds(s, place, h);
        assert Holds(t, place, h);
      }
    } else {
      SameHolders(s, t);
    }
  }

  lemma SameHolders(s: State, t: State)
    requires Inv(s) && t.q.pending == s.q.pending && t.q.touches == s.q.touches
    requires t.sent == s.sent && t.taken == s.taken
    requires forall place, h :: Holds(t, place, h) <==> Holds(s, place, h)
    ensures Inv(t)
  {
    forall h <- t.q.pending ensures exists place :: Holds(t, place, h) {
      var place :| Holds(s, place, h);
      assert Holds(t, place, h);
    }
  }

  lemma NextKeeps(s: State, a: Action)
    requires Inv(s)
    ensures Inv(Next(s, a))
  {
    match a
    case Queue(p, hash) => SameHolders(s, Next(s, a));
    case CallerStep(p, choice) =>
      match CallerOf(s, p) {
        case Idle =>
        case Inserting(_) => InsertKeeps(s, p, choice);
        case Offering(_) => SendKeeps(s, p, choice);
        case Undoing(_) => UndoKeeps(s, p, choice);
      }
    case WorkerStep(stop) => WorkerKeeps(s, stop);
    case Cancel => SameHolders(s, Next(s, a));
  }

  lemma {:induction false} RunKeeps(actions: seq<Action>)
    ensures Inv(Run(INIT, actions))
  {
    if actions != [] {
      RunKeeps(actions[..|actions| - 1]);
      NextKeeps(Run(INIT, actions[..|actions| - 1]), actions[|actions| - 1]);
    }
  }

  // ---- Theorems ------------------------------------------------------------------------

  /**
   Under every interleaving a pending hash is in the channel, with the worker or with a caller
   that inserted it and has not finished its select, in exactly one of them; nothing else is pending.
   */
  lemma PendingIsHeldOnce(actions: seq<Action>, hash: Hash)
    ensures var s := Run(INIT, actions);
      && (hash in s.q.pending <==> exists place :: Holds(s, place, hash))
      && (forall a, b :: Holds(s, a, hash) && Holds(s, b, hash) ==> a == b)
  {
    RunKeeps(actions);
  }

  /** A hash that is being written is not queued, and none is queued twice; at most 256 are. */
  lemma TouchesNeverOverlap(actions: seq<Action>)
    ensures var s := Run(INIT, actions);
      && |s.q.touches| <= 256
      && (forall i, j :: 0 <= i < j < |s.q.touches| ==> s.q.touches[i] != s.q.touches[j])
      && (forall hash :: WorkerHas(s.worker, hash) ==> hash !in s.q.touches)
  {
    RunKeeps(actions);
    var s := Run(INIT, actions);
    forall i, j | 0 <= i < j < |s.q.touches| ensures s.q.touches[i] != s.q.touches[j] {
      if s.q.touches[i] == s.q.touches[j] {
        assert Holds(s, InChannel(i), s.q.touches[i]) && Holds(s, InChannel(j), s.q.touches[i]);
      }
    }
    forall hash | WorkerHas(s.worker, hash) ensures hash !in s.q.touches {
      if hash in s.q.touches {
        var i :| 0 <= i < |s.q.touches| && s.q.touches[i] == hash;
        assert Holds(s, InChannel(i), hash) && Holds(s, WithWorker, hash);
      }
    }
  }

  /** The worker takes every queued hash once, in the order in which they were queued. */
  lemma {:induction false} TakenInOrder(actions: seq<Action>)
    ensures var s := Run(INIT, actions); s.sent == s.taken + s.q.touches
  {
    RunKeeps(actions);
  }

  /** When no caller and no write is in progress, only what is still queued is pending. */
  lemma NothingLeaks(actions: seq<Action>)
    ensures var s := Run(INIT, actions);
      (forall p <- s.callers :: s.callers[p].Idle? || s.callers[p].Inserting?) &&
          (s.worker.Waiting? || s.worker.Returned?)
      ==> s.q.pending == set h | h in s.q.touches
  {
    RunKeeps(actions);
    var s := Run(INIT, actions);
    if (forall p <- s.callers :: s.callers[p].Idle? || s.callers[p].Inserting?) &&
      (s.worker.Waiting? || s.worker.Returned?)
    {
      forall h <- s.q.pending ensures h in s.q.touches {
        var place :| Holds(s, place, h);
      }
      forall i | 0 <= i < |s.q.touches| ensures s.q.touches[i] in s.q.pending {
        assert Holds(s, InChannel(i), s.q.touches[i]);
      }
    }
  }

  /** After the worker has returned nothing is taken from the queue, whatever the callers do. */
  lemma {:induction false} ClosedTakesNothing(s: State, actions: seq<Action>)
    requires s.worker.Returned?
    ensures Run(s, actions).worker.Returned? && Run(s, actions).taken == s.taken
  {
    if actions != [] {
      ClosedTakesNothing(s, actions[..|actions| - 1]);
    }
  }

  // ---- One goroutine at a time -----------------------------------------------------------

  /** A caller never waits: its select can always go on, by the default exactly when the queue is full and
      the lookup is open. */
  lemma CallersNeverWait(q: Shared)
    ensures exists choice: Choice :: CanChoose(q, choice)
    ensures CanChoose(q, Send) <==> |q.touches| < 256
    ensures CanChoose(q, Done) <==> q.cancelled
    ensures CanChoose(q, Default) <==> |q.touches| >= 256 && !q.cancelled
  {
    if |q.touches| < 256 { assert CanChoose(q, Send); }
    else if q.cancelled { assert CanChoose(q, Done); }
    else { assert CanChoose(q, Default); }
  }

  /** A call that nobody interrupts queues its hash at the end unless it is pending or the queue is full, and
      then changes nothing. */
  lemma CallAlone(s: State, p: Pid, hash: Hash, first: Choice, choice: Choice, last: Choice)
    requires CallerOf(s, p).Idle? && !s.q.cancelled && CanChoose(s.q, choice)
    ensures var t := Next(Next(Next(Next(s, Queue(p, hash)), CallerStep(p, first)), CallerStep(p, choice)),
                          CallerStep(p, last));
      && CallerOf(t, p).Idle? && t.worker == s.worker && t.taken == s.taken
      && t.q == if hash !in s.q.pending && |s.q.touches| < 256
                then Shared(s.q.pending + {hash}, s.q.touches + [hash], false) else s.q
  {
    var s2 := Next(Next(s, Queue(p, hash)), CallerStep(p, first));
    if hash in s.q.pending {
      assert s2.q == s.q && CallerOf(s2, p).Idle?;
    } else {
      assert s2.q == s.q.(pending := s.q.pending + {hash}) && CallerOf(s2, p) == Offering(hash);
      assert (s.q.pending + {hash}) - {hash} == s.q.pending;
    }
  }

  /** A turn of the worker that nobody interrupts takes the oldest hash out of the queue and of the pending
      set, and waits again. */
  lemma TurnAlone(s: State, stop: bool)
    requires s.worker.Waiting? && s.q.touches != []
    ensures var t := Next(Next(Next(s, WorkerStep(false)), WorkerStep(stop)), WorkerStep(stop));
      && t.worker.Waiting? && t.callers == s.callers && t.taken == s.taken + [s.q.touches[0]]
      && t.q == Shared(s.q.pending - {s.q.touches[0]}, s.q.touches[1..], s.q.cancelled)
  {
    var s1 := Next(s, WorkerStep(false));
    assert s1.worker == Writing(s.q.touches[0]);
  }

  /** Once the lookup is cancelled, a call leaves it as it is, and the worker returns when its select says so. */
  lemma CancelledRefuses(s: State, p: Pid, hash: Hash)
    requires s.q.cancelled && CallerOf(s, p).Idle?
    ensures Next(s, Queue(p, hash)) == s
    ensures s.worker.Waiting? ==> Next(s, WorkerStep(true)).worker.Returned?
  {
  }
}
