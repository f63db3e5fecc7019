/**
 Exactly which transports run on after Stop: those that an install replaced while they ran and nobody
 was about to stop them, and that have not ended by themselves since.
 */
module CastSessionLeaks {
  import opened Wrappers
  import opened CastSession
  import opened CastSessionRuns
  import opened CastSessionTheorems

  // The transport runs, is not the installed one, and nobody is about to stop it.
  ghost predicate Leaked(s: State, tr: Tr) {
    Loop(tr) in s.pcs && s.core.transport != Some(tr) && IsRunning(s.trs, tr) && !Held(s.pcs, tr)
  }

  // The second locked section of spawnTransport installs another transport over it, in an open session,
  // while it runs and nobody is about to stop it.
  ghost predicate Leaks(s: State, m: Move, tr: Tr) {
    && Moves(s, m.who) && m.action.Go? && PcOf(s, m.who).Fresh?
    && !s.core.closed && s.core.transport == Some(tr) && IsRunning(s.trs, tr) && !Held(s.pcs, tr)
  }

  // Its own event loop hears that it ended or failed.
  predicate EndsItself(s: State, m: Move, tr: Tr) {
    && m.who == Loop(tr) && PcOf(s, m.who) == Consuming(tr)
    && m.action.Event? && (m.action.kind.Ended? || m.action.kind.FailedEvent?)
  }

  // ---- One move, seen by its goroutine -----------------------------------------------------

  // Leaked, as far as the mover can tell.
  predicate Adrift(l: Local, tr: Tr) {
    l.core.transport != Some(tr) && IsRunning(l.trs, tr) && !Holds(l.pc, tr)
  }

  predicate CastsAdrift(l: Local, m: Move, tr: Tr) {
    m.action.Go? && l.pc.Fresh? && !l.core.closed && l.core.transport == Some(tr) && IsRunning(l.trs, tr)
  }

  predicate Silences(l: Local, m: Move, tr: Tr) {
    l.pc == Consuming(tr) && m.action.Event? && (m.action.kind.Ended? || m.action.kind.FailedEvent?)
  }

  // What the move does to a transport that was installed before.
  predicate Exact(l: Local, m: Move, l': Local, tr: Tr) {
    Adrift(l', tr) <==> (Adrift(l, tr) && !Silences(l, m, tr)) || CastsAdrift(l, m, tr)
  }

  lemma OrderExact(l: Local, m: Move, tr: Tr)
    requires m.action.Call? && l.pc.Idle?
    ensures Exact(l, m, Order(l, m.action.command, m.now), tr)
  {
    var l' := Order(l, m.action.command, m.now);
    assert l'.trs == l.trs && !Holds(l.pc, tr);
    assert l'.core.transport == l.core.transport || l'.pc == StopOld(l.core.transport.value, Idle);
    assert l.core.transport != Some(tr) ==> !Holds(l'.pc, tr);
  }

  lemma ConsumeExact(l: Local, m: Move, tr: Tr)
    requires m.action.Event? && l.pc.Consuming?
    ensures Exact(l, m, Consume(l, l.pc.tr, m.action.kind, m.now), tr)
  {
  }

  lemma ProceedExact(l: Local, m: Move, tr: Tr)
    requires m.action.Go? && tr < |l.trs| && !HoldsNew(l.pc, tr) && (l.pc.StopOld? ==> Follows(l.pc.after))
    ensures Exact(l, m, Proceed(l, m.action.ok, m.action.native, m.now), tr)
  {
  }

  lemma StepExact(l: Local, m: Move, tr: Tr)
    requires tr < |l.trs| && !HoldsNew(l.pc, tr) && (l.pc.StopOld? ==> Follows(l.pc.after))
    ensures Exact(l, m, Step(l, m), tr)
  {
    match m.action
    case Call(_) => if l.pc.Idle? && m.who.User? { OrderExact(l, m, tr); }
    case Event(_) => if l.pc.Consuming? { ConsumeExact(l, m, tr); }
    case Drained =>
    case Go(_, _) => ProceedExact(l, m, tr);
  }

  // ---- One move of the session -------------------------------------------------------------

  ghost predicate HeldByOther(pcs: map<Who, Pc>, who: Who, tr: Tr) {
    exists other <- pcs :: other != who && Holds(pcs[other], tr)
  }

  lemma HeldParts(pcs: map<Who, Pc>, who: Who, pc: Pc, tr: Tr)
    requires if who in pcs then pcs[who] == pc else pc.Idle?
    ensures Held(pcs, tr) <==> Holds(pc, tr) || HeldByOther(pcs, who, tr)
  {
  }

  // What a move leaves of the others, and the one loop that it may start.
  lemma OthersStand(s: State, m: Move)
    requires Inv(s) && Moves(s, m.who)
    ensures var pcs', installed := Next(s, m).pcs, Step(View(s, m.who), m).installed;
      && (forall o <- s.pcs :: o != m.who ==> o in pcs' && pcs'[o] == s.pcs[o])
      && (forall o <- pcs' :: o != m.who && o !in s.pcs ==> pcs'[o].Consuming?)
      && (forall tr: Tr :: Loop(tr) in pcs' <==> Loop(tr) in s.pcs || installed == Some(tr))
      && pcs'[m.who] == Step(View(s, m.who), m).pc
  {
    var l' := Step(View(s, m.who), m);
    if l'.installed.Some? {
      NotYetLooping(s, m, l'.installed.value);
      InvReady(s, m.who);
      StepKeeps(View(s, m.who), m);
      assert Keeps(View(s, m.who), l', l'.installed.value);
    }
  }

  lemma OthersHold(s: State, m: Move, tr: Tr)
    requires Inv(s) && Moves(s, m.who)
    ensures var l' := Step(View(s, m.who), m);
      && (Held(Next(s, m).pcs, tr) <==> Holds(l'.pc, tr) || HeldByOther(s.pcs, m.who, tr))
      && (Loop(tr) in Next(s, m).pcs <==> Loop(tr) in s.pcs || l'.installed == Some(tr))
  {
    OthersStand(s, m);
    SameHolders(s.pcs, Next(s, m).pcs, m.who, tr);
    HeldParts(Next(s, m).pcs, m.who, Step(View(s, m.who), m).pc, tr);
  }

  lemma SameHolders(pcs: map<Who, Pc>, pcs': map<Who, Pc>, who: Who, tr: Tr)
    requires forall o <- pcs :: o != who ==> o in pcs' && pcs'[o] == pcs[o]
    requires forall o <- pcs' :: o != who && o !in pcs ==> pcs'[o].Consuming?
    ensures HeldByOther(pcs', who, tr) <==> HeldByOther(pcs, who, tr)
  {
  }

  /** A transport is leaked after a move exactly when it was and has not ended by itself, or when this move
      installs another one over it while it runs and nobody is about to stop it. */
  lemma LeakedAfter(s: State, m: Move, tr: Tr)
    requires Inv(s)
    ensures Leaked(Next(s, m), tr) <==> (Leaked(s, tr) && !EndsItself(s, m, tr)) || Leaks(s, m, tr)
  {
    if Moves(s, m.who) {
      if Loop(tr) in s.pcs { KnownAfter(s, m, tr); } else { UnknownAfter(s, m, tr); }
    }
  }

  lemma KnownAfter(s: State, m: Move, tr: Tr)
    requires Inv(s) && Moves(s, m.who) && Loop(tr) in s.pcs
    ensures Leaked(Next(s, m), tr) <==> (Leaked(s, tr) && !EndsItself(s, m, tr)) || Leaks(s, m, tr)
  {
    var l := View(s, m.who);
    assert TransportInv(s, tr);
    if m.who in s.pcs { assert ThreadInv(s, m.who); }
    OthersHold(s, m, tr);
    HeldParts(s.pcs, m.who, l.pc, tr);
    StepExact(l, m, tr);
  }

  // A transport that no one has installed is not leaked, and neither is one that is just being installed.
  lemma UnknownAfter(s: State, m: Move, tr: Tr)
    requires Inv(s) && Moves(s, m.who) && Loop(tr) !in s.pcs
    ensures !Leaked(Next(s, m), tr) && !Leaked(s, tr) && !Leaks(s, m, tr)
  {
    assert TransportInv(s, tr);
    OthersHold(s, m, tr);
    InstalledIsCurrent(View(s, m.who), m);
  }

  lemma InstalledIsCurrent(l: Local, m: Move)
    requires l.installed.None?
    ensures Step(l, m).installed.Some? ==> Step(l, m).core.transport == Step(l, m).installed
  {
  }

  // ---- Whole runs --------------------------------------------------------------------------

  // Move k leaks the transport, and it does not end by itself afterwards.
  ghost predicate LeaksForGood(s: State, moves: seq<Move>, k: nat, tr: Tr)
    requires k < |moves|
  {
    && Leaks(Run(s, moves[..k]), moves[k], tr)
    && forall j :: k < j < |moves| ==> !EndsItself(Run(s, moves[..j]), moves[j], tr)
  }

  ghost predicate LeakedFor(s: State, moves: seq<Move>, tr: Tr) {
    exists k: nat :: k < |moves| && LeaksForGood(s, moves, k, tr)
  }

  lemma LeaksForGoodAppend(s: State, moves: seq<Move>, k: nat, m: Move, tr: Tr)
    requires k < |moves|
    ensures LeaksForGood(s, moves + [m], k, tr)
      <==> LeaksForGood(s, moves, k, tr) && !EndsItself(Run(s, moves), m, tr)
  {
    var more := moves + [m];
    assert more[..|moves|] == moves;
    assert forall j :: 0 <= j < |moves| ==> more[..j] == moves[..j] && more[j] == moves[j];
  }

  lemma LeakedForAppend(s: State, moves: seq<Move>, m: Move, tr: Tr)
    ensures LeakedFor(s, moves + [m], tr)
      <==> (LeakedFor(s, moves, tr) && !EndsItself(Run(s, moves), m, tr)) || Leaks(Run(s, moves), m, tr)
  {
    var more := moves + [m];
    forall k: nat | k < |moves|
      ensures LeaksForGood(s, more, k, tr) <==> LeaksForGood(s, moves, k, tr) && !EndsItself(Run(s, moves), m, tr)
    {
      LeaksForGoodAppend(s, moves, k, m, tr);
    }
    assert more[..|moves|] == moves;
    assert LeaksForGood(s, more, |moves|, tr) <==> Leaks(Run(s, moves), m, tr);
  }

  lemma {:induction false} LeakedInRun(s: State, moves: seq<Move>, tr: Tr)
    requires Inv(s) && !Leaked(s, tr)
    ensures Leaked(Run(s, moves), tr) <==> LeakedFor(s, moves, tr)
  {
    if moves != [] {
      var before, m := moves[..|moves| - 1], moves[|moves| - 1];
      assert moves == before + [m];
      LeakedInRun(s, before, tr);
      RunKeeps(s, before);
      LeakedAfter(Run(s, before), m, tr);
      LeakedForAppend(s, before, m, tr);
    }
  }

  lemma SilentButLeaked(s: State, tr: Tr)
    requires Inv(s) && s.core.closed && Quiet(s)
    ensures IsRunning(s.trs, tr) <==> Leaked(s, tr)
  {
    assert TransportInv(s, tr);
    if Stopping(s.pcs, tr) {
      var who :| who in s.pcs && s.pcs[who] == StopLast(Some(tr));
      assert Holds(s.pcs[who], tr);
      assert false;
    }
  }

  /**
   In every run, once the session is closed and the calls in flight have returned, a transport runs if and
   only if some install replaced it while it ran and nobody was about to stop it, and it has not ended by
   itself since.
   */
  lemma RunsAfterStopIff(track: Track, start: int, moves: seq<Move>, tr: Tr)
    ensures var s0 := Init(track, start);
      var s := Run(s0, moves);
      s.core.closed && Quiet(s) ==>
        (IsRunning(s.trs, tr) <==> exists k: nat :: k < |moves| && LeaksForGood(s0, moves, k, tr))
  {
    var s0 := Init(track, start);
    InitInv(track, start);
    RunKeeps(s0, moves);
    LeakedInRun(s0, moves, tr);
    if Run(s0, moves).core.closed && Quiet(Run(s0, moves)) { SilentButLeaked(Run(s0, moves), tr); }
  }
}
