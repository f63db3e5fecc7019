/**
 What every run of a cast session keeps: no playback outlives Stop except a transport that was
 overwritten while it ran, and the loop of a replaced transport changes the session exactly when it
 replaces the transport once more, or records a failure.
 */
module CastSessionTheorems {
  import opened Wrappers
  import opened CastSession
  import opened CastSessionRuns

  // ---- Who has which transport -----------------------------------------------------------

  // The goroutine started the transport and has neither installed nor stopped it.
  predicate HoldsNew(pc: Pc, tr: Tr) {
    (pc.Fresh? || pc.Discard?) && pc.tr == tr
  }

  // The goroutine is about to stop a transport that was installed.
  predicate HoldsOld(pc: Pc, tr: Tr) {
    (pc.StopOld? && pc.tr == tr) || pc == StopLast(Some(tr))
  }

  predicate Holds(pc: Pc, tr: Tr) {
    HoldsNew(pc, tr) || HoldsOld(pc, tr)
  }

  ghost predicate Held(pcs: map<Who, Pc>, tr: Tr) {
    exists who <- pcs :: Holds(pcs[who], tr)
  }

  predicate Follows(after: Pc) {
    after.Idle? || after.Reset? || (after.Check? && after.origin.Caller?)
  }

  // Where a consume goroutine can be: between events, retrying, or about to record a failure.
  predicate InLoop(pc: Pc) {
    || pc.Idle? || pc.Consuming? || pc.Reporting? || pc.Tail?
    || ((pc.Check? || pc.Launch? || pc.Fresh? || pc.Discard?) && pc.origin.Retry?)
  }

  predicate PcInv(who: Who, pc: Pc) {
    && (who.Loop? ==> InLoop(pc))
    && (pc.Consuming? || pc.Reporting? ==> who == Loop(pc.tr))
    && (pc.StopOld? ==> Follows(pc.after))
  }

  ghost predicate ThreadInv(s: State, who: Who)
    requires who in s.pcs
  {
    var pc := s.pcs[who];
    && PcInv(who, pc)
    && (forall tr: Tr :: HoldsNew(pc, tr) ==> IsRunning(s.trs, tr) && Loop(tr) !in s.pcs)
    && (forall tr: Tr :: HoldsOld(pc, tr) ==> Loop(tr) in s.pcs)
  }

  ghost predicate OneHand(pcs: map<Who, Pc>) {
    forall a <- pcs, b <- pcs, tr: Tr :: HoldsNew(pcs[a], tr) && HoldsNew(pcs[b], tr) ==> a == b
  }

  ghost predicate TransportInv(s: State, tr: Tr) {
    && (Loop(tr) in s.pcs ==> tr < |s.trs|)
    && (s.core.transport == Some(tr) ==> Loop(tr) in s.pcs)
    && (IsRunning(s.trs, tr) ==> s.core.transport == Some(tr) || tr in s.hist.overwritten || Held(s.pcs, tr))
    && (tr < |s.trs| && Loop(tr) !in s.pcs ==> s.trs[tr].phase.StopCalled? || Held(s.pcs, tr))
  }

  ghost predicate Stopping(pcs: map<Who, Pc>, tr: Tr) {
    exists who <- pcs :: pcs[who] == StopLast(Some(tr))
  }

  ghost predicate ClosingInv(s: State) {
    && (s.core.closed <==> s.hist.closing.Some?)
    && (s.core.closed && s.core.transport.Some? ==> s.hist.closing == Some(s.core.transport))
    && (forall tr: Tr :: s.hist.closing == Some(Some(tr)) ==> Loop(tr) in s.pcs)
    && (forall tr: Tr :: s.hist.closing == Some(Some(tr)) && IsRunning(s.trs, tr) ==> Stopping(s.pcs, tr))
    && (forall who <- s.pcs :: s.pcs[who].StopLast? ==> s.hist.closing == Some(s.pcs[who].last))
  }

  ghost predicate Inv(s: State) {
    && (forall who <- s.pcs :: ThreadInv(s, who))
    && OneHand(s.pcs)
    && (forall tr: Tr :: TransportInv(s, tr))
    && ClosingInv(s)
  }

  // ---- One move keeps it -----------------------------------------------------------------

  // What the mover can do to one transport.
  ghost predicate Accounted(l: Local, tr: Tr) {
    l.core.transport == Some(tr) || tr in l.hist.overwritten || Holds(l.pc, tr)
  }

  // What a move does to one transport.
  ghost predicate Keeps(l: Local, l': Local, tr: Tr) {
    // It runs because it ran or because it was just started.
    && (IsRunning(l'.trs, tr) ==> IsRunning(l.trs, tr) || (tr == |l.trs| && HoldsNew(l'.pc, tr)))
    // The mover does not lose it while it runs.
    && (IsRunning(l'.trs, tr) && Accounted(l, tr) ==> Accounted(l', tr))
    // It stops running by a mover that holds it, or by its own event loop.
    && (IsRunning(l.trs, tr) && !IsRunning(l'.trs, tr) ==> Holds(l.pc, tr) || l.pc == Consuming(tr))
    && (HoldsNew(l'.pc, tr) ==> IsRunning(l'.trs, tr) && (HoldsNew(l.pc, tr) || tr == |l.trs|))
    && (HoldsOld(l'.pc, tr) ==> HoldsOld(l.pc, tr) || l.core.transport == Some(tr))
    && (l'.core.transport == Some(tr) ==> l.core.transport == Some(tr) || l'.installed == Some(tr))
    && (l'.installed == Some(tr) ==> HoldsNew(l.pc, tr) && l'.pc.Idle?)
    // A new transport leaves the mover's hands by being installed or stopped.
    && (HoldsNew(l.pc, tr) && !HoldsNew(l'.pc, tr) && l'.installed != Some(tr) ==> WasStopped(l'.trs, tr))
    && (WasStopped(l.trs, tr) ==> WasStopped(l'.trs, tr))
  }

  predicate WasStopped(trs: seq<Transport>, tr: Tr) {
    tr < |trs| && trs[tr].phase.StopCalled?
  }

  ghost predicate StepInv(who: Who, l: Local, l': Local) {
    && PcInv(who, l'.pc)
    && |l.trs| <= |l'.trs| <= |l.trs| + 1
    && (|l'.trs| > |l.trs| ==> HoldsNew(l'.pc, |l.trs|))
    && l.hist.overwritten <= l'.hist.overwritten
    && forall tr: Tr :: Keeps(l, l', tr)
  }

  ghost predicate Ready(who: Who, l: Local) {
    && PcInv(who, l.pc)
    && l.installed.None?
    && (forall tr: Tr :: HoldsNew(l.pc, tr) ==> IsRunning(l.trs, tr) && l.core.transport != Some(tr))
  }

  lemma OrderKeeps(who: Who, l: Local, command: Command, now: int)
    requires Ready(who, l) && l.pc.Idle? && who.User?
    ensures StepInv(who, l, Order(l, command, now))
  {
  }

  lemma ConsumeKeeps(who: Who, l: Local, kind: EventKind, now: int)
    requires Ready(who, l) && l.pc.Consuming?
    ensures StepInv(who, l, Consume(l, l.pc.tr, kind, now))
  {
  }

  lemma InstallingKeeps(who: Who, l: Local, now: int)
    requires Ready(who, l) && l.pc.Fresh?
    ensures StepInv(who, l, Installing(l, now))
  {
  }

  lemma StoppingKeeps(who: Who, l: Local, ok: bool, native: bool, now: int)
    requires Ready(who, l) && (l.pc.Discard? || l.pc.StopOld? || l.pc.StopLast?)
    ensures StepInv(who, l, Proceed(l, ok, native, now))
  {
  }

  lemma LaunchKeeps(who: Who, l: Local, ok: bool, native: bool, now: int)
    requires Ready(who, l) && l.pc.Launch?
    ensures StepInv(who, l, Proceed(l, ok, native, now))
  {
  }

  // The other moves touch no transport.
  lemma OtherKeeps(who: Who, l: Local, ok: bool, native: bool, now: int)
    requires Ready(who, l)
    requires !l.pc.Fresh? && !l.pc.Discard? && !l.pc.StopOld? && !l.pc.StopLast? && !l.pc.Launch?
    ensures StepInv(who, l, Proceed(l, ok, native, now))
  {
    var l' := Proceed(l, ok, native, now);
    assert l'.trs == l.trs && l'.core.transport == l.core.transport && l'.installed.None?;
    assert forall tr: Tr :: !Holds(l.pc, tr) && !Holds(l'.pc, tr);
  }

  lemma StepKeeps(l: Local, m: Move)
    requires Ready(m.who, l)
    ensures StepInv(m.who, l, Step(l, m))
  {
    match m.action
    case Call(command) => if l.pc.Idle? && m.who.User? { OrderKeeps(m.who, l, command, m.now); }
    case Event(kind) => if l.pc.Consuming? { ConsumeKeeps(m.who, l, kind, m.now); }
    case Drained =>
    case Go(ok, native) =>
      if l.pc.Fresh? { InstallingKeeps(m.who, l, m.now); }
      else if l.pc.Launch? { LaunchKeeps(m.who, l, ok, native, m.now); }
      else if l.pc.Discard? || l.pc.StopOld? || l.pc.StopLast? { StoppingKeeps(m.who, l, ok, native, m.now); }
      else { OtherKeeps(m.who, l, ok, native, m.now); }
  }

  // What a move does to `closed` and to what the first Stop found.
  ghost predicate ClosingStep(l: Local, l': Local) {
    && (if l'.core.closed == l.core.closed then
          l'.hist.closing == l.hist.closing && (l'.pc.StopLast? ==> l'.pc == l.pc)
        else
          && l'.core.closed && l'.hist.closing == Some(l.core.transport) && l'.installed.None?
          && l'.core.transport == l.core.transport && l'.pc == StopLast(l.core.transport))
    && (l.core.closed ==>
          && l'.installed.None? && l'.hist.overwritten == l.hist.overwritten
          && (l'.core.transport == l.core.transport || l'.core.transport.None?))
    && (forall tr: Tr :: l.pc == StopLast(Some(tr)) && l'.pc != l.pc ==> !IsRunning(l'.trs, tr))
  }

  lemma OrderCloses(who: Who, l: Local, command: Command, now: int)
    requires Ready(who, l) && l.pc.Idle?
    ensures ClosingStep(l, Order(l, command, now))
  {
  }

  lemma ConsumeCloses(who: Who, l: Local, kind: EventKind, now: int)
    requires Ready(who, l) && l.pc.Consuming?
    ensures ClosingStep(l, Consume(l, l.pc.tr, kind, now))
  {
  }

  lemma ProceedCloses(who: Who, l: Local, ok: bool, native: bool, now: int)
    requires Ready(who, l)
    ensures ClosingStep(l, Proceed(l, ok, native, now))
  {
  }

  lemma StepCloses(l: Local, m: Move)
    requires Ready(m.who, l)
    ensures ClosingStep(l, Step(l, m))
  {
    match m.action
    case Call(command) => if l.pc.Idle? && m.who.User? { OrderCloses(m.who, l, command, m.now); }
    case Event(kind) => if l.pc.Consuming? { ConsumeCloses(m.who, l, kind, m.now); }
    case Drained =>
    case Go(ok, native) => ProceedCloses(m.who, l, ok, native, m.now);
  }

  // ---- The invariant over runs -----------------------------------------------------------

  predicate Moves(s: State, who: Who) {
    who.User? || who in s.pcs
  }

  function After(s: State, who: Who, l: Local, now: int): State {
    State(l.core, l.trs, Started(s.pcs[who := l.pc], l.installed), l.hist, now)
  }

  lemma InvReady(s: State, who: Who)
    requires Inv(s) && Moves(s, who)
    ensures Ready(who, View(s, who))
  {
    if who in s.pcs { assert ThreadInv(s, who); }
    forall tr: Tr | HoldsNew(PcOf(s, who), tr)
      ensures IsRunning(s.trs, tr) && s.core.transport != Some(tr)
    {
      assert TransportInv(s, tr);
    }
  }

  // Another goroutine's new transport is not touched.
  lemma OthersNew(s: State, who: Who, l': Local, now: int, other: Who, tr: Tr)
    requires Inv(s) && Moves(s, who) && StepInv(who, View(s, who), l')
    requires other in s.pcs && other != who && HoldsNew(s.pcs[other], tr)
    ensures IsRunning(l'.trs, tr) && l'.installed != Some(tr) && who != Loop(tr) && !HoldsNew(l'.pc, tr)
  {
    assert ThreadInv(s, other) && IsRunning(s.trs, tr) && Loop(tr) !in s.pcs;
    assert Keeps(View(s, who), l', tr);
    if who in s.pcs {
      assert ThreadInv(s, who);
      assert !HoldsNew(s.pcs[who], tr);
    }
  }

  lemma ThreadKeeps(s: State, who: Who, l': Local, now: int, other: Who)
    requires Inv(s) && Moves(s, who) && StepInv(who, View(s, who), l')
    requires other in After(s, who, l', now).pcs
    ensures ThreadInv(After(s, who, l', now), other)
  {
    var s' := After(s, who, l', now);
    forall tr: Tr | HoldsNew(s'.pcs[other], tr)
      ensures IsRunning(s'.trs, tr) && Loop(tr) !in s'.pcs
    {
      if other == who { MoverNew(s, who, l', now, tr); }
      else if other in s.pcs && s'.pcs[other] == s.pcs[other] { OthersNew(s, who, l', now, other, tr); }
    }
    forall tr: Tr | HoldsOld(s'.pcs[other], tr)
      ensures Loop(tr) in s'.pcs
    {
      assert Keeps(View(s, who), l', tr) && TransportInv(s, tr);
      if other in s.pcs { assert ThreadInv(s, other); }
    }
    if other in s.pcs { assert ThreadInv(s, other); }
  }

  lemma MoverNew(s: State, who: Who, l': Local, now: int, tr: Tr)
    requires Inv(s) && Moves(s, who) && StepInv(who, View(s, who), l')
    requires HoldsNew(After(s, who, l', now).pcs[who], tr)
    ensures HoldsNew(l'.pc, tr) && IsRunning(l'.trs, tr) && Loop(tr) !in After(s, who, l', now).pcs
  {
    assert Keeps(View(s, who), l', tr) && TransportInv(s, tr);
    if who in s.pcs { assert ThreadInv(s, who); }
  }

  lemma OneHandKeeps(s: State, who: Who, l': Local, now: int)
    requires Inv(s) && Moves(s, who) && StepInv(who, View(s, who), l')
    ensures OneHand(After(s, who, l', now).pcs)
  {
    var pcs' := After(s, who, l', now).pcs;
    forall a <- pcs', b <- pcs', tr: Tr | HoldsNew(pcs'[a], tr) && HoldsNew(pcs'[b], tr)
      ensures a == b
    {
      if a == who && b != who { OthersNew(s, who, l', now, b, tr); }
      else if b == who && a != who { OthersNew(s, who, l', now, a, tr); }
    }
  }

  // A transport held by another goroutine is still held by it.
  lemma StillHeld(s: State, who: Who, l': Local, now: int, tr: Tr)
    requires Inv(s) && Moves(s, who) && StepInv(who, View(s, who), l')
    requires Held(s.pcs, tr) && !Holds(PcOf(s, who), tr)
    ensures Held(After(s, who, l', now).pcs, tr)
  {
    var pcs' := After(s, who, l', now).pcs;
    var other :| other in s.pcs && Holds(s.pcs[other], tr);
    assert ThreadInv(s, other);
    if l'.installed.Some? {
      assert Keeps(View(s, who), l', l'.installed.value);
      if who in s.pcs { assert ThreadInv(s, who); }
      assert other != Loop(l'.installed.value);
    }
    assert pcs'[other] == s.pcs[other];
  }

  lemma NowHeld(s: State, who: Who, l': Local, now: int, tr: Tr)
    requires Inv(s) && Moves(s, who) && StepInv(who, View(s, who), l') && Holds(l'.pc, tr)
    ensures Held(After(s, who, l', now).pcs, tr)
  {
    var pcs' := After(s, who, l', now).pcs;
    if l'.installed.Some? { assert Keeps(View(s, who), l', l'.installed.value); }
    assert pcs'[who] == l'.pc;
  }

  lemma TransportKeeps(s: State, who: Who, l': Local, now: int, tr: Tr)
    requires Inv(s) && Moves(s, who) && StepInv(who, View(s, who), l')
    ensures TransportInv(After(s, who, l', now), tr)
  {
    var l, s' := View(s, who), After(s, who, l', now);
    assert Keeps(l, l', tr) && TransportInv(s, tr);
    if Holds(l'.pc, tr) { NowHeld(s, who, l', now, tr); }
    if Held(s.pcs, tr) && !Holds(l.pc, tr) { StillHeld(s, who, l', now, tr); }
    if who in s.pcs { assert ThreadInv(s, who); }
  }

  lemma ClosingKeeps(s: State, who: Who, l': Local, now: int)
    requires Inv(s) && Moves(s, who) && StepInv(who, View(s, who), l') && ClosingStep(View(s, who), l')
    ensures ClosingInv(After(s, who, l', now))
  {
    var l, s' := View(s, who), After(s, who, l', now);
    forall tr: Tr | s'.hist.closing == Some(Some(tr)) && IsRunning(s'.trs, tr)
      ensures Stopping(s'.pcs, tr)
    {
      StillStopping(s, who, l', now, tr);
    }
    forall tr: Tr | s'.hist.closing == Some(Some(tr))
      ensures Loop(tr) in s'.pcs
    {
      assert TransportInv(s, tr);
    }
  }

  lemma StillStopping(s: State, who: Who, l': Local, now: int, tr: Tr)
    requires Inv(s) && Moves(s, who) && StepInv(who, View(s, who), l') && ClosingStep(View(s, who), l')
    requires l'.hist.closing == Some(Some(tr)) && IsRunning(l'.trs, tr)
    ensures Stopping(After(s, who, l', now).pcs, tr)
  {
    var l, pcs' := View(s, who), After(s, who, l', now).pcs;
    assert Keeps(l, l', tr) && TransportInv(s, tr);
    if l'.pc == StopLast(Some(tr)) {
      assert pcs'[who] == l'.pc;
    } else {
      assert l.hist.closing == Some(Some(tr));
      var other :| other in s.pcs && s.pcs[other] == StopLast(Some(tr));
      assert other != who && pcs'[other] == s.pcs[other] by {
        assert ThreadInv(s, other);
        assert !HoldsNew(s.pcs[other], tr);
      }
    }
  }

  lemma NextKeeps(s: State, m: Move)
    requires Inv(s)
    ensures Inv(Next(s, m))
  {
    if Moves(s, m.who) {
      var l' := Step(View(s, m.who), m);
      InvReady(s, m.who);
      StepKeeps(View(s, m.who), m);
      StepCloses(View(s, m.who), m);
      forall other <- Next(s, m).pcs ensures ThreadInv(Next(s, m), other) { ThreadKeeps(s, m.who, l', m.now, other); }
      OneHandKeeps(s, m.who, l', m.now);
      forall tr: Tr ensures TransportInv(Next(s, m), tr) { TransportKeeps(s, m.who, l', m.now, tr); }
      ClosingKeeps(s, m.who, l', m.now);
    } else {
      SameButClock(s, m.now);
    }
  }

  lemma SameButClock(s: State, now: int)
    requires Inv(s)
    ensures Inv(s.(clock := now))
  {
    var s' := s.(clock := now);
    forall who <- s'.pcs ensures ThreadInv(s', who) { assert ThreadInv(s, who); }
    forall tr: Tr ensures TransportInv(s', tr) { assert TransportInv(s, tr); }
  }

  lemma InitInv(track: Track, now: int)
    ensures Inv(Init(track, now))
  {
  }

  lemma {:induction false} RunKeeps(s: State, moves: seq<Move>)
    requires Inv(s)
    ensures Inv(Run(s, moves))
  {
    if moves != [] {
      RunKeeps(s, moves[..|moves| - 1]);
      NextKeeps(Run(s, moves[..|moves| - 1]), moves[|moves| - 1]);
    }
  }

  // ---- No ghost playback -----------------------------------------------------------------

  // Every call to a transport that a goroutine was making has returned.
  ghost predicate Quiet(s: State) {
    forall who <- s.pcs, tr: Tr :: !Holds(s.pcs[who], tr)
  }

  /**
   Once Stop has closed the session and every spawnTransport and Stop in flight has returned, no
   transport runs, except one that another spawn had overwritten while it ran.
   */
  lemma NoGhostPlayback(track: Track, start: int, moves: seq<Move>, tr: Tr)
    ensures var s := Run(Init(track, start), moves);
      s.core.closed && Quiet(s) && IsRunning(s.trs, tr) ==> tr in s.hist.overwritten
  {
    var s := Run(Init(track, start), moves);
    InitInv(track, start);
    RunKeeps(Init(track, start), moves);
    if s.core.closed && Quiet(s) && IsRunning(s.trs, tr) { OnlyOverwritten(s, tr); }
  }

  lemma OnlyOverwritten(s: State, tr: Tr)
    requires Inv(s) && s.core.closed && Quiet(s) && IsRunning(s.trs, tr)
    ensures tr in s.hist.overwritten
  {
    assert TransportInv(s, tr);
    if s.core.transport == Some(tr) {
      var who :| who in s.pcs && s.pcs[who] == StopLast(Some(tr));
      assert Holds(s.pcs[who], tr);
    }
  }

  /** The transport that the first Stop found is stopped before that Stop returns. */
  lemma StoppedBeforeStopReturns(track: Track, start: int, moves: seq<Move>, tr: Tr)
    ensures var s := Run(Init(track, start), moves);
      s.hist.closing == Some(Some(tr)) && !Stopping(s.pcs, tr) ==> !IsRunning(s.trs, tr)
  {
    InitInv(track, start);
    RunKeeps(Init(track, start), moves);
  }

  /** A transport that started and that no spawnTransport has in its hands was installed or stopped. */
  lemma StartedIsInstalledOrStopped(track: Track, start: int, moves: seq<Move>, tr: Tr)
    ensures var s := Run(Init(track, start), moves);
      tr < |s.trs| && (forall who <- s.pcs :: !HoldsNew(s.pcs[who], tr)) ==>
        Loop(tr) in s.pcs || s.trs[tr].phase.StopCalled?
  {
    var s := Run(Init(track, start), moves);
    InitInv(track, start);
    RunKeeps(Init(track, start), moves);
    assert TransportInv(s, tr);
    forall who <- s.pcs ensures HoldsOld(s.pcs[who], tr) ==> Loop(tr) in s.pcs { assert ThreadInv(s, who); }
  }

  /** A closed session installs nothing: it stays closed, and its transport stays or is dropped by Pause. */
  lemma {:induction false} ClosedInstallsNothing(s: State, moves: seq<Move>)
    requires Inv(s) && s.core.closed
    ensures var t := Run(s, moves);
      && t.core.closed && (t.core.transport == s.core.transport || t.core.transport.None?)
      && t.hist.overwritten == s.hist.overwritten && t.hist.closing == s.hist.closing
      && forall tr: Tr :: Loop(tr) in t.pcs <==> Loop(tr) in s.pcs
  {
    if moves != [] {
      var before := Run(s, moves[..|moves| - 1]);
      ClosedInstallsNothing(s, moves[..|moves| - 1]);
      RunKeeps(s, moves[..|moves| - 1]);
      ClosedStep(before, moves[|moves| - 1]);
    }
  }

  lemma ClosedStep(s: State, m: Move)
    requires Inv(s) && s.core.closed
    ensures var t := Next(s, m);
      && t.core.closed && (t.core.transport == s.core.transport || t.core.transport.None?)
      && t.hist.overwritten == s.hist.overwritten && t.hist.closing == s.hist.closing
      && forall tr: Tr :: Loop(tr) in t.pcs <==> Loop(tr) in s.pcs
  {
    if Moves(s, m.who) {
      InvReady(s, m.who);
      StepCloses(View(s, m.who), m);
    }
  }

  // ---- Replaced transports ---------------------------------------------------------------

  /** A transport that was installed and replaced is never installed again. */
  lemma {:induction false} ReplacedStaysReplaced(s: State, moves: seq<Move>, tr: Tr)
    requires Inv(s) && Loop(tr) in s.pcs && s.core.transport != Some(tr)
    ensures Loop(tr) in Run(s, moves).pcs && Run(s, moves).core.transport != Some(tr)
  {
    if moves != [] {
      var before, m := Run(s, moves[..|moves| - 1]), moves[|moves| - 1];
      ReplacedStaysReplaced(s, moves[..|moves| - 1], tr);
      RunKeeps(s, moves[..|moves| - 1]);
      if Moves(before, m.who) {
        InvReady(before, m.who);
        StepKeeps(View(before, m.who), m);
        assert Keeps(View(before, m.who), Step(View(before, m.who), m), tr);
        if m.who in before.pcs { assert ThreadInv(before, m.who); }
      }
    }
  }

  /** The loop of a replaced transport, at whatever place and whatever it does next, changes a field of
      the session exactly when it installs the transport of its retry in an open session, or finds an open
      session that it had seen fail and that has not failed yet. */
  lemma ReplacedLoopActsIff(track: Track, start: int, moves: seq<Move>, tr: Tr, m: Move)
    requires m.who == Loop(tr)
    ensures var t := Run(Init(track, start), moves);
      var pc := PcOf(t, Loop(tr));
      Loop(tr) in t.pcs && t.core.transport != Some(tr) ==>
        (Next(t, m).core != t.core <==>
          m.action.Go? && !t.core.closed && (pc.Fresh? || (pc.Tail? && !t.core.state.Failed?)))
  {
    var t := Run(Init(track, start), moves);
    InitInv(track, start);
    RunKeeps(Init(track, start), moves);
    if Loop(tr) in t.pcs && t.core.transport != Some(tr) {
      assert ThreadInv(t, Loop(tr));
      var pc := t.pcs[Loop(tr)];
      if pc.Fresh? { assert HoldsNew(pc, pc.tr) && TransportInv(t, pc.tr); }
    }
  }

  // The loop has not seen its transport fail.
  predicate Listening(pc: Pc) {
    pc.Idle? || pc.Consuming? || pc.Reporting?
  }

  lemma ListeningStays(s: State, m: Move, tr: Tr)
    requires Inv(s) && Loop(tr) in s.pcs && s.core.transport != Some(tr) && Listening(s.pcs[Loop(tr)])
    ensures Loop(tr) in Next(s, m).pcs && Listening(Next(s, m).pcs[Loop(tr)])
    ensures m.who == Loop(tr) ==> Next(s, m).core == s.core
  {
    assert ThreadInv(s, Loop(tr));
    if Moves(s, m.who) && m.who != Loop(tr) {
      InvReady(s, m.who);
      StepKeeps(View(s, m.who), m);
      var l' := Step(View(s, m.who), m);
      if l'.installed.Some? { NotYetLooping(s, m, l'.installed.value); }
    }
  }

  // A transport that is being installed has no loop yet.
  lemma NotYetLooping(s: State, m: Move, tr: Tr)
    requires Inv(s) && Moves(s, m.who) && Step(View(s, m.who), m).installed == Some(tr)
    ensures Loop(tr) !in s.pcs
  {
    InvReady(s, m.who);
    StepKeeps(View(s, m.who), m);
    assert Keeps(View(s, m.who), Step(View(s, m.who), m), tr);
    assert ThreadInv(s, m.who);
  }

  /** A transport replaced before its loop saw it fail is harmless for good: whatever its events are and
      whenever they arrive, in every continuation, no move of its loop changes a field of the session. */
  lemma {:induction false} StaleEventsChangeNothing(s: State, moves: seq<Move>, tr: Tr, m: Move)
    requires Inv(s) && Loop(tr) in s.pcs && s.core.transport != Some(tr) && Listening(s.pcs[Loop(tr)])
    requires m.who == Loop(tr)
    ensures var t := Run(s, moves);
      && Loop(tr) in t.pcs && Listening(t.pcs[Loop(tr)]) && t.core.transport != Some(tr)
      && Next(t, m).core == t.core
  {
    ReplacedStaysReplaced(s, moves, tr);
    RunKeeps(s, moves);
    if moves != [] {
      var before := moves[..|moves| - 1];
      StaleEventsChangeNothing(s, before, tr, m);
      RunKeeps(s, before);
      ListeningStays(Run(s, before), moves[|moves| - 1], tr);
    }
    ListeningStays(Run(s, moves), m, tr);
  }

  // ---- What callers can do about overwritten transports --------------------------------------

  // The goroutine is on its way to install a transport: from the locked section in which a command or
  // a retry decides to, until the install.
  predicate Spawning(pc: Pc) {
    pc.Check? || pc.Launch? || pc.Fresh? || pc.Reset? || (pc.StopOld? && !pc.after.Idle?)
  }

  // Resume of a session that is paused with a transport that has no native control: the receiver
  // reported the pause itself.
  predicate ResumesOver(l: Local, m: Move) {
    && m.action.Call? && m.action.command.Resume? && m.who.User? && l.pc.Idle?
    && l.core.state.Paused? && l.core.transport.Some? && !Native(l)
  }

  /** No goroutine sets out to install a transport while another one is about to, and nobody calls Resume
      over a transport without native control. */
  ghost predicate Orderly(s: State, m: Move) {
    var l := View(s, m.who);
    && !ResumesOver(l, m)
    && (!Spawning(l.pc) && Spawning(Step(l, m).pc) ==> forall o <- s.pcs :: !Spawning(s.pcs[o]))
  }

  ghost predicate AllOrderly(s: State, moves: seq<Move>) {
    moves != [] ==>
      AllOrderly(s, moves[..|moves| - 1]) && Orderly(Run(s, moves[..|moves| - 1]), moves[|moves| - 1])
  }

  // Who is about to install a transport has stopped the installed one, or is about to.
  predicate Cleared(core: Core, trs: seq<Transport>, pc: Pc) {
    Spawning(pc) && core.transport.Some? && IsRunning(trs, core.transport.value) ==>
      pc.StopOld? && pc.tr == core.transport.value
  }

  ghost predicate OrderlyInv(s: State) {
    && s.hist.overwritten == {}
    && (forall a <- s.pcs, b <- s.pcs :: Spawning(s.pcs[a]) && Spawning(s.pcs[b]) ==> a == b)
    && (forall a <- s.pcs :: Cleared(s.core, s.trs, s.pcs[a]))
  }

  // What a move does to the installed transport, seen by the others.
  predicate Gentle(l: Local, l': Local) {
    && l'.hist.overwritten == l.hist.overwritten
    && Cleared(l'.core, l'.trs, l'.pc)
    && (!Spawning(l.pc) ==> l'.installed.None?)
    && (!Spawning(l.pc) && l'.core.transport.Some? ==>
          l'.core.transport == l.core.transport &&
          (IsRunning(l'.trs, l'.core.transport.value) ==> IsRunning(l.trs, l'.core.transport.value)))
  }

  predicate Known(l: Local) {
    l.installed.None? && (l.core.transport.Some? ==> l.core.transport.value < |l.trs|)
  }

  lemma OrderGentle(l: Local, m: Move)
    requires Known(l) && l.pc.Idle? && m.action.Call? && m.who.User? && !ResumesOver(l, m)
    ensures Gentle(l, Order(l, m.action.command, m.now))
  {
  }

  lemma ConsumeGentle(l: Local, kind: EventKind, now: int)
    requires Known(l) && l.pc.Consuming?
    ensures Gentle(l, Consume(l, l.pc.tr, kind, now))
  {
  }

  lemma ProceedGentle(l: Local, ok: bool, native: bool, now: int)
    requires Known(l) && Cleared(l.core, l.trs, l.pc) && (l.pc.StopOld? ==> Follows(l.pc.after))
    ensures Gentle(l, Proceed(l, ok, native, now))
  {
  }

  lemma StepGentle(l: Local, m: Move)
    requires Known(l) && Cleared(l.core, l.trs, l.pc) && (l.pc.StopOld? ==> Follows(l.pc.after))
    requires !ResumesOver(l, m)
    ensures Gentle(l, Step(l, m))
  {
    match m.action
    case Call(_) => if l.pc.Idle? && m.who.User? { OrderGentle(l, m); }
    case Event(kind) => if l.pc.Consuming? { ConsumeGentle(l, kind, m.now); }
    case Drained =>
    case Go(ok, native) => ProceedGentle(l, ok, native, m.now);
  }

  lemma NextOrderly(s: State, m: Move)
    requires Inv(s) && OrderlyInv(s) && Orderly(s, m)
    ensures OrderlyInv(Next(s, m))
  {
    if Moves(s, m.who) {
      var l, l' := View(s, m.who), Step(View(s, m.who), m);
      if m.who in s.pcs { assert ThreadInv(s, m.who); }
      if s.core.transport.Some? { assert TransportInv(s, s.core.transport.value); }
      StepGentle(l, m);
      OthersCleared(s, m.who, l', m.now);
    }
  }

  lemma OthersCleared(s: State, who: Who, l': Local, now: int)
    requires OrderlyInv(s) && Gentle(View(s, who), l')
    requires !Spawning(PcOf(s, who)) && Spawning(l'.pc) ==> forall o <- s.pcs :: !Spawning(s.pcs[o])
    ensures OrderlyInv(After(s, who, l', now))
  {
    var pcs' := After(s, who, l', now).pcs;
    forall a <- pcs' | Spawning(pcs'[a]) ensures a == who || (a in s.pcs && pcs'[a] == s.pcs[a]) {}
  }

  /** Where callers keep that order, no running transport is ever overwritten, and once the session is
      closed and the calls in flight have returned, nothing runs. */
  lemma {:induction false} OrderlySessionsFallSilent(track: Track, start: int, moves: seq<Move>)
    requires AllOrderly(Init(track, start), moves)
    ensures var s := Run(Init(track, start), moves);
      && OrderlyInv(s)
      && (s.core.closed && Quiet(s) ==> forall tr: Tr :: !IsRunning(s.trs, tr))
  {
    var s0 := Init(track, start);
    InitInv(track, start);
    if moves != [] {
      var before := moves[..|moves| - 1];
      OrderlySessionsFallSilent(track, start, before);
      RunKeeps(s0, before);
      NextOrderly(Run(s0, before), moves[|moves| - 1]);
    }
    forall tr: Tr ensures var s := Run(s0, moves); s.core.closed && Quiet(s) ==> !IsRunning(s.trs, tr) {
      NoGhostPlayback(track, start, moves, tr);
    }
  }
}
