/**
 A track that has ended stays ended: nothing starts a transport again but Seek and PlayTrack.
 */
module CastSessionEnds {
  import opened Wrappers
  import opened CastSession
  import opened CastSessionRuns
  import opened CastSessionTheorems

  // ---- Calls to a receiver with native control ----------------------------------------------

  // A call to the receiver itself, or the locked section after it.
  predicate AsksReceiver(pc: Pc) {
    pc.PauseCall? || pc.PauseApply? || pc.ResumeCall? || pc.ResumeApply? || pc.SeekCall? || pc.SeekApply?
  }

  predicate HasControl(trs: seq<Transport>, tr: Tr) {
    tr < |trs| && trs[tr].native
  }

  predicate ReceiverInv(trs: seq<Transport>, pc: Pc) {
    (AsksReceiver(pc) ==> HasControl(trs, pc.tr)) && (pc.StopOld? ==> Follows(pc.after))
  }

  ghost predicate ReceiversInv(s: State) {
    forall who <- s.pcs :: ReceiverInv(s.trs, s.pcs[who])
  }

  lemma StepAsks(l: Local, m: Move)
    requires ReceiverInv(l.trs, l.pc)
    ensures var l' := Step(l, m);
      && ReceiverInv(l'.trs, l'.pc)
      && |l.trs| <= |l'.trs| && forall tr :: 0 <= tr < |l.trs| ==> l'.trs[tr].native == l.trs[tr].native
  {
    match m.action
    case Call(command) => if l.pc.Idle? && m.who.User? { OrderAsks(l, command, m.now); }
    case Event(_) =>
    case Drained =>
    case Go(ok, native) => ProceedAsks(l, ok, native, m.now);
  }

  lemma OrderAsks(l: Local, command: Command, now: int)
    requires l.pc.Idle?
    ensures var l' := Order(l, command, now); ReceiverInv(l'.trs, l'.pc) && l'.trs == l.trs
  {
  }

  lemma ProceedAsks(l: Local, ok: bool, native: bool, now: int)
    requires ReceiverInv(l.trs, l.pc)
    ensures var l' := Proceed(l, ok, native, now);
      && ReceiverInv(l'.trs, l'.pc)
      && |l.trs| <= |l'.trs| && forall tr :: 0 <= tr < |l.trs| ==> l'.trs[tr].native == l.trs[tr].native
  {
  }

  lemma NextAsks(s: State, m: Move)
    requires ReceiversInv(s)
    ensures ReceiversInv(Next(s, m))
  {
    if Moves(s, m.who) { StepAsks(View(s, m.who), m); }
  }

  lemma {:induction false} RunAsks(track: Track, start: int, moves: seq<Move>)
    ensures ReceiversInv(Run(Init(track, start), moves))
  {
    if moves != [] {
      RunAsks(track, start, moves[..|moves| - 1]);
      NextAsks(Run(Init(track, start), moves[..|moves| - 1]), moves[|moves| - 1]);
    }
  }

  // ---- After the end -------------------------------------------------------------------------

  // The installed transport has ended and its loop has returned, nobody is about to start another one, and
  // the session is not paused, unless the receiver itself would be asked to resume.
  ghost predicate HasEnded(s: State, tr: Tr) {
    && s.core.transport == Some(tr) && tr < |s.trs| && Loop(tr) in s.pcs && s.pcs[Loop(tr)].Idle?
    && (s.core.state.Stopped? || s.core.state.Failed? || s.trs[tr].native)
    && forall who <- s.pcs :: !Spawning(s.pcs[who])
  }

  // Neither Seek nor PlayTrack is called.
  predicate NoNewStart(m: Move) {
    m.action.Call? ==> !m.action.command.Seek? && !m.action.command.PlayTrack?
  }

  // What a move leaves of it, as its goroutine sees it.
  predicate Over(l: Local, tr: Tr) {
    && l.core.transport == Some(tr) && tr < |l.trs| && !Spawning(l.pc) && l.installed.None?
    && (l.core.state.Stopped? || l.core.state.Failed? || l.trs[tr].native)
  }

  lemma OrderOver(l: Local, m: Move, tr: Tr)
    requires Over(l, tr) && m.action.Call? && l.pc.Idle? && NoNewStart(m)
    ensures var l' := Order(l, m.action.command, m.now); Over(l', tr) && l'.trs == l.trs
  {
  }

  lemma ConsumeOver(l: Local, m: Move, tr: Tr)
    requires Over(l, tr) && m.action.Event? && l.pc.Consuming? && l.pc.tr != tr
    ensures var l' := Consume(l, l.pc.tr, m.action.kind, m.now); Over(l', tr) && |l'.trs| == |l.trs|
  {
  }

  lemma ProceedOver(l: Local, m: Move, tr: Tr)
    requires Over(l, tr) && m.action.Go? && ReceiverInv(l.trs, l.pc)
    ensures var l' := Proceed(l, m.action.ok, m.action.native, m.now); Over(l', tr) && |l'.trs| == |l.trs|
  {
  }

  lemma StepOver(l: Local, m: Move, tr: Tr)
    requires Over(l, tr) && NoNewStart(m) && ReceiverInv(l.trs, l.pc) && (l.pc.Consuming? ==> l.pc.tr != tr)
    ensures var l' := Step(l, m); Over(l', tr) && |l'.trs| == |l.trs|
  {
    match m.action
    case Call(_) => if l.pc.Idle? && m.who.User? { OrderOver(l, m, tr); }
    case Event(_) => if l.pc.Consuming? { ConsumeOver(l, m, tr); }
    case Drained =>
    case Go(_, _) => ProceedOver(l, m, tr);
  }

  lemma NextEnded(s: State, m: Move, tr: Tr)
    requires Inv(s) && ReceiversInv(s) && HasEnded(s, tr) && NoNewStart(m)
    ensures HasEnded(Next(s, m), tr) && |Next(s, m).trs| == |s.trs|
  {
    if Moves(s, m.who) {
      if m.who in s.pcs { assert ThreadInv(s, m.who) && ReceiverInv(s.trs, s.pcs[m.who]); }
      StepOver(View(s, m.who), m, tr);
    }
  }

  /**
   Once the installed transport has reported its end and no start is under way, no command but Seek and
   PlayTrack and no event of whatever transport starts another one, in any continuation: Resume does not
   either, and the ended transport stays the installed one.
   */
  lemma {:induction false} EndedStaysEnded(s: State, moves: seq<Move>, tr: Tr)
    requires Inv(s) && ReceiversInv(s) && HasEnded(s, tr)
    requires forall m <- moves :: NoNewStart(m)
    ensures HasEnded(Run(s, moves), tr) && |Run(s, moves).trs| == |s.trs|
  {
    if moves != [] {
      var before := moves[..|moves| - 1];
      assert forall m <- before :: m in moves;
      EndedStaysEnded(s, before, tr);
      RunKeeps(s, before);
      AsksOn(s, before);
      NextEnded(Run(s, before), moves[|moves| - 1], tr);
    }
  }

  lemma {:induction false} AsksOn(s: State, moves: seq<Move>)
    requires ReceiversInv(s)
    ensures ReceiversInv(Run(s, moves))
  {
    if moves != [] {
      AsksOn(s, moves[..|moves| - 1]);
      NextAsks(Run(s, moves[..|moves| - 1]), moves[|moves| - 1]);
    }
  }

  /** The end of the installed transport: its loop hears it, and nobody is about to start another one. */
  lemma EndIsHeard(s: State, tr: Tr, now: int)
    requires Inv(s) && s.core.transport == Some(tr) && PcOf(s, Loop(tr)) == Consuming(tr)
    requires forall who <- s.pcs :: !Spawning(s.pcs[who])
    ensures var t := Next(s, Move(Loop(tr), Event(Ended), now));
      && HasEnded(t, tr) && t.core.state.Stopped? && !IsRunning(t.trs, tr)
      && Position(t.core, now) == Position(s.core, now)
  {
    assert TransportInv(s, tr);
  }

  /** So in every run from the start: after the end of the installed transport, with no start under way, as
      many transports are ever started as before, until Seek or PlayTrack is called. */
  lemma NothingStartsAfterTheEnd(track: Track, start: int, moves: seq<Move>, tr: Tr, now: int, more: seq<Move>)
    requires var s := Run(Init(track, start), moves);
      && s.core.transport == Some(tr) && PcOf(s, Loop(tr)) == Consuming(tr)
      && forall who <- s.pcs :: !Spawning(s.pcs[who])
    requires forall m <- more :: NoNewStart(m)
    ensures var s := Run(Init(track, start), moves);
      var t := Run(Next(s, Move(Loop(tr), Event(Ended), now)), more);
      && |t.trs| == |s.trs| && t.core.transport == Some(tr) && !IsRunning(t.trs, tr)
      && forall who <- t.pcs :: !Spawning(t.pcs[who])
  {
    var s := Run(Init(track, start), moves);
    var end := Move(Loop(tr), Event(Ended), now);
    InitInv(track, start);
    RunKeeps(Init(track, start), moves);
    RunAsks(track, start, moves);
    EndIsHeard(s, tr, now);
    NextKeeps(s, end);
    NextAsks(s, end);
    EndedStaysEnded(Next(s, end), more, tr);
    DeadStaysDead(Next(s, end), more, tr);
  }

  lemma {:induction false} DeadStaysDead(s: State, moves: seq<Move>, tr: Tr)
    requires Inv(s) && tr < |s.trs| && !IsRunning(s.trs, tr)
    ensures tr < |Run(s, moves).trs| && !IsRunning(Run(s, moves).trs, tr)
  {
    if moves != [] {
      var before, m := Run(s, moves[..|moves| - 1]), moves[|moves| - 1];
      DeadStaysDead(s, moves[..|moves| - 1], tr);
      RunKeeps(s, moves[..|moves| - 1]);
      if Moves(before, m.who) {
        InvReady(before, m.who);
        StepKeeps(View(before, m.who), m);
        assert Keeps(View(before, m.who), Step(View(before, m.who), m), tr);
      }
    }
  }
}
