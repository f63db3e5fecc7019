/**
 Two families of runs, one for every length of time, in which the position falls back by that time.
 */
module CastSessionLosses {
  import opened Wrappers
  import opened CastSession
  import opened CastSessionRuns
  import opened CastSessionClock
  import opened CastSessionTraps
  import opened CastSessionOverwrites

  // One move of a goroutine that installs nothing.
  lemma Hop(s: State, m: Move, pcs: map<Who, Pc>, ow: set<Tr>, l': Local)
    requires s.pcs == pcs && s.hist.overwritten == ow && (m.who.User? || m.who in pcs)
    requires l' == Step(View(s, m.who), m) && l'.installed.None? && l'.hist.overwritten == ow
    ensures Scene(Next(s, m), l'.core, l'.trs, pcs[m.who := l'.pc], ow)
  {
  }

  const LISTENING := map[User(0) := Idle, Loop(0) := Consuming(0)]

  lemma {:induction false} AtOnce(moves: seq<Move>, t: int)
    requires forall i :: 0 <= i < |moves| ==> moves[i].now == t
    ensures Forward(moves, t) && End(moves, t) == t
  {
    if moves != [] { AtOnce(moves[..|moves| - 1], t); }
  }

  // A last move, at any later time.
  lemma ThenLater(moves: seq<Move>, m: Move, from: int)
    requires Forward(moves, from) && End(moves, from) <= m.now
    ensures Forward(moves + [m], from) && End(moves + [m], from) == m.now
  {
    assert (moves + [m])[..|moves + [m]| - 1] == moves;
  }

  // ---- A failure during playback -----------------------------------------------------------

  function FailsAt(now: int): seq<Move> {
    (GoThrice(User(0)) + [Says(0, PlayingEvent), Goes(Loop(0), 0)]) + [Move(Loop(0), Event(FailedEvent), now)]
  }

  lemma AfterPlays(s: State)
    requires Scene(s, INSTALLED, s.trs, LISTENING, {})
    ensures Scene(Run(s, [Says(0, PlayingEvent), Goes(Loop(0), 0)]), PLAYING, s.trs, LISTENING, {})
  {
    Two(s, Says(0, PlayingEvent), Goes(Loop(0), 0));
    var s1 := Next(s, Says(0, PlayingEvent));
    BeginsToPlay(View(s, Loop(0)));
    Hop(s, Says(0, PlayingEvent), LISTENING, {}, Step(View(s, Loop(0)), Says(0, PlayingEvent)));
    Hop(s1, Goes(Loop(0), 0), s1.pcs, {}, Step(View(s1, Loop(0)), Goes(Loop(0), 0)));
  }

  lemma BeginsToPlay(l: Local)
    requires l.core == INSTALLED && l.pc == Consuming(0) && l.installed.None?
    ensures var l' := Step(l, Says(0, PlayingEvent));
      && l'.core == PLAYING && l'.trs == l.trs && l'.pc == Reporting(0) && l'.installed.None?
      && l'.hist.overwritten == l.hist.overwritten
  {
  }

  lemma AfterFails(s: State, now: int)
    requires Scene(s, PLAYING, [RUNNING], LISTENING, {})
    ensures Scene(Run(s, [Move(Loop(0), Event(FailedEvent), now)]), PLAYING.(retried := true), [OVER],
                  map[User(0) := Idle, Loop(0) := Tail], {})
  {
    var m := Move(Loop(0), Event(FailedEvent), now);
    OneMove(s, m);
    Fails(View(s, Loop(0)), now);
    Hop(s, m, LISTENING, {}, Step(View(s, Loop(0)), m));
  }

  lemma Fails(l: Local, now: int)
    requires l.core == PLAYING && l.trs == [RUNNING] && l.pc == Consuming(0) && l.installed.None?
    ensures var l' := Step(l, Move(Loop(0), Event(FailedEvent), now));
      && l'.core == PLAYING.(retried := true) && l'.trs == [OVER] && l'.pc == Tail && l'.installed.None?
      && l'.hist.overwritten == l.hist.overwritten
  {
  }

  lemma FailureIsForward(now: int)
    requires now >= 0
    ensures Forward(FailsAt(now) + [Goes(Loop(0), now)], 0)
  {
    var play := [Says(0, PlayingEvent), Goes(Loop(0), 0)];
    AtOnce(GoThrice(User(0)) + play, 0);
    ThenLater(GoThrice(User(0)) + play, Move(Loop(0), Event(FailedEvent), now), 0);
    ThenLater(FailsAt(now), Goes(Loop(0), now), 0);
  }

  /** A failure after any time of playback: the session shows the position that far on until the failure
      is recorded, and the start of the track after it. */
  lemma FailureForgetsTheInterval(now: int)
    requires now >= 0
    ensures Forward(FailsAt(now) + [Goes(Loop(0), now)], 0)
    ensures var s, m := Run(Init(SONG, 0), FailsAt(now)), Goes(Loop(0), now);
      && Forgotten(View(s, Loop(0)), m) == now
      && Position(s.core, now) == now && Position(Next(s, m).core, now) == 0
  {
    var s0, play := Init(SONG, 0), [Says(0, PlayingEvent), Goes(Loop(0), 0)];
    FirstStarts();
    RunAppends(s0, GoThrice(User(0)), play);
    AfterPlays(Run(s0, GoThrice(User(0))));
    RunAppends(s0, GoThrice(User(0)) + play, [Move(Loop(0), Event(FailedEvent), now)]);
    AfterFails(Run(s0, GoThrice(User(0)) + play), now);
    ForgetsOnFailure(Run(s0, FailsAt(now)), now);
    FailureIsForward(now);
  }

  lemma ForgetsOnFailure(s: State, now: int)
    requires Scene(s, PLAYING.(retried := true), [OVER], map[User(0) := Idle, Loop(0) := Tail], {})
    ensures var m := Goes(Loop(0), now);
      && Forgotten(View(s, Loop(0)), m) == now
      && Position(s.core, now) == now && Position(Next(s, m).core, now) == 0
  {
    var l' := Step(View(s, Loop(0)), Goes(Loop(0), now));
    assert l'.core == s.core.(state := Failed);
  }

  // ---- Resume on the receiver ----------------------------------------------------------------

  const NATIVE := Transport(true, Running)

  function NativeStart(): seq<Move> {
    [Goes(User(0), 0), Move(User(0), Go(true, true), 0), Goes(User(0), 0)]
  }

  lemma AfterNativeStart()
    ensures Scene(Run(Init(SONG, 0), NativeStart()), INSTALLED, [NATIVE], LISTENING, {})
  {
    var s := Init(SONG, 0);
    Three(s, Goes(User(0), 0), Move(User(0), Go(true, true), 0), Goes(User(0), 0));
    var s1 := Next(s, Goes(User(0), 0));
    assert s1.pcs == map[User(0) := Launch(SONG, Caller)];
    var s2 := Next(s1, Move(User(0), Go(true, true), 0));
    assert s2.pcs == map[User(0) := Fresh(SONG, 0, Caller)] && s2.trs == [NATIVE];
  }

  function NativePause(): seq<Move> {
    [Move(User(0), Call(Pause), 0), Goes(User(0), 0), Goes(User(0), 0)]
  }

  const PAUSED := INSTALLED.(state := Paused, playbackStarted := true)

  lemma AfterNativePause(s: State)
    requires Scene(s, PLAYING, [NATIVE], LISTENING, {})
    ensures Scene(Run(s, NativePause()), PAUSED, [NATIVE], LISTENING, {})
  {
    var pause := Move(User(0), Call(Pause), 0);
    Three(s, pause, Goes(User(0), 0), Goes(User(0), 0));
    PauseAsks(View(s, User(0)));
    Hop(s, pause, LISTENING, {}, Step(View(s, User(0)), pause));
    ReceiverIsPaused(Next(s, pause));
  }

  lemma ReceiverIsPaused(s: State)
    requires Scene(s, PLAYING, [NATIVE], LISTENING[User(0) := PauseCall(0)], {})
    ensures Scene(Next(Next(s, Goes(User(0), 0)), Goes(User(0), 0)), PAUSED, [NATIVE], LISTENING, {})
  {
    Hop(s, Goes(User(0), 0), s.pcs, {}, Step(View(s, User(0)), Goes(User(0), 0)));
    SamePc(LISTENING, User(0), PauseCall(0), PauseApply(0));
    PauseIsRecorded(Next(s, Goes(User(0), 0)));
  }

  lemma PauseIsRecorded(s: State)
    requires Scene(s, PLAYING, [NATIVE], LISTENING[User(0) := PauseApply(0)], {})
    ensures Scene(Next(s, Goes(User(0), 0)), PAUSED, [NATIVE], LISTENING, {})
  {
    PauseEnds(View(s, User(0)));
    Hop(s, Goes(User(0), 0), s.pcs, {}, Step(View(s, User(0)), Goes(User(0), 0)));
    SamePc(LISTENING, User(0), PauseApply(0), Idle);
    SamePcs(LISTENING, User(0), Idle);
  }

  lemma PauseAsks(l: Local)
    requires l.core == PLAYING && l.trs == [NATIVE] && l.pc.Idle? && l.installed.None?
    ensures var l' := Step(l, Move(User(0), Call(Pause), 0));
      l'.core == PLAYING && l'.trs == l.trs && l'.pc == PauseCall(0) && l'.installed.None? && l'.hist == l.hist
  {
  }

  lemma PauseEnds(l: Local)
    requires l.core == PLAYING && l.pc == PauseApply(0) && l.installed.None?
    ensures var l' := Step(l, Goes(User(0), 0));
      l'.core == PAUSED && l'.trs == l.trs && l'.pc.Idle? && l'.installed.None? && l'.hist == l.hist
  {
  }

  // The receiver has resumed and says so; the call is about to take the lock again.
  function NativeResume(): seq<Move> {
    [Move(User(0), Call(Resume), 0), Goes(User(0), 0), Says(0, Resumed)]
  }

  lemma AfterNativeResume(s: State)
    requires Scene(s, PAUSED, [NATIVE], LISTENING, {})
    ensures Scene(Run(s, NativeResume()), PLAYING, [NATIVE], LISTENING[User(0) := ResumeApply(0)], {})
  {
    var resume := Move(User(0), Call(Resume), 0);
    Three(s, resume, Goes(User(0), 0), Says(0, Resumed));
    ResumeAsks(View(s, User(0)));
    Hop(s, resume, LISTENING, {}, Step(View(s, User(0)), resume));
    var s1 := Next(s, resume);
    Hop(s1, Goes(User(0), 0), s1.pcs, {}, Step(View(s1, User(0)), Goes(User(0), 0)));
    var s2 := Next(s1, Goes(User(0), 0));
    ResumeIsHeard(View(s2, Loop(0)));
    Hop(s2, Says(0, Resumed), s2.pcs, {}, Step(View(s2, Loop(0)), Says(0, Resumed)));
    SamePcs(s2.pcs, Loop(0), Consuming(0));
    SamePc(LISTENING, User(0), ResumeCall(0), ResumeApply(0));
  }

  lemma ResumeAsks(l: Local)
    requires l.core == PAUSED && l.trs == [NATIVE] && l.pc.Idle? && l.installed.None?
    ensures var l' := Step(l, Move(User(0), Call(Resume), 0));
      && l'.core == PAUSED && l'.trs == l.trs && l'.pc == ResumeCall(0) && l'.installed.None?
      && l'.hist.overwritten == l.hist.overwritten
  {
  }

  lemma ResumeIsHeard(l: Local)
    requires l.core == PAUSED && l.pc == Consuming(0) && l.installed.None?
    ensures var l' := Step(l, Says(0, Resumed));
      && l'.core == PLAYING && l'.trs == l.trs && l'.pc == Consuming(0) && l'.installed.None?
      && l'.hist.overwritten == l.hist.overwritten
  {
  }

  function NativelyPaused(): seq<Move> {
    NativeStart() + ([Says(0, PlayingEvent), Goes(Loop(0), 0)] + NativePause())
  }

  lemma AfterNativelyPaused()
    ensures Scene(Run(Init(SONG, 0), NativelyPaused()), PAUSED, [NATIVE], LISTENING, {})
  {
    var s0, play := Init(SONG, 0), [Says(0, PlayingEvent), Goes(Loop(0), 0)];
    AfterNativeStart();
    var s := Run(s0, NativeStart());
    RunAppends(s0, NativeStart(), play + NativePause());
    RunAppends(s, play, NativePause());
    AfterPlays(s);
    AfterNativePause(Run(s, play));
  }

  lemma ResumeIsForward(now: int)
    requires now >= 0
    ensures Forward(NativelyPaused() + NativeResume() + [Goes(User(0), now)], 0)
  {
    AtOnce(NativelyPaused() + NativeResume(), 0);
    ThenLater(NativelyPaused() + NativeResume(), Goes(User(0), now), 0);
  }

  /** Resume on a receiver that has already reported it: whatever time the call takes to come back is
      played and shown, and then forgotten. */
  lemma ResumeForgetsTheInterval(now: int)
    requires now >= 0
    ensures Forward(NativelyPaused() + NativeResume() + [Goes(User(0), now)], 0)
    ensures var s, m := Run(Init(SONG, 0), NativelyPaused() + NativeResume()), Goes(User(0), now);
      && Forgotten(View(s, User(0)), m) == now
      && Position(s.core, now) == now && Position(Next(s, m).core, now) == 0
  {
    AfterNativelyPaused();
    RunAppends(Init(SONG, 0), NativelyPaused(), NativeResume());
    AfterNativeResume(Run(Init(SONG, 0), NativelyPaused()));
    ForgetsOnResume(Run(Init(SONG, 0), NativelyPaused() + NativeResume()), now);
    ResumeIsForward(now);
  }

  lemma ForgetsOnResume(s: State, now: int)
    requires Scene(s, PLAYING, [NATIVE], LISTENING[User(0) := ResumeApply(0)], {})
    ensures var m := Goes(User(0), now);
      && Forgotten(View(s, User(0)), m) == now
      && Position(s.core, now) == now && Position(Next(s, m).core, now) == 0
  {
    var l' := Step(View(s, User(0)), Goes(User(0), now));
    assert l'.core == s.core.(resumedAt := Some(now));
  }
}
