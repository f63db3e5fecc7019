/**
 Two things a cast session does not keep, each with a run that shows it.
 */
module CastSessionTraps {
  import opened Wrappers
  import opened CastSession
  import opened CastSessionRuns

  function Goes(who: Who, now: int): Move {
    Move(who, Go(true, false), now)
  }

  // Moves a, then b, then c.
  lemma Three(s: State, a: Move, b: Move, c: Move)
    ensures Run(s, [a, b, c]) == Next(Next(Next(s, a), b), c)
  {
    assert [a, b, c][..2] == [a, b] && [a, b][..1] == [a] && [a][..0] == [];
    assert Run(s, [a]) == Next(s, a) && Run(s, [a, b]) == Next(Run(s, [a]), b);
  }

  lemma {:induction false} RunAppends(s: State, a: seq<Move>, b: seq<Move>)
    ensures Run(s, a + b) == Run(Run(s, a), b)
    decreases |b|
  {
    if b == [] {
      assert a + b == a;
    } else {
      assert (a + b)[..|a + b| - 1] == a + b[..|b| - 1];
      RunAppends(s, a, b[..|b| - 1]);
    }
  }

  const SONG := Track(0, 0, false, 0)
  const OTHER := Track(0, 0, false, 1)

  const FRESH := Core(Starting, SONG, None, 0, None, false, false, false)

  // The first transport starts while another request switches the track: both are about to be installed.
  function BothStarted(): seq<Move> {
    [Goes(User(0), 0), Goes(User(0), 0), Move(User(1), Call(PlayTrack(OTHER)), 0)]
    + [Goes(User(1), 0), Goes(User(1), 0), Goes(User(1), 0)]
  }

  lemma AfterBothStarted()
    ensures var s := Run(Init(SONG, 0), BothStarted());
      && s.core == FRESH && s.trs == [Transport(false, Running), Transport(false, Running)]
      && s.pcs == map[User(0) := Fresh(SONG, 0, Caller), User(1) := Fresh(OTHER, 1, Caller)]
      && s.hist.overwritten == {}
  {
    var s0 := Init(SONG, 0);
    Three(s0, Goes(User(0), 0), Goes(User(0), 0), Move(User(1), Call(PlayTrack(OTHER)), 0));
    var s1 := Next(s0, Goes(User(0), 0));
    assert s1.core == FRESH && s1.pcs == map[User(0) := Launch(SONG, Caller)];
    var s2 := Next(s1, Goes(User(0), 0));
    assert s2.core == FRESH && s2.trs == [Transport(false, Running)] &&
      s2.pcs == map[User(0) := Fresh(SONG, 0, Caller)];
    var s3 := Next(s2, Move(User(1), Call(PlayTrack(OTHER)), 0));
    assert s3.core == FRESH && s3.pcs == map[User(0) := Fresh(SONG, 0, Caller), User(1) := Reset(OTHER)];
    RunAppends(s0, [Goes(User(0), 0), Goes(User(0), 0), Move(User(1), Call(PlayTrack(OTHER)), 0)],
               [Goes(User(1), 0), Goes(User(1), 0), Goes(User(1), 0)]);
    Three(s3, Goes(User(1), 0), Goes(User(1), 0), Goes(User(1), 0));
    AfterReset(s3);
  }

  lemma AfterReset(s3: State)
    requires s3.core == FRESH && s3.trs == [Transport(false, Running)] && s3.hist.overwritten == {}
    requires s3.pcs == map[User(0) := Fresh(SONG, 0, Caller), User(1) := Reset(OTHER)]
    ensures var s := Next(Next(Next(s3, Goes(User(1), 0)), Goes(User(1), 0)), Goes(User(1), 0));
      && s.core == FRESH && s.trs == [Transport(false, Running), Transport(false, Running)]
      && s.pcs == map[User(0) := Fresh(SONG, 0, Caller), User(1) := Fresh(OTHER, 1, Caller)]
      && s.hist.overwritten == {}
  {
    var s4 := Next(s3, Goes(User(1), 0));
    assert s4.core == FRESH && s4.pcs == map[User(0) := Fresh(SONG, 0, Caller), User(1) := Check(OTHER, Caller)];
    var s5 := Next(s4, Goes(User(1), 0));
    assert s5.pcs == map[User(0) := Fresh(SONG, 0, Caller), User(1) := Launch(OTHER, Caller)];
  }

  // Both install, and a third request stops the session.
  function BothInstalled(): seq<Move> {
    [Goes(User(0), 0), Goes(User(1), 0), Move(User(2), Call(Stop), 0)] + [Goes(User(2), 0)]
  }

  /**
   Overlapping starts leave a transport running after Stop: the second install overwrites the first
   one's transport without stopping it, and Stop knows only the second.
   */
  lemma OverlappingStartsOutliveStop()
    ensures var s := Run(Init(SONG, 0), BothStarted() + BothInstalled());
      && s.core.closed && (forall who <- s.pcs :: s.pcs[who].Idle? || s.pcs[who].Consuming?)
      && IsRunning(s.trs, 0) && s.hist.overwritten == {0}
  {
    AfterBothStarted();
    RunAppends(Init(SONG, 0), BothStarted(), BothInstalled());
    AfterBothInstalled(Run(Init(SONG, 0), BothStarted()));
  }

  lemma AfterBothInstalled(s0: State)
    requires s0.core == FRESH && s0.trs == [Transport(false, Running), Transport(false, Running)]
    requires s0.pcs == map[User(0) := Fresh(SONG, 0, Caller), User(1) := Fresh(OTHER, 1, Caller)]
    requires s0.hist.overwritten == {}
    ensures var s := Run(s0, BothInstalled());
      && s.core.closed && (forall who <- s.pcs :: s.pcs[who].Idle? || s.pcs[who].Consuming?)
      && IsRunning(s.trs, 0) && s.hist.overwritten == {0}
  {
    var stop := Move(User(2), Call(Stop), 0);
    RunAppends(s0, [Goes(User(0), 0), Goes(User(1), 0), stop], [Goes(User(2), 0)]);
    Three(s0, Goes(User(0), 0), Goes(User(1), 0), stop);
    var s1 := Next(s0, Goes(User(0), 0));
    FirstInstall(s0);
    var s2 := Next(s1, Goes(User(1), 0));
    SecondInstall(s1);
    var s3 := Next(s2, stop);
    OneMove(s3, Goes(User(2), 0));
    ThenStop(s2);
  }

  lemma FirstInstall(s: State)
    requires s.core == FRESH && s.trs == [Transport(false, Running), Transport(false, Running)]
    requires s.pcs == map[User(0) := Fresh(SONG, 0, Caller), User(1) := Fresh(OTHER, 1, Caller)]
    ensures var t := Next(s, Goes(User(0), 0));
      && t.core == FRESH.(transport := Some(0)) && t.trs == s.trs && t.hist.overwritten == s.hist.overwritten
      && t.pcs == map[User(0) := Idle, User(1) := Fresh(OTHER, 1, Caller), Loop(0) := Consuming(0)]
  {
  }

  lemma SecondInstall(s: State)
    requires s.core == FRESH.(transport := Some(0)) && s.trs == [Transport(false, Running), Transport(false, Running)]
    requires s.pcs == map[User(0) := Idle, User(1) := Fresh(OTHER, 1, Caller), Loop(0) := Consuming(0)]
    ensures var t := Next(s, Goes(User(1), 0));
      && t.core == FRESH.(transport := Some(1), track := OTHER) && t.trs == s.trs
      && t.hist.overwritten == s.hist.overwritten + {0}
      && t.pcs == map[User(0) := Idle, User(1) := Idle, Loop(0) := Consuming(0), Loop(1) := Consuming(1)]
  {
  }

  lemma ThenStop(s: State)
    requires s.core == FRESH.(transport := Some(1), track := OTHER) && s.hist.overwritten == {0}
    requires s.trs == [Transport(false, Running), Transport(false, Running)]
    requires s.pcs == map[User(0) := Idle, User(1) := Idle, Loop(0) := Consuming(0), Loop(1) := Consuming(1)]
    ensures var t := Next(Next(s, Move(User(2), Call(Stop), 0)), Goes(User(2), 0));
      && t.core.closed && (forall who <- t.pcs :: t.pcs[who].Idle? || t.pcs[who].Consuming?)
      && IsRunning(t.trs, 0) && t.hist.overwritten == {0}
  {
    var stopping := Next(s, Move(User(2), Call(Stop), 0));
    assert stopping.pcs == s.pcs[User(2) := StopLast(Some(1))] && stopping.trs == s.trs;
  }

  lemma OneMove(s: State, m: Move)
    ensures Run(s, [m]) == Next(s, m)
  {
    assert [m][..0] == [];
  }

  // ---- A failure that arrives late -----------------------------------------------------------

  function Says(tr: Tr, kind: EventKind): Move {
    Move(Loop(tr), Event(kind), 0)
  }

  // The first transport plays and then fails; its event loop is about to record that.
  function FirstFails(): seq<Move> {
    [Goes(User(0), 0), Goes(User(0), 0), Goes(User(0), 0)]
    + [Says(0, PlayingEvent), Goes(Loop(0), 0), Says(0, FailedEvent)]
  }

  const FAILING_SONG := Core(Playing, SONG, Some(0), 0, Some(0), true, true, false)

  lemma AfterFirstFails()
    ensures var s := Run(Init(SONG, 0), FirstFails());
      && s.core == FAILING_SONG && s.trs == [Transport(false, Over)]
      && s.pcs == map[User(0) := Idle, Loop(0) := Tail]
  {
    var s0 := Init(SONG, 0);
    RunAppends(s0, [Goes(User(0), 0), Goes(User(0), 0), Goes(User(0), 0)],
               [Says(0, PlayingEvent), Goes(Loop(0), 0), Says(0, FailedEvent)]);
    Three(s0, Goes(User(0), 0), Goes(User(0), 0), Goes(User(0), 0));
    var s3 := Next(Next(Next(s0, Goes(User(0), 0)), Goes(User(0), 0)), Goes(User(0), 0));
    assert s3.core == FRESH.(transport := Some(0)) && s3.trs == [Transport(false, Running)]
        && s3.pcs == map[User(0) := Idle, Loop(0) := Consuming(0)] by { Starts(s0); }
    Three(s3, Says(0, PlayingEvent), Goes(Loop(0), 0), Says(0, FailedEvent));
    PlaysAndFails(s3);
  }

  lemma Starts(s0: State)
    requires s0 == Init(SONG, 0)
    ensures var s3 := Next(Next(Next(s0, Goes(User(0), 0)), Goes(User(0), 0)), Goes(User(0), 0));
      && s3.core == FRESH.(transport := Some(0)) && s3.trs == [Transport(false, Running)]
      && s3.pcs == map[User(0) := Idle, Loop(0) := Consuming(0)]
  {
    var s1 := Next(s0, Goes(User(0), 0));
    assert s1.pcs == map[User(0) := Launch(SONG, Caller)];
    var s2 := Next(s1, Goes(User(0), 0));
    assert s2.pcs == map[User(0) := Fresh(SONG, 0, Caller)];
  }

  lemma PlaysAndFails(s: State)
    requires s.core == FRESH.(transport := Some(0)) && s.trs == [Transport(false, Running)]
    requires s.pcs == map[User(0) := Idle, Loop(0) := Consuming(0)]
    ensures var t := Next(Next(Next(s, Says(0, PlayingEvent)), Goes(Loop(0), 0)), Says(0, FailedEvent));
      && t.core == FAILING_SONG && t.trs == [Transport(false, Over)]
      && t.pcs == map[User(0) := Idle, Loop(0) := Tail]
  {
    var s1 := Next(s, Says(0, PlayingEvent));
    assert s1.core == FAILING_SONG.(retried := false) && s1.pcs == s.pcs[Loop(0) := Reporting(0)];
    var s2 := Next(s1, Goes(Loop(0), 0));
    assert s2.core == s1.core && s2.pcs == s.pcs;
  }

  // Meanwhile a request switches the track, and the new transport plays.
  function NextPlays(): seq<Move> {
    [Move(User(0), Call(PlayTrack(OTHER)), 0), Goes(User(0), 0), Goes(User(0), 0)]
    + [Goes(User(0), 0), Goes(User(0), 0), Goes(User(0), 0)]
  }

  lemma AfterNextPlays(s: State)
    requires s.core == FAILING_SONG && s.trs == [Transport(false, Over)] &&
      s.pcs == map[User(0) := Idle, Loop(0) := Tail]
    ensures var t := Run(s, NextPlays());
      && t.core == FRESH.(transport := Some(1), track := OTHER) &&
        t.trs == [Transport(false, Over), Transport(false, Running)]
      && t.pcs == map[User(0) := Idle, Loop(0) := Tail, Loop(1) := Consuming(1)]
  {
    var play := Move(User(0), Call(PlayTrack(OTHER)), 0);
    RunAppends(s, [play, Goes(User(0), 0), Goes(User(0), 0)], [Goes(User(0), 0), Goes(User(0), 0), Goes(User(0), 0)]);
    Three(s, play, Goes(User(0), 0), Goes(User(0), 0));
    var s3 := Next(Next(Next(s, play), Goes(User(0), 0)), Goes(User(0), 0));
    assert s3.core == FAILING_SONG.(playedBase := 0, resumedAt := None, retried := false, playbackStarted := false)
        && s3.trs == s.trs && s3.pcs == map[User(0) := Check(OTHER, Caller), Loop(0) := Tail] by { Switches(s); }
    Three(s3, Goes(User(0), 0), Goes(User(0), 0), Goes(User(0), 0));
    Spawns(s3);
  }

  lemma Switches(s: State)
    requires s.core == FAILING_SONG && s.trs == [Transport(false, Over)] &&
      s.pcs == map[User(0) := Idle, Loop(0) := Tail]
    ensures var t := Next(Next(Next(s, Move(User(0), Call(PlayTrack(OTHER)), 0)), Goes(User(0), 0)), Goes(User(0), 0));
      && t.core == FAILING_SONG.(playedBase := 0, resumedAt := None, retried := false, playbackStarted := false)
      && t.trs == s.trs && t.pcs == map[User(0) := Check(OTHER, Caller), Loop(0) := Tail]
  {
    SwitchBegins(s);
    SwitchStops(Next(s, Move(User(0), Call(PlayTrack(OTHER)), 0)));
  }

  lemma SwitchBegins(s: State)
    requires s.core == FAILING_SONG && s.trs == [Transport(false, Over)] &&
      s.pcs == map[User(0) := Idle, Loop(0) := Tail]
    ensures var t := Next(s, Move(User(0), Call(PlayTrack(OTHER)), 0));
      && t.core == FAILING_SONG.(resumedAt := None) && t.trs == s.trs
      && t.pcs == map[User(0) := StopOld(0, Reset(OTHER)), Loop(0) := Tail]
  {
    var l := View(s, User(0));
    SwitchOrder(l);
    assert s.pcs[User(0) := StopOld(0, Reset(OTHER))] == map[User(0) := StopOld(0, Reset(OTHER)), Loop(0) := Tail];
  }

  lemma SwitchOrder(l: Local)
    requires l.core == FAILING_SONG && l.pc.Idle? && l.trs == [Transport(false, Over)] && l.installed.None?
    ensures var l' := Order(l, PlayTrack(OTHER), 0);
      && l'.core == FAILING_SONG.(resumedAt := None) && l'.trs == l.trs
      && l'.pc == StopOld(0, Reset(OTHER)) && l'.installed.None?
  {
  }

  lemma SwitchStops(s: State)
    requires s.core == FAILING_SONG.(resumedAt := None) && s.trs == [Transport(false, Over)]
    requires s.pcs == map[User(0) := StopOld(0, Reset(OTHER)), Loop(0) := Tail]
    ensures var t := Next(Next(s, Goes(User(0), 0)), Goes(User(0), 0));
      && t.core == FAILING_SONG.(resumedAt := None, retried := false, playbackStarted := false)
      && t.trs == s.trs && t.pcs == map[User(0) := Check(OTHER, Caller), Loop(0) := Tail]
  {
    var s2 := Next(s, Goes(User(0), 0));
    assert s2.core == s.core && s2.pcs == s.pcs[User(0) := Reset(OTHER)] && s2.trs == s.trs;
  }

  lemma Spawns(s: State)
    requires s.core == FAILING_SONG.(playedBase := 0, resumedAt := None, retried := false, playbackStarted := false)
    requires s.trs == [Transport(false, Over)] && s.pcs == map[User(0) := Check(OTHER, Caller), Loop(0) := Tail]
    ensures var t := Next(Next(Next(s, Goes(User(0), 0)), Goes(User(0), 0)), Goes(User(0), 0));
      && t.core == FRESH.(transport := Some(1), track := OTHER) &&
        t.trs == [Transport(false, Over), Transport(false, Running)]
      && t.pcs == map[User(0) := Idle, Loop(0) := Tail, Loop(1) := Consuming(1)]
  {
    var s1 := Next(s, Goes(User(0), 0));
    assert s1.pcs == s.pcs[User(0) := Launch(OTHER, Caller)];
    var s2 := Next(s1, Goes(User(0), 0));
    assert s2.pcs == s.pcs[User(0) := Fresh(OTHER, 1, Caller)];
  }

  /**
   The failure of a replaced transport fails the session that plays the next one: the second locked
   section of the failure does not look at which transport is installed.
   */
  lemma LateFailureFailsTheNextTransport()
    ensures var s := Run(Run(Init(SONG, 0), FirstFails()), NextPlays());
      var t := Next(Next(s, Says(1, PlayingEvent)), Goes(Loop(0), 0));
      && t.core.state.Failed? && !t.core.closed && t.core.transport == Some(1) && IsRunning(t.trs, 1)
  {
    AfterFirstFails();
    AfterNextPlays(Run(Init(SONG, 0), FirstFails()));
  }
}
