/**
 Two runs in which a transport is overwritten while it runs: by the retry of a replaced one, and by
 Resume after the receiver paused by itself.
 */
module CastSessionOverwrites {
  import opened Wrappers
  import opened CastSession
  import opened CastSessionRuns
  import opened CastSessionTraps

  const RUNNING := Transport(false, Running)
  const OVER := Transport(false, Over)

  predicate Scene(s: State, core: Core, trs: seq<Transport>, pcs: map<Who, Pc>, overwritten: set<Tr>) {
    s.core == core && s.trs == trs && s.pcs == pcs && s.hist.overwritten == overwritten
  }

  // The goroutine's next three sections or transport calls.
  function GoThrice(who: Who): seq<Move> {
    [Goes(who, 0), Goes(who, 0), Goes(who, 0)]
  }

  // From the check to the install, in an open session whose transport does not run.
  lemma SpawnInstalls(
    s: State, who: Who, core: Core, trs: seq<Transport>, pcs: map<Who, Pc>, track: Track, origin: Origin)
    requires Scene(s, core, trs, pcs[who := Check(track, origin)], {}) && !core.closed && Loop(|trs|) != who
    requires core.transport.Some? ==> core.transport.value < |trs|
    ensures Scene(Run(s, GoThrice(who)),
      core.(transport := Some(|trs|), track := track, state := Starting, playedBase := 0, resumedAt := None),
      trs + [RUNNING], pcs[who := Idle][Loop(|trs|) := Consuming(|trs|)],
      if core.transport.Some? && IsRunning(trs, core.transport.value) then {core.transport.value} else {})
  {
    Three(s, Goes(who, 0), Goes(who, 0), Goes(who, 0));
    var s1 := Next(s, Goes(who, 0));
    assert Scene(s1, core, trs, pcs[who := Launch(track, origin)], {}) by {
      SamePc(pcs, who, Check(track, origin), s1.pcs[who]);
    }
    var s2 := Next(s1, Goes(who, 0));
    assert Scene(s2, core, trs + [RUNNING], pcs[who := Fresh(track, |trs|, origin)], {}) by {
      SamePc(pcs, who, Launch(track, origin), s2.pcs[who]);
    }
    Installs(s2, who, core, trs, pcs, track, origin);
  }

  lemma SamePc(pcs: map<Who, Pc>, who: Who, before: Pc, after: Pc)
    ensures pcs[who := before][who := after] == pcs[who := after]
  {
  }

  lemma Installs(s: State, who: Who, core: Core, trs: seq<Transport>, pcs: map<Who, Pc>, track: Track, origin: Origin)
    requires Scene(s, core, trs + [RUNNING], pcs[who := Fresh(track, |trs|, origin)], {}) && !core.closed
    requires core.transport.Some? ==> core.transport.value != |trs|
    ensures Scene(Next(s, Goes(who, 0)),
      core.(transport := Some(|trs|), track := track, state := Starting, playedBase := 0, resumedAt := None),
      trs + [RUNNING], pcs[who := Idle][Loop(|trs|) := Consuming(|trs|)],
      if core.transport.Some? && IsRunning(trs, core.transport.value) then {core.transport.value} else {})
  {
    SamePc(pcs, who, Fresh(track, |trs|, origin), Idle);
  }

  // ---- Stop afterwards -----------------------------------------------------------------------

  function Stops(): seq<Move> {
    [Move(User(0), Call(Stop), 0), Goes(User(0), 0)]
  }

  ghost predicate Silent(pcs: map<Who, Pc>) {
    forall who <- pcs :: pcs[who].Idle? || pcs[who].Consuming?
  }

  // Stop stops the transport it finds, and no other.
  lemma StopFindsOne(s: State, tr: Tr)
    requires PcOf(s, User(0)).Idle? && !s.core.closed && s.core.transport.Some? && s.core.transport != Some(tr)
    requires IsRunning(s.trs, tr) && Silent(s.pcs)
    ensures var t := Run(s, Stops()); t.core.closed && Silent(t.pcs) && IsRunning(t.trs, tr)
  {
    Two(s, Move(User(0), Call(Stop), 0), Goes(User(0), 0));
    StopBegins(s);
    StopEnds(Next(s, Move(User(0), Call(Stop), 0)), s.pcs, tr);
  }

  lemma StopBegins(s: State)
    requires PcOf(s, User(0)).Idle? && !s.core.closed
    ensures var t := Next(s, Move(User(0), Call(Stop), 0));
      t.core.closed && t.core.transport == s.core.transport && t.trs == s.trs &&
      t.pcs == s.pcs[User(0) := StopLast(s.core.transport)]
  {
  }

  lemma StopEnds(s: State, pcs: map<Who, Pc>, tr: Tr)
    requires s.core.closed && s.core.transport.Some? && s.core.transport != Some(tr)
    requires s.pcs == pcs[User(0) := StopLast(s.core.transport)] && Silent(pcs) && IsRunning(s.trs, tr)
    ensures var t := Next(s, Goes(User(0), 0)); t.core.closed && Silent(t.pcs) && IsRunning(t.trs, tr)
  {
    SamePc(pcs, User(0), StopLast(s.core.transport), Idle);
  }

  lemma Two(s: State, a: Move, b: Move)
    ensures Run(s, [a, b]) == Next(Next(s, a), b)
  {
    assert [a, b][..1] == [a] && [a][..0] == [];
    assert Run(s, [a]) == Next(s, a);
  }

  // ---- A retry that comes late ---------------------------------------------------------------

  const INSTALLED := FRESH.(transport := Some(0))

  lemma FirstStarts()
    ensures Scene(Run(Init(SONG, 0), GoThrice(User(0))), INSTALLED, [RUNNING],
                  map[User(0) := Idle, Loop(0) := Consuming(0)], {})
  {
    SpawnInstalls(Init(SONG, 0), User(0), FRESH, [], map[], SONG, Caller);
  }

  // The first transport fails before it plays, and its loop is about to retry; a request switches the track.
  function FailsEarly(): seq<Move> {
    [Says(0, FailedEvent)]
  }

  function Switch(): seq<Move> {
    [Move(User(0), Call(PlayTrack(OTHER)), 0), Goes(User(0), 0), Goes(User(0), 0)]
  }

  lemma AfterFailsEarly(s: State)
    requires Scene(s, INSTALLED, [RUNNING], map[User(0) := Idle, Loop(0) := Consuming(0)], {})
    ensures Scene(Run(s, FailsEarly()), INSTALLED.(retried := true), [OVER],
                  map[User(0) := Idle, Loop(0) := Check(SONG, Retry)], {})
  {
    OneMove(s, Says(0, FailedEvent));
  }

  lemma AfterSwitch(s: State)
    requires Scene(s, INSTALLED.(retried := true), [OVER], map[User(0) := Idle, Loop(0) := Check(SONG, Retry)], {})
    ensures Scene(Run(s, Switch()), INSTALLED, [OVER],
                  map[User(0) := Check(OTHER, Caller), Loop(0) := Check(SONG, Retry)], {})
  {
    var play := Move(User(0), Call(PlayTrack(OTHER)), 0);
    Three(s, play, Goes(User(0), 0), Goes(User(0), 0));
    var s1 := Next(s, play);
    assert Scene(s1, s.core, s.trs, s.pcs[User(0) := StopOld(0, Reset(OTHER))], {});
    var s2 := Next(s1, Goes(User(0), 0));
    assert Scene(s2, s.core, s.trs, s.pcs[User(0) := Reset(OTHER)], {});
  }

  lemma AfterNewTrack(s: State)
    requires Scene(s, INSTALLED, [OVER], map[User(0) := Check(OTHER, Caller), Loop(0) := Check(SONG, Retry)], {})
    ensures Scene(Run(s, GoThrice(User(0))), INSTALLED.(transport := Some(1), track := OTHER), [OVER, RUNNING],
                  map[User(0) := Idle, Loop(0) := Check(SONG, Retry), Loop(1) := Consuming(1)], {})
  {
    assert s.pcs == s.pcs[User(0) := Check(OTHER, Caller)];
    SpawnInstalls(s, User(0), s.core, s.trs, s.pcs, OTHER, Caller);
    assert [OVER] + [RUNNING] == [OVER, RUNNING];
  }

  lemma AfterRetry(s: State)
    requires Scene(s, INSTALLED.(transport := Some(1), track := OTHER), [OVER, RUNNING],
                   map[User(0) := Idle, Loop(0) := Check(SONG, Retry), Loop(1) := Consuming(1)], {})
    ensures Scene(Run(s, GoThrice(Loop(0))), INSTALLED.(transport := Some(2)), [OVER, RUNNING, RUNNING],
                  map[User(0) := Idle, Loop(0) := Idle, Loop(1) := Consuming(1), Loop(2) := Consuming(2)], {1})
  {
    assert s.pcs == s.pcs[Loop(0) := Check(SONG, Retry)];
    SpawnInstalls(s, Loop(0), s.core, s.trs, s.pcs, SONG, Retry);
    assert [OVER, RUNNING] + [RUNNING] == [OVER, RUNNING, RUNNING];
  }

  function Retrying(): seq<Move> {
    GoThrice(User(0)) + FailsEarly()
  }

  function Switched(): seq<Move> {
    Retrying() + (Switch() + GoThrice(User(0)))
  }

  function LateRetry(): seq<Move> {
    Switched() + GoThrice(Loop(0))
  }

  lemma AfterRetrying()
    ensures Scene(Run(Init(SONG, 0), Retrying()), INSTALLED.(retried := true), [OVER],
                  map[User(0) := Idle, Loop(0) := Check(SONG, Retry)], {})
  {
    FirstStarts();
    RunAppends(Init(SONG, 0), GoThrice(User(0)), FailsEarly());
    AfterFailsEarly(Run(Init(SONG, 0), GoThrice(User(0))));
  }

  lemma AfterSwitched()
    ensures Scene(Run(Init(SONG, 0), Switched()), INSTALLED.(transport := Some(1), track := OTHER), [OVER, RUNNING],
                  map[User(0) := Idle, Loop(0) := Check(SONG, Retry), Loop(1) := Consuming(1)], {})
  {
    AfterRetrying();
    var s := Run(Init(SONG, 0), Retrying());
    RunAppends(Init(SONG, 0), Retrying(), Switch() + GoThrice(User(0)));
    RunAppends(s, Switch(), GoThrice(User(0)));
    AfterSwitch(s);
    AfterNewTrack(Run(s, Switch()));
  }

  lemma AfterLateRetry()
    ensures Scene(Run(Init(SONG, 0), LateRetry()), INSTALLED.(transport := Some(2)), [OVER, RUNNING, RUNNING],
                  map[User(0) := Idle, Loop(0) := Idle, Loop(1) := Consuming(1), Loop(2) := Consuming(2)], {1})
  {
    AfterSwitched();
    RunAppends(Init(SONG, 0), Switched(), GoThrice(Loop(0)));
    AfterRetry(Run(Init(SONG, 0), Switched()));
  }

  /**
   The retry of a replaced transport puts the old track back: its loop saw the failure before the switch,
   and its spawnTransport installs over the new transport, which is not stopped and outlives Stop.
   */
  lemma LateRetryReplacesTheNextTrack()
    ensures var s := Run(Init(SONG, 0), Switched());
      s.core.track == OTHER && s.core.transport == Some(1) && s.hist.overwritten == {}
    ensures var t := Run(Init(SONG, 0), LateRetry());
      t.core.track == SONG && t.core.transport == Some(2) && IsRunning(t.trs, 1) && t.hist.overwritten == {1}
    ensures var u := Run(Init(SONG, 0), LateRetry() + Stops());
      u.core.closed && Silent(u.pcs) && IsRunning(u.trs, 1)
  {
    AfterSwitched();
    AfterLateRetry();
    RunAppends(Init(SONG, 0), LateRetry(), Stops());
    StopFindsOne(Run(Init(SONG, 0), LateRetry()), 1);
  }

  // ---- Resume after the receiver paused by itself ----------------------------------------------

  function ReceiverPauses(): seq<Move> {
    [Says(0, PlayingEvent), Goes(Loop(0), 0), Says(0, PausedEvent)]
  }

  const PLAYING := INSTALLED.(state := Playing, resumedAt := Some(0), playbackStarted := true)

  lemma AfterReceiverPauses(s: State)
    requires Scene(s, INSTALLED, [RUNNING], map[User(0) := Idle, Loop(0) := Consuming(0)], {})
    ensures Scene(Run(s, ReceiverPauses()), INSTALLED.(state := Paused, playbackStarted := true), [RUNNING],
                  map[User(0) := Idle, Loop(0) := Consuming(0)], {})
  {
    Three(s, Says(0, PlayingEvent), Goes(Loop(0), 0), Says(0, PausedEvent));
    ReceiverPlays(s);
    ReceiverReports(Next(s, Says(0, PlayingEvent)));
  }

  lemma ReceiverPlays(s: State)
    requires Scene(s, INSTALLED, [RUNNING], map[User(0) := Idle, Loop(0) := Consuming(0)], {})
    ensures Scene(Next(s, Says(0, PlayingEvent)), PLAYING, [RUNNING],
                  map[User(0) := Idle, Loop(0) := Reporting(0)], {})
  {
    assert s.pcs[Loop(0) := Reporting(0)] == map[User(0) := Idle, Loop(0) := Reporting(0)];
  }

  lemma ReceiverReports(s: State)
    requires Scene(s, PLAYING, [RUNNING], map[User(0) := Idle, Loop(0) := Reporting(0)], {})
    ensures Scene(Next(Next(s, Goes(Loop(0), 0)), Says(0, PausedEvent)),
                  INSTALLED.(state := Paused, playbackStarted := true), [RUNNING],
                  map[User(0) := Idle, Loop(0) := Consuming(0)], {})
  {
    ReportDone(s);
    ThenPauses(Next(s, Goes(Loop(0), 0)));
  }

  lemma ReportDone(s: State)
    requires Scene(s, PLAYING, [RUNNING], map[User(0) := Idle, Loop(0) := Reporting(0)], {})
    ensures Scene(Next(s, Goes(Loop(0), 0)), PLAYING, [RUNNING], map[User(0) := Idle, Loop(0) := Consuming(0)], {})
  {
  }

  lemma ThenPauses(s: State)
    requires Scene(s, PLAYING, [RUNNING], map[User(0) := Idle, Loop(0) := Consuming(0)], {})
    ensures Scene(Next(s, Says(0, PausedEvent)), INSTALLED.(state := Paused, playbackStarted := true), [RUNNING],
                  map[User(0) := Idle, Loop(0) := Consuming(0)], {})
  {
    PausesLocally(View(s, Loop(0)));
    SamePcs(s.pcs, Loop(0), Consuming(0));
  }

  lemma PausesLocally(l: Local)
    requires l.core == PLAYING && l.pc == Consuming(0) && l.installed.None?
    ensures var l' := Consume(l, 0, PausedEvent, 0);
      && l'.core == INSTALLED.(state := Paused, playbackStarted := true) && l'.trs == l.trs
      && l'.pc == Consuming(0) && l'.hist.overwritten == l.hist.overwritten && l'.installed.None?
  {
  }

  lemma SamePcs(pcs: map<Who, Pc>, who: Who, pc: Pc)
    requires who in pcs && pcs[who] == pc
    ensures pcs[who := pc] == pcs
  {
  }

  lemma AfterResume(s: State)
    requires Scene(s, INSTALLED.(state := Paused, playbackStarted := true), [RUNNING],
                   map[User(0) := Idle, Loop(0) := Consuming(0)], {})
    ensures Scene(Run(s, [Move(User(0), Call(Resume), 0)]), s.core, [RUNNING],
                  map[User(0) := Check(SONG, Caller), Loop(0) := Consuming(0)], {})
  {
    OneMove(s, Move(User(0), Call(Resume), 0));
    assert s.core.track.(startAt := WholeSeconds(Position(s.core, 0))) == SONG;
  }

  lemma AfterSecondStart(s: State)
    requires Scene(s, INSTALLED.(state := Paused, playbackStarted := true), [RUNNING],
                   map[User(0) := Check(SONG, Caller), Loop(0) := Consuming(0)], {})
    ensures Scene(Run(s, GoThrice(User(0))), INSTALLED.(transport := Some(1), playbackStarted := true),
      [RUNNING, RUNNING],
                  map[User(0) := Idle, Loop(0) := Consuming(0), Loop(1) := Consuming(1)], {0})
  {
    assert s.pcs == s.pcs[User(0) := Check(SONG, Caller)];
    SpawnInstalls(s, User(0), s.core, s.trs, s.pcs, SONG, Caller);
    assert [RUNNING] + [RUNNING] == [RUNNING, RUNNING];
  }

  function PausedByItself(): seq<Move> {
    GoThrice(User(0)) + ReceiverPauses()
  }

  function ResumeOver(): seq<Move> {
    PausedByItself() + ([Move(User(0), Call(Resume), 0)] + GoThrice(User(0)))
  }

  lemma AfterPausedByItself()
    ensures Scene(Run(Init(SONG, 0), PausedByItself()), INSTALLED.(state := Paused, playbackStarted := true), [RUNNING],
                  map[User(0) := Idle, Loop(0) := Consuming(0)], {})
  {
    FirstStarts();
    RunAppends(Init(SONG, 0), GoThrice(User(0)), ReceiverPauses());
    AfterReceiverPauses(Run(Init(SONG, 0), GoThrice(User(0))));
  }

  lemma AfterResumeOver()
    ensures Scene(Run(Init(SONG, 0), ResumeOver()), INSTALLED.(transport := Some(1), playbackStarted := true),
                  [RUNNING, RUNNING], map[User(0) := Idle, Loop(0) := Consuming(0), Loop(1) := Consuming(1)], {0})
  {
    AfterPausedByItself();
    var s, resume := Run(Init(SONG, 0), PausedByItself()), [Move(User(0), Call(Resume), 0)];
    RunAppends(Init(SONG, 0), PausedByItself(), resume + GoThrice(User(0)));
    RunAppends(s, resume, GoThrice(User(0)));
    AfterResume(s);
    AfterSecondStart(Run(s, resume));
  }

  /**
   A receiver without native control that pauses by itself keeps its transport; Resume starts another one
   over it, although there is one command at a time, and the first outlives Stop.
   */
  lemma ResumeOverThePausedReceiverOutlivesStop()
    ensures var t := Run(Init(SONG, 0), ResumeOver());
      t.core.transport == Some(1) && IsRunning(t.trs, 0) && t.hist.overwritten == {0}
    ensures var u := Run(Init(SONG, 0), ResumeOver() + Stops());
      u.core.closed && Silent(u.pcs) && IsRunning(u.trs, 0)
  {
    AfterResumeOver();
    RunAppends(Init(SONG, 0), ResumeOver(), Stops());
    StopFindsOne(Run(Init(SONG, 0), ResumeOver()), 0);
  }
}
