/**
 What each command does when nothing else happens meanwhile, from its call to its return.
 */
module CastSessionCommands {
  import opened Wrappers
  import opened CastSession
  import opened CastSessionRuns

  // The goroutine's next section or transport call, which succeeds.
  function On(s: State, who: Who, native: bool, now: int): State {
    Next(s, Move(who, Go(true, native), now))
  }

  function Called(s: State, who: Who, command: Command, now: int): State {
    Next(s, Move(who, Call(command), now))
  }

  // ---- A start ---------------------------------------------------------------------------

  // The installed transport is one that was started before.
  predicate KnownTransport(s: State) {
    s.core.transport.Some? ==> s.core.transport.value < |s.trs|
  }

  /** spawnTransport on an open session: a new transport runs and is installed at the start of the track, its
      loop listens, and the caller returns. */
  lemma StartAlone(s: State, who: Who, track: Track, origin: Origin, native: bool, now: int)
    requires who in s.pcs && s.pcs[who] == Check(track, origin) && !s.core.closed && KnownTransport(s)
    requires who != Loop(|s.trs|)
    ensures var t := On(On(On(s, who, native, now), who, native, now), who, native, now);
      && t.core == s.core.(transport := Some(|s.trs|), track := track, state := Starting, playedBase := 0,
                           resumedAt := None)
      && t.trs == s.trs + [Transport(native, Running)]
      && t.pcs == s.pcs[who := Idle][Loop(|s.trs|) := Consuming(|s.trs|)]
  {
    var s1 := On(s, who, native, now);
    Checks(s, who, track, origin, native, now);
    var s2 := On(s1, who, native, now);
    Launches(s1, who, track, origin, native, now);
    Installs(s2, who, track, origin, native, now);
    assert s.pcs[who := Launch(track, origin)][who := Fresh(track, |s.trs|, origin)][who := Idle] == s.pcs[who := Idle];
  }

  lemma Checks(s: State, who: Who, track: Track, origin: Origin, native: bool, now: int)
    requires who in s.pcs && s.pcs[who] == Check(track, origin) && !s.core.closed
    ensures var t := On(s, who, native, now);
      t.core == s.core && t.trs == s.trs && t.pcs == s.pcs[who := Launch(track, origin)]
  {
  }

  lemma Launches(s: State, who: Who, track: Track, origin: Origin, native: bool, now: int)
    requires who in s.pcs && s.pcs[who] == Launch(track, origin)
    ensures var t := On(s, who, native, now);
      && t.core == s.core && t.trs == s.trs + [Transport(native, Running)]
      && t.pcs == s.pcs[who := Fresh(track, |s.trs|, origin)]
  {
  }

  lemma Installs(s: State, who: Who, track: Track, origin: Origin, native: bool, now: int)
    requires |s.trs| > 0 && who in s.pcs && s.pcs[who] == Fresh(track, |s.trs| - 1, origin) && !s.core.closed
    ensures var t, tr := On(s, who, native, now), |s.trs| - 1;
      && t.core == s.core.(transport := Some(tr), track := track, state := Starting, playedBase := 0, resumedAt := None)
      && t.trs == s.trs && t.pcs == s.pcs[who := Idle][Loop(tr) := Consuming(tr)]
  {
  }

  /** In a closed session the same call starts nothing, and a transport that was started meanwhile is stopped. */
  lemma ClosedStartsNothing(s: State, who: Who, track: Track, native: bool, now: int)
    requires who in s.pcs && s.core.closed
    ensures s.pcs[who] == Check(track, Caller) ==>
      var t := On(s, who, native, now); t.core == s.core && t.trs == s.trs && t.pcs == s.pcs[who := Idle]
    ensures forall tr: Tr :: s.pcs[who] == Fresh(track, tr, Caller) && tr < |s.trs| ==>
      var t := On(On(s, who, native, now), who, native, now);
      t.core == s.core && !IsRunning(t.trs, tr) && PcOf(t, who).Idle?
  {
  }

  // ---- Commands on a receiver with native control ------------------------------------------------

  predicate IsNative(s: State, tr: Tr) {
    tr < |s.trs| && s.trs[tr].native
  }

  // Three moves: the call, the receiver's answer at once, and the second locked section.
  function Asked(s: State, who: Who, command: Command, now: int): State {
    On(On(Called(s, who, command, now), who, false, now), who, false, now)
  }

  predicate Free(s: State, who: Who) {
    who.User? && PcOf(s, who).Idle? && !s.core.closed
  }

  /** Pause asks the receiver and freezes the position where it is. */
  lemma NativePauseAlone(s: State, who: Who, tr: Tr, now: int)
    requires Free(s, who) && s.core.state.Playing? && s.core.transport == Some(tr) && IsNative(s, tr)
    ensures var t := Asked(s, who, Pause, now);
      && t.core == Accumulate(s.core, now).(state := Paused) && t.trs == s.trs && PcOf(t, who).Idle?
      && Position(t.core, now) == Position(s.core, now)
  {
    var s1 := Called(s, who, Pause, now);
    assert s1.core == s.core && s1.trs == s.trs && s1.pcs == s.pcs[who := PauseCall(tr)];
    var s2 := On(s1, who, false, now);
    assert s2.core == s.core && s2.trs == s.trs && PcOf(s2, who) == PauseApply(tr);
  }

  /** Resume asks the receiver and lets the clock run again. */
  lemma NativeResumeAlone(s: State, who: Who, tr: Tr, now: int)
    requires Free(s, who) && s.core.state.Paused? && s.core.transport == Some(tr) && IsNative(s, tr)
    ensures var t := Asked(s, who, Resume, now);
      t.core == s.core.(state := Playing, resumedAt := Some(now)) && t.trs == s.trs && PcOf(t, who).Idle?
  {
    var s1 := Called(s, who, Resume, now);
    assert s1.core == s.core && s1.trs == s.trs && s1.pcs == s.pcs[who := ResumeCall(tr)];
    var s2 := On(s1, who, false, now);
    assert s2.core == s.core && s2.trs == s.trs && PcOf(s2, who) == ResumeApply(tr);
  }

  // The second asked for, within the track.
  function Aimed(track: Track, seconds: int): Track {
    track.(startAt :=
      if track.duration > 0 && seconds >= track.duration then track.duration - 1
      else if seconds < 0 then 0 else seconds)
  }

  /** Seek asks the receiver, keeps the transport and stands on the target. */
  lemma NativeSeekAlone(s: State, who: Who, tr: Tr, seconds: int, now: int)
    requires Free(s, who) && s.core.transport == Some(tr) && IsNative(s, tr)
    ensures var t := Asked(s, who, Seek(seconds), now);
      && t.core.transport == Some(tr) && t.core.state == s.core.state && t.trs == s.trs && PcOf(t, who).Idle?
      && t.core.track == Aimed(s.core.track, seconds)
      && Raw(t.core, now) == Aimed(s.core.track, seconds).startAt * 1_000_000_000
  {
    var aimed := Aimed(s.core.track, seconds);
    var s1 := Called(s, who, Seek(seconds), now);
    assert s1.core == s.core && s1.trs == s.trs && s1.pcs == s.pcs[who := SeekCall(tr, aimed)];
    var s2 := On(s1, who, false, now);
    assert s2.core == s.core && s2.trs == s.trs && PcOf(s2, who) == SeekApply(tr, aimed);
  }

  // ---- Commands that replace the transport -------------------------------------------------------

  /** Pause without native control freezes the position and stops the transport. */
  lemma PauseAlone(s: State, who: Who, tr: Tr, native: bool, now: int)
    requires Free(s, who) && s.core.state.Playing? && s.core.transport == Some(tr) && tr < |s.trs| && !IsNative(s, tr)
    ensures var t := On(Called(s, who, Pause, now), who, native, now);
      && t.core == Accumulate(s.core, now).(state := Paused, transport := None) && !IsRunning(t.trs, tr)
      && Position(t.core, now) == Position(s.core, now) && PcOf(t, who).Idle?
  {
    var s1 := Called(s, who, Pause, now);
    assert s1.trs == s.trs && s1.pcs == s.pcs[who := StopOld(tr, Idle)];
  }

  /** Resume after it sets out to start the same track at the whole second of the position. */
  lemma ResumeAlone(s: State, who: Who, now: int)
    requires Free(s, who) && s.core.state.Paused? && s.core.transport.None? && Position(s.core, now) >= 0
    ensures var t := Called(s, who, Resume, now);
      && t.core == s.core.(retried := false) && t.trs == s.trs
      && t.pcs == s.pcs[who := Check(s.core.track.(startAt := Position(s.core, now) / 1_000_000_000), Caller)]
  {
  }

  /** Seek without native control stops the transport and sets out to start the track at the target; in a
      paused session it moves the frozen position at once. */
  lemma SeekAlone(s: State, who: Who, tr: Tr, seconds: int, native: bool, now: int)
    requires Free(s, who) && tr < |s.trs| && !IsNative(s, tr)
    requires s.core.transport == Some(tr) || (s.core.transport.None? && s.core.state.Paused?)
    ensures s.core.state.Paused? ==>
      var t := Called(s, who, Seek(seconds), now);
      && t.core.state.Paused? && t.core.transport == s.core.transport && t.trs == s.trs && PcOf(t, who).Idle?
      && Position(t.core, now) == Aimed(s.core.track, seconds).startAt * 1_000_000_000
    ensures !s.core.state.Paused? ==>
      var t := On(Called(s, who, Seek(seconds), now), who, native, now);
      && t.core.transport == Some(tr) && !t.core.closed && !IsRunning(t.trs, tr) && |t.trs| == |s.trs|
      && t.pcs == s.pcs[who := Check(Aimed(s.core.track, seconds), Caller)]
  {
    if !s.core.state.Paused? {
      var s1 := Called(s, who, Seek(seconds), now);
      assert s1.trs == s.trs && s1.pcs == s.pcs[who := StopOld(tr, Check(Aimed(s.core.track, seconds), Caller))];
    }
  }

  /** PlayTrack stops the transport, allows another retry and another report, and sets out to start the next
      track. */
  lemma PlayTrackAlone(s: State, who: Who, tr: Tr, next: Track, native: bool, now: int)
    requires Free(s, who) && tr < |s.trs| && s.core.transport == Some(tr)
    ensures var t := On(On(Called(s, who, PlayTrack(next), now), who, native, now), who, native, now);
      && t.core.transport == Some(tr) && !t.core.closed && !t.core.retried && !t.core.playbackStarted
      && !IsRunning(t.trs, tr) && |t.trs| == |s.trs| && t.pcs == s.pcs[who := Check(next, Caller)]
  {
    var s1 := Called(s, who, PlayTrack(next), now);
    assert s1.trs == s.trs && s1.pcs == s.pcs[who := StopOld(tr, Reset(next))];
    var s2 := On(s1, who, native, now);
    assert s2.core == s1.core && s2.pcs == s.pcs[who := Reset(next)];
  }

  /** Stop closes the session and stops its transport. */
  lemma StopAlone(s: State, who: Who, tr: Tr, native: bool, now: int)
    requires Free(s, who) && tr < |s.trs| && s.core.transport == Some(tr)
    ensures var t := On(Called(s, who, Stop, now), who, native, now);
      && t.core.closed && t.core.state.Stopped? && !IsRunning(t.trs, tr) && PcOf(t, who).Idle?
      && Position(t.core, now) == Position(s.core, now)
  {
    var s1 := Called(s, who, Stop, now);
    assert s1.trs == s.trs && s1.pcs == s.pcs[who := StopLast(Some(tr))];
  }

  // ---- Failures ----------------------------------------------------------------------------------

  function Hears(s: State, tr: Tr, kind: EventKind, now: int): State {
    Next(s, Move(Loop(tr), Event(kind), now))
  }

  /** The first failure before playback is retried once, with the same track; any other fails the session. */
  lemma FailureAlone(s: State, tr: Tr, native: bool, now: int)
    requires !s.core.closed && s.core.transport == Some(tr) && tr < |s.trs| && PcOf(s, Loop(tr)) == Consuming(tr)
    ensures var t := Hears(s, tr, FailedEvent, now);
      && t.core == s.core.(retried := true) && !IsRunning(t.trs, tr)
      && if !s.core.retried && s.core.playedBase == 0 && s.core.state.Starting?
         then t.pcs == s.pcs[Loop(tr) := Check(s.core.track, Retry)]
         else
           var u := On(t, Loop(tr), native, now);
           u.core == s.core.(retried := true, state := Failed) && u.trs == t.trs && PcOf(u, Loop(tr)).Idle?
  {
    assert Loop(tr) in s.pcs;
    var t := Hears(s, tr, FailedEvent, now);
    if s.core.retried || s.core.playedBase != 0 || !s.core.state.Starting? {
      assert t.pcs == s.pcs[Loop(tr) := Tail];
    }
  }

  /** A start that the receiver refuses: the caller is told, and a retry fails the session. */
  lemma RefusedStart(s: State, who: Who, track: Track, origin: Origin, native: bool, now: int)
    requires who in s.pcs && s.pcs[who] == Launch(track, origin)
    ensures var t := Next(s, Move(who, Go(false, native), now));
      t.core == s.core && t.trs == s.trs && t.pcs == s.pcs[who := if origin.Retry? then Tail else Idle]
  {
  }

  /** The first report of playback: the clock runs, and one now-playing report of an audio track is sent. */
  lemma PlaysAlone(s: State, tr: Tr, native: bool, now: int)
    requires s.core.transport == Some(tr) && PcOf(s, Loop(tr)) == Consuming(tr)
    requires s.core.state.Starting? && !s.core.track.video && !s.core.playbackStarted
    ensures var t := On(Hears(s, tr, PlayingEvent, now), Loop(tr), native, now);
      && t.core == s.core.(state := Playing, resumedAt := Some(now), playbackStarted := true)
      && t.trs == s.trs && PcOf(t, Loop(tr)) == Consuming(tr) && t.hist.reports == s.hist.reports + 1
  {
    assert Loop(tr) in s.pcs;
    var s1 := Hears(s, tr, PlayingEvent, now);
    assert s1.trs == s.trs && PcOf(s1, Loop(tr)) == Reporting(tr);
  }
}
