/**
 The playback clock of a cast session: the position a client sees is within the track, does not
 jump when playback pauses, never outruns the wall clock, and loses under a second to each
 AirPlay pause.
 */
module CastSessionClock {
  import opened Wrappers
  import opened CastSession
  import opened CastSessionRuns

  // ---- The position is within the track ----------------------------------------------------

  predicate CoreTime(c: Core, now: int) {
    c.track.startAt >= 0 && c.playedBase >= 0 && (c.resumedAt.Some? ==> c.resumedAt.value <= now)
  }

  predicate PcTime(pc: Pc) {
    && (pc.Check? || pc.Launch? || pc.Fresh? || pc.SeekCall? || pc.SeekApply? || pc.Reset? ==> pc.track.startAt >= 0)
    && (pc.StopOld? ==> !pc.after.StopOld? && PcTime(pc.after))
  }

  predicate LocalTime(l: Local, now: int) {
    CoreTime(l.core, now) && PcTime(l.pc)
  }

  // A caller starts tracks at or after their beginning.
  predicate Sensible(a: Action) {
    a.Call? && a.command.PlayTrack? ==> a.command.track.startAt >= 0
  }

  lemma OrderTime(l: Local, command: Command, clock: int, now: int)
    requires LocalTime(l, clock) && clock <= now && Sensible(Call(command))
    ensures LocalTime(Order(l, command, now), now)
  {
  }

  lemma ConsumeTime(l: Local, tr: Tr, kind: EventKind, clock: int, now: int)
    requires LocalTime(l, clock) && clock <= now
    ensures LocalTime(Consume(l, tr, kind, now), now)
  {
  }

  lemma ProceedTime(l: Local, ok: bool, native: bool, clock: int, now: int)
    requires LocalTime(l, clock) && clock <= now
    ensures LocalTime(Proceed(l, ok, native, now), now)
  {
  }

  lemma StepTime(l: Local, m: Move, clock: int)
    requires LocalTime(l, clock) && clock <= m.now && Sensible(m.action)
    ensures LocalTime(Step(l, m), m.now)
  {
    match m.action
    case Call(command) => if l.pc.Idle? && m.who.User? { OrderTime(l, command, clock, m.now); }
    case Event(kind) => if l.pc.Consuming? { ConsumeTime(l, l.pc.tr, kind, clock, m.now); }
    case Drained =>
    case Go(ok, native) => ProceedTime(l, ok, native, clock, m.now);
  }

  ghost predicate TimeInv(s: State) {
    CoreTime(s.core, s.clock) && forall who <- s.pcs :: PcTime(s.pcs[who])
  }

  ghost predicate AllSensible(moves: seq<Move>) {
    forall m <- moves :: Sensible(m.action)
  }

  lemma NextTime(s: State, m: Move)
    requires TimeInv(s) && s.clock <= m.now && Sensible(m.action)
    ensures TimeInv(Next(s, m))
  {
    if m.who.User? || m.who in s.pcs { StepTime(View(s, m.who), m, s.clock); }
  }

  lemma {:induction false} RunTime(track: Track, start: int, moves: seq<Move>)
    requires track.startAt >= 0 && AllSensible(moves) && Forward(moves, start)
    ensures var s := Run(Init(track, start), moves); TimeInv(s) && s.clock == End(moves, start)
  {
    if moves != [] {
      assert forall m <- moves[..|moves| - 1] :: m in moves;
      RunTime(track, start, moves[..|moves| - 1]);
      NextTime(Run(Init(track, start), moves[..|moves| - 1]), moves[|moves| - 1]);
    }
  }

  /** In every run and at every later time the position is not negative and not past the end. */
  lemma PositionIsInTrack(track: Track, start: int, moves: seq<Move>, now: int)
    requires track.startAt >= 0 && AllSensible(moves) && Forward(moves, start) && End(moves, start) <= now
    ensures var c := Run(Init(track, start), moves).core;
      0 <= Position(c, now) && (c.track.duration > 0 ==> Position(c, now) <= c.track.duration * 1_000_000_000)
  {
    RunTime(track, start, moves);
  }

  // ---- It does not jump --------------------------------------------------------------------

  // The move gives the session another track or another start position.
  predicate Relocates(l: Local, m: Move) {
    || (m.action.Go? && l.pc.Fresh? && !l.core.closed)
    || (m.action.Go? && l.pc.SeekApply? && l.core.transport == Some(l.pc.tr) && !l.core.closed)
    || (m.action.Call? && m.action.command.Seek? && l.pc.Idle? && m.who.User? && l.core.state.Paused? && !Native(l))
  }

  // The running interval that a move forgets: when a failure takes down a session that plays, and when
  // the receiver's own Resumed event has already restarted the clock.
  function Forgotten(l: Local, m: Move): int {
    if m.action.Go? && l.core.state.Playing? && l.core.resumedAt.Some? && !l.core.closed
       && (l.pc.Tail? || (l.pc.ResumeApply? && l.core.transport == Some(l.pc.tr)))
    then m.now - l.core.resumedAt.value else 0
  }

  lemma ProceedDoesNotJump(l: Local, m: Move)
    requires m.action.Go? && !Relocates(l, m)
    ensures var c := Proceed(l, m.action.ok, m.action.native, m.now).core;
      Raw(c, m.now) == Raw(l.core, m.now) - Forgotten(l, m) && c.track == l.core.track
  {
  }

  lemma CallDoesNotJump(l: Local, m: Move)
    requires m.action.Call? && l.pc.Idle? && m.who.User? && !Relocates(l, m)
    ensures var c := Order(l, m.action.command, m.now).core;
      Raw(c, m.now) == Raw(l.core, m.now) && c.track == l.core.track
  {
  }

  /**
   No move but a new start position moves the position, neither forward nor back: folding the
   running interval and changing the state happen at once.  Two moves lose it, and exactly that.
   */
  lemma PositionDoesNotJump(l: Local, m: Move)
    requires !Relocates(l, m)
    ensures var c := Step(l, m).core;
      && Raw(c, m.now) == Raw(l.core, m.now) - Forgotten(l, m)
      && (Forgotten(l, m) == 0 ==> Position(c, m.now) == Position(l.core, m.now))
  {
    match m.action
    case Call(_) => if l.pc.Idle? && m.who.User? { CallDoesNotJump(l, m); }
    case Event(_) =>
    case Drained =>
    case Go(_, _) => ProceedDoesNotJump(l, m);
  }

  // ---- A seek lands where it was aimed -------------------------------------------------------

  // The session once the seek has taken effect, when nothing else interferes: at once, after the
  // receiver has moved, or with a fresh transport.
  function Landed(c: Core, section: Section, spare: Tr, later: int): Core {
    match section.pc
    case SeekCall(tr, track) => EndSeek(section.core, tr, track, later).core
    case StopOld(_, Check(track, _)) => Install(section.core, track, spare, Caller).core
    case Check(track, _) => Install(section.core, track, spare, Caller).core
    case _ => section.core
  }

  /** An open session shows the target of a seek when it takes effect, in each of the three ways: the
      seconds asked for where the track has them, otherwise its start or its last second. */
  lemma SeekLandsOnTarget(c: Core, seconds: int, native: bool, now: int, spare: Tr, later: int)
    requires !c.closed
    ensures var landed := Landed(c, BeginSeek(c, seconds, native, now), spare, later);
      var target := if seconds < 0 then 0 else seconds;
      Position(landed, later) == 1_000_000_000 *
        (if c.track.duration > 0 && target > c.track.duration - 1 then c.track.duration - 1 else target)
  {
  }

  // ---- It does not outrun the wall clock ----------------------------------------------------

  predicate Unmoved(a: Action) {
    a.Call? ==> !a.command.Seek? && !a.command.PlayTrack?
  }

  predicate Behind(pc: Pc, bound: int) {
    && ((pc.Check? || pc.Launch? || pc.Fresh?) ==> 0 <= pc.track.startAt * SECOND <= bound)
    && !pc.SeekCall? && !pc.SeekApply? && !pc.Reset?
    && (pc.StopOld? ==> pc.after.Idle?)
  }

  predicate LocalBehind(l: Local, now: int, bound: int) {
    CoreTime(l.core, now) && Raw(l.core, now) <= bound && Behind(l.pc, bound)
  }

  lemma OrderBehind(l: Local, command: Command, now: int, bound: int)
    requires LocalBehind(l, now, bound) && Unmoved(Call(command))
    ensures LocalBehind(Order(l, command, now), now, bound)
  {
    if command.Resume? {
      var p := Position(l.core, now);
      assert 0 <= p <= bound && WholeSeconds(p) * SECOND <= p;
    }
  }

  lemma ConsumeBehind(l: Local, tr: Tr, kind: EventKind, now: int, bound: int)
    requires LocalBehind(l, now, bound)
    ensures LocalBehind(Consume(l, tr, kind, now), now, bound)
  {
  }

  lemma ProceedBehind(l: Local, ok: bool, native: bool, now: int, bound: int)
    requires LocalBehind(l, now, bound)
    ensures LocalBehind(Proceed(l, ok, native, now), now, bound)
  {
  }

  lemma StepBehind(l: Local, m: Move, bound: int)
    requires LocalBehind(l, m.now, bound) && Unmoved(m.action)
    ensures LocalBehind(Step(l, m), m.now, bound)
  {
    match m.action
    case Call(command) => if l.pc.Idle? && m.who.User? { OrderBehind(l, command, m.now, bound); }
    case Event(kind) => if l.pc.Consuming? { ConsumeBehind(l, l.pc.tr, kind, m.now, bound); }
    case Drained =>
    case Go(ok, native) => ProceedBehind(l, ok, native, m.now, bound);
  }

  ghost predicate AllBehind(s: State, bound: int) {
    && CoreTime(s.core, s.clock) && Raw(s.core, s.clock) <= bound
    && forall who <- s.pcs :: Behind(s.pcs[who], bound)
  }

  lemma NextBehind(s: State, m: Move, bound: int)
    requires AllBehind(s, bound) && s.clock <= m.now && Unmoved(m.action)
    ensures AllBehind(Next(s, m), bound + m.now - s.clock)
  {
    if m.who.User? || m.who in s.pcs { StepBehind(View(s, m.who), m, bound + m.now - s.clock); }
  }

  lemma {:induction false} RunBehind(track: Track, start: int, moves: seq<Move>)
    requires track.startAt >= 0 && Forward(moves, start) && forall m <- moves :: Unmoved(m.action)
    ensures var s := Run(Init(track, start), moves);
      s.clock == End(moves, start) && AllBehind(s, track.startAt * SECOND + End(moves, start) - start)
  {
    if moves != [] {
      assert forall m <- moves[..|moves| - 1] :: m in moves;
      RunBehind(track, start, moves[..|moves| - 1]);
      NextBehind(Run(Init(track, start), moves[..|moves| - 1]), moves[|moves| - 1],
                 track.startAt * SECOND + End(moves[..|moves| - 1], start) - start);
    }
  }

  /** Without Seek and PlayTrack, the position is never further on than the time that has passed. */
  lemma NeverFasterThanWallTime(track: Track, start: int, moves: seq<Move>, now: int)
    requires track.startAt >= 0 && Forward(moves, start) && End(moves, start) <= now
    requires forall m <- moves :: Unmoved(m.action)
    ensures Position(Run(Init(track, start), moves).core, now) <= track.startAt * 1_000_000_000 + now - start
  {
    RunBehind(track, start, moves);
  }

  // ---- What AirPlay pauses lose ---------------------------------------------------------------

  // One AirPlay pause: Pause, Resume, the fresh transport and its Playing event.
  datatype Break = Break(pause: int, resume: int, tr: Tr, play: int)

  ghost predicate Airing(c: Core) {
    c.state.Playing? && c.transport.Some? && !c.closed && c.track.startAt >= 0 && c.playedBase >= 0 && c.resumedAt.Some?
  }

  // The session after the pause, when nothing else interferes.
  function Interrupted(c: Core, at: Break): Core
    requires c.state.Playing? && c.transport.Some? && !c.closed
  {
    var resuming := BeginResume(BeginPause(c, false, at.pause).core, false, at.resume);
    HandlePlaying(Install(resuming.core, resuming.pc.track, at.tr, Caller).core, at.tr, at.play).core
  }

  // The time heard from `from` until the last of the breaks.
  function Heard(from: int, breaks: seq<Break>): int
    decreases |breaks|
  {
    if breaks == [] then 0 else breaks[0].pause - from + Heard(breaks[0].play, breaks[1..])
  }

  ghost predicate InOrder(from: int, breaks: seq<Break>)
    decreases |breaks|
  {
    breaks != [] ==>
      from <= breaks[0].pause <= breaks[0].resume <= breaks[0].play && InOrder(breaks[0].play, breaks[1..])
  }

  function Cycles(c: Core, breaks: seq<Break>): Core
    requires c.state.Playing? && c.transport.Some? && !c.closed
    decreases |breaks|
  {
    if breaks == [] then c else Cycles(Interrupted(c, breaks[0]), breaks[1..])
  }

  function LastPlay(from: int, breaks: seq<Break>): int {
    if breaks == [] then from else breaks[|breaks| - 1].play
  }

  function Capped(track: Track, pos: int): int {
    if track.duration > 0 && pos > track.duration * SECOND then track.duration * SECOND else pos
  }

  lemma OneBreak(c: Core, from: int, at: Break)
    requires Airing(c) && c.resumedAt.value <= from <= at.pause <= at.resume <= at.play
    ensures var c' := Interrupted(c, at);
      && Airing(c') && c'.resumedAt == Some(at.play) && c'.track.duration == c.track.duration
      && var heard := Capped(c.track, Position(c, from) + at.pause - from);
         heard - (SECOND - 1) <= Position(c', at.play) <= heard
  {
    var p := Position(c, at.pause);
    assert p == Capped(c.track, Position(c, from) + at.pause - from);
    assert SECOND * (p / SECOND) <= p <= SECOND * (p / SECOND) + SECOND - 1;
  }

  /**
   Any number n of AirPlay pauses and resumes, one after another, lose less than n seconds: each
   restart begins at a whole second.
   */
  lemma {:induction false} PausesLoseUnderASecondEach(c: Core, from: int, breaks: seq<Break>)
    requires Airing(c) && c.resumedAt.value <= from && InOrder(from, breaks)
    ensures Airing(Cycles(c, breaks)) && Cycles(c, breaks).track.duration == c.track.duration
    ensures var pos := Position(Cycles(c, breaks), LastPlay(from, breaks));
      var heard := Capped(c.track, Position(c, from) + Heard(from, breaks));
      heard - |breaks| * (1_000_000_000 - 1) <= pos <= heard
    decreases |breaks|
  {
    if breaks != [] {
      OneBreak(c, from, breaks[0]);
      PausesLoseUnderASecondEach(Interrupted(c, breaks[0]), breaks[0].play, breaks[1..]);
      HeardIsForward(breaks[0].play, breaks[1..]);
    }
  }

  lemma {:induction false} HeardIsForward(from: int, breaks: seq<Break>)
    requires InOrder(from, breaks)
    ensures Heard(from, breaks) >= 0
    decreases |breaks|
  {
    if breaks != [] { HeardIsForward(breaks[0].play, breaks[1..]); }
  }
}
