/**
 One playback session on one receiver: user commands, the event loops of its transports, the
 automatic retry and Stop, all racing for one mutex.

 Every method is split where it releases the mutex or calls a transport.  A locked section is a
 function from the session's fields to its fields and the place where the goroutine goes on.
 A transport is an object with a start outcome, a stop, and an arbitrary stream of events.
 Times are in nanoseconds.
 */
module CastSession {
  import opened Wrappers

  const SECOND := 1_000_000_000

  datatype Status = Starting | Playing | Paused | Stopped | Failed

  // `rest` stands for the fields of the track that the session only hands on.
  datatype Track = Track(startAt: int, duration: int, video: bool, rest: nat)

  // Transports are numbered in the order in which they started.
  type Tr = nat

  // The fields under the mutex.
  datatype Core = Core(
    state: Status, track: Track, transport: Option<Tr>, playedBase: int, resumedAt: Option<int>,
    playbackStarted: bool, retried: bool, closed: bool)

  datatype EventKind = Connected | PlayingEvent | Resumed | PausedEvent | Ended | FailedEvent

  // Who called spawnTransport.
  datatype Origin = Caller | Retry

  // Where a goroutine is.
  datatype Pc =
    | Idle
    // spawnTransport
    | Check(track: Track, origin: Origin)
    | Launch(track: Track, origin: Origin)
    | Fresh(track: Track, tr: Tr, origin: Origin)
    | Discard(tr: Tr, origin: Origin)
    // consume
    | Consuming(tr: Tr)
    | Reporting(tr: Tr)
    | Tail
    // Pause, Resume and Seek on a transport with native control
    | PauseCall(tr: Tr) | PauseApply(tr: Tr)
    | ResumeCall(tr: Tr) | ResumeApply(tr: Tr)
    | SeekCall(tr: Tr, track: Track) | SeekApply(tr: Tr, track: Track)
    // Stop of a replaced transport, then what follows it
    | StopOld(tr: Tr, after: Pc)
    // PlayTrack
    | Reset(track: Track)
    // Stop
    | StopLast(last: Option<Tr>)

  // What a locked section leaves: the fields, and where its goroutine goes on.
  datatype Section = Section(core: Core, pc: Pc)

  // ---- The playback clock --------------------------------------------------------------

  // The track position before it is capped at the duration.
  function Raw(c: Core, now: int): int {
    c.track.startAt * SECOND + c.playedBase
    + if c.state.Playing? && c.resumedAt.Some? then now - c.resumedAt.value else 0
  }

  // positionLocked
  function Position(c: Core, now: int): int {
    if c.track.duration > 0 && Raw(c, now) > c.track.duration * SECOND then c.track.duration * SECOND
    else Raw(c, now)
  }

  // int(d.Seconds())
  function WholeSeconds(d: int): int {
    if d >= 0 then d / SECOND else -(-d / SECOND)
  }

  function Accumulate(c: Core, now: int): Core {
    if c.state.Playing? && c.resumedAt.Some? then
      c.(playedBase := c.playedBase + now - c.resumedAt.value, resumedAt := None)
    else c
  }

  // ---- The locked sections -------------------------------------------------------------

  // Where spawnTransport goes on when it returns an error.
  function Refused(origin: Origin): Pc {
    if origin.Retry? then Tail else Idle
  }

  function CheckOpen(c: Core, track: Track, origin: Origin): Section {
    Section(c, if c.closed then Refused(origin) else Launch(track, origin))
  }

  function Install(c: Core, track: Track, tr: Tr, origin: Origin): Section {
    if c.closed then Section(c, Discard(tr, origin))
    else
      Section(c.(transport := Some(tr), track := track, state := Starting, playedBase := 0, resumedAt := None), Idle)
  }

  function Handle(c: Core, tr: Tr, kind: EventKind, now: int): Section {
    if c.transport != Some(tr) then Section(c, Consuming(tr))
    else
      match kind
      case Connected => Section(c, Consuming(tr))
      case PlayingEvent => HandlePlaying(c, tr, now)
      case Resumed => HandlePlaying(c, tr, now)
      case PausedEvent => Section(Accumulate(c, now).(state := Paused), Consuming(tr))
      case Ended => Section(Accumulate(c, now).(state := Stopped), Idle)
      case FailedEvent =>
        Section(c.(retried := true), if Retries(c) then Check(c.track, Retry) else Tail)
  }

  function HandlePlaying(c: Core, tr: Tr, now: int): Section {
    if c.state.Playing? then Section(c, Consuming(tr))
    else
      var playing := c.(state := Playing, resumedAt := Some(now));
      if !c.track.video && !c.playbackStarted then Section(playing.(playbackStarted := true), Reporting(tr))
      else Section(playing, Consuming(tr))
  }

  predicate Retries(c: Core) {
    !c.retried && c.playedBase == 0 && c.state.Starting? && !c.closed
  }

  function FailTail(c: Core): Section {
    Section(if c.closed then c else c.(state := Failed), Idle)
  }

  // `native` says whether the installed transport has native control.
  function BeginPause(c: Core, native: bool, now: int): Section {
    if !c.state.Playing? || c.transport.None? then Section(c, Idle)
    else if native then Section(c, PauseCall(c.transport.value))
    else
      Section(Accumulate(c, now).(state := Paused, transport := None), StopOld(c.transport.value, Idle))
  }

  function EndPause(c: Core, tr: Tr, now: int): Section {
    Section(if c.transport == Some(tr) && !c.closed then Accumulate(c, now).(state := Paused) else c, Idle)
  }

  function BeginResume(c: Core, native: bool, now: int): Section {
    if !c.state.Paused? then Section(c, Idle)
    else if c.transport.Some? && native then Section(c, ResumeCall(c.transport.value))
    else Section(c.(retried := false), Check(c.track.(startAt := WholeSeconds(Position(c, now))), Caller))
  }

  function EndResume(c: Core, tr: Tr, now: int): Section {
    Section(if c.transport == Some(tr) && !c.closed then c.(state := Playing, resumedAt := Some(now)) else c, Idle)
  }

  function Clamped(track: Track, seconds: int): int {
    var s := if seconds < 0 then 0 else seconds;
    if track.duration > 0 && s >= track.duration then track.duration - 1 else s
  }

  function BeginSeek(c: Core, seconds: int, native: bool, now: int): Section {
    var track := c.track.(startAt := Clamped(c.track, seconds));
    if c.transport.Some? && native then Section(c, SeekCall(c.transport.value, track))
    else
      var kept := Accumulate(c, now).(retried := false);
      if c.state.Paused? then Section(kept.(track := track, playedBase := 0), Idle)
      else if c.transport.Some? then Section(kept, StopOld(c.transport.value, Check(track, Caller)))
      else Section(kept, Check(track, Caller))
  }

  function EndSeek(c: Core, tr: Tr, track: Track, now: int): Section {
    if c.transport == Some(tr) && !c.closed then
      var moved := Accumulate(c, now).(retried := false, track := track, playedBase := 0);
      Section(moved.(resumedAt := if c.state.Playing? then Some(now) else None), Idle)
    else Section(c, Idle)
  }

  function BeginPlayTrack(c: Core, track: Track, now: int): Section {
    Section(Accumulate(c, now),
            if c.transport.Some? then StopOld(c.transport.value, Reset(track)) else Reset(track))
  }

  function EndPlayTrack(c: Core, track: Track): Section {
    Section(c.(retried := false, playbackStarted := false), Check(track, Caller))
  }

  function Stop(c: Core, now: int): Section {
    if c.closed then Section(c, Idle)
    else Section(Accumulate(c, now).(closed := true, state := Stopped), StopLast(c.transport))
  }

  // ---- The class: the same sections, as the source updates its fields ----------------------

  class Session {
    var state: Status
    var track: Track
    var transport: Option<Tr>
    var playedBase: int
    var resumedAt: Option<int>
    var playbackStarted: bool
    var retried: bool
    var closed: bool

    function Fields(): Core
      reads this
    {
      Core(state, track, transport, playedBase, resumedAt, playbackStarted, retried, closed)
    }

    // The clock of the session goes on by itself.
    predicate Running()
      reads this
    {
      state.Playing? && resumedAt.Some?
    }

    constructor (track: Track)
      ensures Fields() == Core(Starting, track, None, 0, None, false, false, false)
    {
      state, this.track, transport, playedBase, resumedAt := Starting, track, None, 0, None;
      playbackStarted, retried, closed := false, false, false;
    }

    method PositionLocked(now: int) returns (pos: int)
      ensures pos == Position(Fields(), now)
      ensures track.duration > 0 ==> pos <= track.duration * 1_000_000_000
      ensures var raw := track.startAt * 1_000_000_000 + playedBase + if Running() then now - resumedAt.value else 0;
        var end := track.duration * 1_000_000_000;
        pos == if track.duration > 0 && raw > end then end else raw
    {
      pos := track.startAt * SECOND + playedBase;
      if state.Playing? && resumedAt.Some? {
        pos := pos + now - resumedAt.value;
      }
      if track.duration > 0 && pos > track.duration * SECOND {
        pos := track.duration * SECOND;
      }
    }

    method AccumulateLocked(now: int)
      modifies this`playedBase, this`resumedAt
      ensures Fields() == Accumulate(old(Fields()), now)
      ensures Position(Fields(), now) == old(Position(Fields(), now)) && !Running()
    {
      if state.Playing? && resumedAt.Some? {
        playedBase := playedBase + now - resumedAt.value;
        resumedAt := None;
      }
    }

    // The first locked section of spawnTransport.
    method CheckOpenLocked(track: Track, origin: Origin) returns (pc: Pc)
      ensures Section(Fields(), pc) == CheckOpen(Fields(), track, origin)
      ensures pc == if !closed then Launch(track, origin) else if origin.Retry? then Tail else Idle
    {
      if closed { return Refused(origin); }
      pc := Launch(track, origin);
    }

    method InstallOrDiscard(tr: Tr, track: Track, origin: Origin) returns (pc: Pc)
      modifies this
      ensures Section(Fields(), pc) == Install(old(Fields()), track, tr, origin)
      ensures old(closed) ==> Fields() == old(Fields()) && pc == Discard(tr, origin)
      ensures !old(closed) ==>
        && pc.Idle? && transport == Some(tr) && this.track == track && state.Starting? && !Running()
        && playbackStarted == old(playbackStarted) && retried == old(retried) && !closed
        && forall now: int :: Raw(Fields(), now) == track.startAt * 1_000_000_000
    {
      if closed {
        return Discard(tr, origin);
      }
      transport := Some(tr);
      this.track := track;
      state := Starting;
      playedBase := 0;
      resumedAt := None;
      pc := Idle;
    }

    method HandleEvent(tr: Tr, kind: EventKind, now: int) returns (pc: Pc)
      modifies this
      ensures Section(Fields(), pc) == Handle(old(Fields()), tr, kind, now)
      ensures transport == old(transport) && Position(Fields(), now) == old(Position(Fields(), now))
      ensures old(transport) != Some(tr) ==> Fields() == old(Fields()) && pc == Consuming(tr)
      ensures old(transport) == Some(tr) ==>
        && track == old(track) && closed == old(closed)
        && (kind.Ended? ==> state.Stopped? && !Running() && pc.Idle?)
        && (kind.PausedEvent? ==> state.Paused? && !Running() && pc == Consuming(tr))
        && (kind.PlayingEvent? || kind.Resumed? ==>
              && state.Playing? && resumedAt == (if old(state).Playing? then old(resumedAt) else Some(now))
              && pc == (if !old(state).Playing? && !track.video && !old(playbackStarted) then Reporting(tr)
                        else Consuming(tr))
              && playbackStarted == (old(playbackStarted) || pc.Reporting?))
        && (kind.Connected? ==> Fields() == old(Fields()) && pc == Consuming(tr))
        && (kind.FailedEvent? ==>
              && Fields() == old(Fields()).(retried := true)
              && pc == (if !old(retried) && playedBase == 0 && state.Starting? && !closed then Check(track, Retry)
                        else Tail))
        && (!kind.FailedEvent? ==> retried == old(retried))
    {
      pc := Consuming(tr);
      if transport != Some(tr) { return; }
      match kind {
        case Connected =>
        case PlayingEvent => pc := PlayingLocked(tr, now);
        case Resumed => pc := PlayingLocked(tr, now);
        case PausedEvent => HaltLocked(Paused, now);
        case Ended =>
          HaltLocked(Stopped, now);
          pc := Idle;
        case FailedEvent => pc := FailedLocked();
      }
    }

    method PlayingLocked(tr: Tr, now: int) returns (pc: Pc)
      modifies this
      ensures Section(Fields(), pc) == HandlePlaying(old(Fields()), tr, now)
      ensures Position(Fields(), now) == old(Position(Fields(), now))
      ensures var starts := !old(state).Playing?;
        && pc == (if starts && !track.video && !old(playbackStarted) then Reporting(tr) else Consuming(tr))
        && Fields() == if starts then old(Fields()).(state := Playing, resumedAt := Some(now),
                                                     playbackStarted := old(playbackStarted) || pc.Reporting?)
                       else old(Fields())
    {
      pc := Consuming(tr);
      if !state.Playing? {
        state := Playing;
        resumedAt := Some(now);
        if !track.video && !playbackStarted {
          playbackStarted := true;
          pc := Reporting(tr);
        }
      }
    }

    // The clock stops, and the session is in the state.
    method HaltLocked(status: Status, now: int)
      requires !status.Playing?
      modifies this`state, this`playedBase, this`resumedAt
      ensures Fields() == Accumulate(old(Fields()), now).(state := status)
      ensures Position(Fields(), now) == old(Position(Fields(), now))
    {
      AccumulateLocked(now);
      state := status;
    }

    // A first failure before playback is retried.
    method FailedLocked() returns (pc: Pc)
      modifies this`retried
      ensures retried
      ensures pc == if !old(retried) && playedBase == 0 && state.Starting? && !closed then Check(track, Retry) else Tail
    {
      var retry := !retried && playedBase == 0 && state.Starting? && !closed;
      retried := true;
      pc := if retry then Check(track, Retry) else Tail;
    }

    method FailUnlessClosed()
      modifies this
      ensures Fields() == FailTail(old(Fields())).core
      ensures Fields() == old(Fields()).(state := if old(closed) then old(state) else Failed)
    {
      if !closed { state := Failed; }
    }

    method PauseLocked(native: bool, now: int) returns (pc: Pc)
      modifies this
      ensures Section(Fields(), pc) == BeginPause(old(Fields()), native, now)
      ensures Position(Fields(), now) == old(Position(Fields(), now))
      ensures native || pc.Idle? ==> Fields() == old(Fields())
      ensures pc.Idle? <==> !old(state).Playing? || old(transport).None?
      ensures !pc.Idle? ==>
        pc == if native then PauseCall(old(transport).value) else StopOld(old(transport).value, Idle)
      ensures pc.StopOld? ==>
        && state.Paused? && transport.None? && !Running()
        && track == old(track) && retried == old(retried) && closed == old(closed)
    {
      if !state.Playing? || transport.None? { return Idle; }
      if native { return PauseCall(transport.value); }
      AccumulateLocked(now);
      state := Paused;
      pc := StopOld(transport.value, Idle);
      transport := None;
    }

    method PausedNatively(tr: Tr, now: int)
      modifies this
      ensures Fields() == EndPause(old(Fields()), tr, now).core
      ensures if old(transport) == Some(tr) && !old(closed)
              then state.Paused? && !Running() && transport == Some(tr) && track == old(track) && !closed
              else Fields() == old(Fields())
      ensures Position(Fields(), now) == old(Position(Fields(), now))
    {
      if transport == Some(tr) && !closed {
        AccumulateLocked(now);
        state := Paused;
      }
    }

    method ResumeLocked(native: bool, now: int) returns (pc: Pc)
      modifies this
      ensures Section(Fields(), pc) == BeginResume(old(Fields()), native, now)
      ensures Fields() == old(Fields()).(retried := old(retried) && !pc.Check?)
      ensures pc.Idle? <==> !old(state).Paused?
      ensures pc.ResumeCall? <==> old(state).Paused? && transport.Some? && native
      ensures pc.ResumeCall? ==> transport == Some(pc.tr)
      ensures !pc.Idle? && !pc.ResumeCall? ==>
        pc.Check? && pc.origin.Caller? && pc.track == old(track).(startAt := pc.track.startAt)
      ensures pc.Check? && old(Position(Fields(), now)) >= 0 ==>
        pc.track.startAt * 1_000_000_000 <= old(Position(Fields(), now)) < (pc.track.startAt + 1) * 1_000_000_000
    {
      if !state.Paused? { return Idle; }
      if transport.Some? && native { return ResumeCall(transport.value); }
      var pos := PositionLocked(now);
      pc := Check(track.(startAt := WholeSeconds(pos)), Caller);
      retried := false;
    }

    method ResumedNatively(tr: Tr, now: int)
      modifies this
      ensures Fields() == EndResume(old(Fields()), tr, now).core
      ensures Fields() ==
        if old(transport) == Some(tr) && !old(closed) then old(Fields()).(state := Playing, resumedAt := Some(now))
        else old(Fields())
    {
      if transport == Some(tr) && !closed {
        state := Playing;
        resumedAt := Some(now);
      }
    }

    method SeekLocked(seconds: int, native: bool, now: int) returns (pc: Pc)
      modifies this
      ensures Section(Fields(), pc) == BeginSeek(old(Fields()), seconds, native, now)
      ensures transport == old(transport)
      ensures var d := old(track).duration;
        var target := if d > 0 && seconds >= d then d - 1 else if seconds < 0 then 0 else seconds;
        var aimed := old(track).(startAt := target);
        && (old(transport).Some? && native ==> pc == SeekCall(old(transport).value, aimed) && Fields() == old(Fields()))
        && (old(transport).None? || !native ==>
              && !retried && state == old(state) && closed == old(closed) && !Running()
              && pc == (if state.Paused? then Idle
                        else if transport.Some? then StopOld(transport.value, Check(aimed, Caller))
                        else Check(aimed, Caller))
              && track == if pc.Idle? then aimed else old(track))
        && Position(Fields(), now) == if pc.Idle? then target * 1_000_000_000 else old(Position(Fields(), now))
    {
      var target := track.(startAt := Clamped(track, seconds));
      var old_, paused := transport, state.Paused?;
      if old_.Some? && native { return SeekCall(old_.value, target); }
      AccumulateLocked(now);
      retried := false;
      if paused {
        track := target;
        playedBase := 0;
        return Idle;
      }
      pc := Check(target, Caller);
      if old_.Some? { pc := StopOld(old_.value, pc); }
    }

    method SoughtNatively(tr: Tr, target: Track, now: int)
      modifies this
      ensures Fields() == EndSeek(old(Fields()), tr, target, now).core
      ensures old(transport) == Some(tr) && !old(closed) ==>
        && Raw(Fields(), now) == target.startAt * 1_000_000_000
        && track == target && state == old(state) && transport == Some(tr) && !retried && !closed
        && (Running() <==> state.Playing?)
      ensures old(transport) != Some(tr) || old(closed) ==> Fields() == old(Fields())
    {
      if transport == Some(tr) && !closed {
        AccumulateLocked(now);
        retried := false;
        track := target;
        playedBase := 0;
        if state.Playing? { resumedAt := Some(now); } else { resumedAt := None; }
      }
    }

    method PlayTrackLocked(next: Track, now: int) returns (pc: Pc)
      modifies this
      ensures Section(Fields(), pc) == BeginPlayTrack(old(Fields()), next, now)
      ensures Position(Fields(), now) == old(Position(Fields(), now)) && !Running() && transport == old(transport)
      ensures pc == if transport.Some? then StopOld(transport.value, Reset(next)) else Reset(next)
      ensures state == old(state) && track == old(track) && closed == old(closed)
    {
      pc := Reset(next);
      if transport.Some? { pc := StopOld(transport.value, pc); }
      AccumulateLocked(now);
    }

    method ResetLocked(next: Track) returns (pc: Pc)
      modifies this
      ensures Section(Fields(), pc) == EndPlayTrack(old(Fields()), next)
      ensures Fields() == old(Fields()).(retried := false, playbackStarted := false) && pc == Check(next, Caller)
    {
      retried := false;
      playbackStarted := false;
      pc := Check(next, Caller);
    }

    method StopLocked(now: int) returns (pc: Pc)
      modifies this
      ensures Section(Fields(), pc) == Stop(old(Fields()), now)
      ensures closed && Position(Fields(), now) == old(Position(Fields(), now))
      ensures old(closed) ==> Fields() == old(Fields()) && pc.Idle?
      ensures !old(closed) ==>
        && state.Stopped? && !Running() && transport == old(transport) && track == old(track)
        && pc == StopLast(transport)
    {
      if closed { return Idle; }
      closed := true;
      AccumulateLocked(now);
      state := Stopped;
      pc := StopLast(transport);
    }
  }
}
