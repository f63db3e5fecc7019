/**
 Runs of a cast session: any number of callers and one event loop per installed transport,
 interleaved at every locked section and every call to a transport.
 */
module CastSessionRuns {
  import opened Wrappers
  import opened CastSession

  // User n runs one command after another; Loop(tr) is the consume goroutine of transport tr.
  datatype Who = User(n: nat) | Loop(tr: Tr)

  // A transport runs until it is stopped or reports that it ended or failed.
  datatype Phase = Running | Over | StopCalled
  datatype Transport = Transport(native: bool, phase: Phase)

  // What the proofs count: transports overwritten while they ran, the transport that the first Stop
  // found, automatic respawns, commands that may allow another one, now-playing reports, PlayTrack calls.
  datatype History = History(
    overwritten: set<Tr>, closing: Option<Option<Tr>>,
    respawns: nat, resets: nat, commands: nat, reports: nat, restarts: nat, plays: nat)

  datatype State = State(core: Core, trs: seq<Transport>, pcs: map<Who, Pc>, hist: History, clock: int)

  datatype Command = Pause | Resume | Seek(seconds: int) | PlayTrack(track: Track) | Stop

  datatype Action =
    | Call(command: Command)
    | Event(kind: EventKind)
    | Drained                       // the event channel is closed
    | Go(ok: bool, native: bool)    // the next section or transport call, with its outcome

  // One goroutine's move: who, what, and the time at which it is made.
  datatype Move = Move(who: Who, action: Action, now: int)

  // What a move reads and writes; `installed` is a transport whose event loop it starts.
  datatype Local = Local(core: Core, trs: seq<Transport>, pc: Pc, hist: History, installed: Option<Tr>)

  predicate IsRunning(trs: seq<Transport>, tr: Tr) {
    tr < |trs| && trs[tr].phase.Running?
  }

  function Finished(trs: seq<Transport>, tr: Tr, phase: Phase): seq<Transport> {
    if IsRunning(trs, tr) then trs[tr := trs[tr].(phase := phase)] else trs
  }

  predicate Native(l: Local) {
    l.core.transport.Some? && l.core.transport.value < |l.trs| && l.trs[l.core.transport.value].native
  }

  function At(l: Local, s: Section): Local {
    l.(core := s.core, pc := s.pc)
  }

  // ---- One move ------------------------------------------------------------------------

  function Order(l: Local, command: Command, now: int): Local {
    match command
    case Pause => At(l, BeginPause(l.core, Native(l), now))
    case Resume =>
      At(l, BeginResume(l.core, Native(l), now)).(hist := l.hist.(
        commands := l.hist.commands + 1,
        resets := l.hist.resets + if l.core.state.Paused? && !Native(l) then 1 else 0))
    case Seek(seconds) =>
      At(l, BeginSeek(l.core, seconds, Native(l), now)).(hist := l.hist.(
        commands := l.hist.commands + 1, resets := l.hist.resets + if Native(l) then 0 else 1))
    case PlayTrack(track) =>
      At(l, BeginPlayTrack(l.core, track, now)).(hist := l.hist.(
        commands := l.hist.commands + 1, plays := l.hist.plays + 1))
    case Stop =>
      At(l, CastSession.Stop(l.core, now)).(hist :=
        if l.core.closed then l.hist else l.hist.(closing := Some(l.core.transport)))
  }

  function Consume(l: Local, tr: Tr, kind: EventKind, now: int): Local {
    var next := At(l, Handle(l.core, tr, kind, now));
    next.(
      trs := if kind.Ended? || kind.FailedEvent? then Finished(l.trs, tr, Over) else l.trs,
      hist := l.hist.(
        respawns := l.hist.respawns + if next.pc.Check? then 1 else 0,
        reports := l.hist.reports + if next.pc.Reporting? then 1 else 0))
  }

  function Installing(l: Local, now: int): Local
    requires l.pc.Fresh?
  {
    var next := At(l, Install(l.core, l.pc.track, l.pc.tr, l.pc.origin));
    if l.core.closed then next
    else
      next.(installed := Some(l.pc.tr),
            hist := if l.core.transport.Some? && IsRunning(l.trs, l.core.transport.value)
                    then l.hist.(overwritten := l.hist.overwritten + {l.core.transport.value}) else l.hist)
  }

  function Proceed(l: Local, ok: bool, native: bool, now: int): Local {
    match l.pc
    case Check(track, origin) => At(l, CheckOpen(l.core, track, origin))
    case Launch(track, origin) =>
      if ok then l.(trs := l.trs + [Transport(native, Running)], pc := Fresh(track, |l.trs|, origin))
      else l.(pc := Refused(origin))
    case Fresh(_, _, _) => Installing(l, now)
    case Discard(tr, origin) => l.(trs := Finished(l.trs, tr, StopCalled), pc := Refused(origin))
    case Reporting(tr) => l.(pc := Consuming(tr))
    case Tail => At(l, FailTail(l.core))
    case PauseCall(tr) => l.(pc := if ok then PauseApply(tr) else Idle)
    case PauseApply(tr) => At(l, EndPause(l.core, tr, now))
    case ResumeCall(tr) => l.(pc := if ok then ResumeApply(tr) else Idle)
    case ResumeApply(tr) => At(l, EndResume(l.core, tr, now))
    case SeekCall(tr, track) => l.(pc := if ok then SeekApply(tr, track) else Idle)
    case SeekApply(tr, track) =>
      At(l, EndSeek(l.core, tr, track, now)).(hist := l.hist.(
        resets := l.hist.resets + if l.core.transport == Some(tr) && !l.core.closed then 1 else 0))
    case StopOld(tr, after) => l.(trs := Finished(l.trs, tr, StopCalled), pc := after)
    case Reset(track) =>
      At(l, EndPlayTrack(l.core, track)).(hist := l.hist.(
        resets := l.hist.resets + 1, restarts := l.hist.restarts + 1))
    case StopLast(last) =>
      l.(trs := if last.Some? then Finished(l.trs, last.value, StopCalled) else l.trs, pc := Idle)
    case Idle => l
    case Consuming(_) => l
  }

  function Step(l: Local, m: Move): Local {
    match m.action
    case Call(command) => if l.pc.Idle? && m.who.User? then Order(l, command, m.now) else l
    case Event(kind) => if l.pc.Consuming? then Consume(l, l.pc.tr, kind, m.now) else l
    case Drained => if l.pc.Consuming? then l.(pc := Idle) else l
    case Go(ok, native) => Proceed(l, ok, native, m.now)
  }

  function PcOf(s: State, who: Who): Pc {
    if who in s.pcs then s.pcs[who] else Idle
  }

  function View(s: State, who: Who): Local {
    Local(s.core, s.trs, PcOf(s, who), s.hist, None)
  }

  function Started(pcs: map<Who, Pc>, installed: Option<Tr>): map<Who, Pc> {
    if installed.Some? then pcs[Loop(installed.value) := Consuming(installed.value)] else pcs
  }

  // The session after one move; the event loop of a transport moves once the transport is installed.
  function Next(s: State, m: Move): State {
    if m.who.Loop? && m.who !in s.pcs then s.(clock := m.now)
    else
      var l := Step(View(s, m.who), m);
      State(l.core, l.trs, Started(s.pcs[m.who := l.pc], l.installed), l.hist, m.now)
  }

  function Run(s: State, moves: seq<Move>): State {
    if moves == [] then s else Next(Run(s, moves[..|moves| - 1]), moves[|moves| - 1])
  }

  // The clock does not go back.
  predicate Forward(moves: seq<Move>, from: int) {
    moves != [] ==> Forward(moves[..|moves| - 1], from) && End(moves[..|moves| - 1], from) <= moves[|moves| - 1].now
  }

  function End(moves: seq<Move>, from: int): int {
    if moves == [] then from else moves[|moves| - 1].now
  }

  /** Manager.Play has made a session and its caller is about to start the first transport. */
  function Init(track: Track, now: int): State {
    State(Core(Starting, track, None, 0, None, false, false, false), [], map[User(0) := Check(track, Caller)],
          History({}, None, 0, 0, 0, 0, 0, 0), now)
  }
}
