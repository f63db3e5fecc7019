/**
 How often a cast session acts on its own: it restarts a failed transport at most once for the
 start and once for each command, and announces a track at most once for each track.
 */
module CastSessionBounds {
  import opened Wrappers
  import opened CastSession
  import opened CastSessionRuns

  // The goroutine has begun a command that will allow another retry.
  predicate WillReset(pc: Pc) {
    pc.SeekCall? || pc.SeekApply? || WillRestart(pc)
  }

  // The goroutine has begun a PlayTrack that will allow another report.
  predicate WillRestart(pc: Pc) {
    pc.Reset? || (pc.StopOld? && pc.after.Reset?)
  }

  function Resetting(pcs: map<Who, Pc>): set<Who> {
    set who | who in pcs && WillReset(pcs[who])
  }

  function Restarting(pcs: map<Who, Pc>): set<Who> {
    set who | who in pcs && WillRestart(pcs[who])
  }

  predicate Budget(c: Core, h: History) {
    && h.respawns + (if c.retried then 0 else 1) <= 1 + h.resets
    && h.reports + (if c.playbackStarted then 0 else 1) <= 1 + h.restarts
  }

  predicate Inv(s: State) {
    && Budget(s.core, s.hist)
    && s.hist.resets + |Resetting(s.pcs)| <= s.hist.commands
    && s.hist.restarts + |Restarting(s.pcs)| <= s.hist.plays
  }

  function One(b: bool): nat {
    if b then 1 else 0
  }

  // One goroutine's share.
  ghost predicate Spends(l: Local, l': Local) {
    && Budget(l'.core, l'.hist)
    && l'.hist.resets + One(WillReset(l'.pc)) - l.hist.resets - One(WillReset(l.pc))
         <= l'.hist.commands - l.hist.commands
    && l'.hist.restarts + One(WillRestart(l'.pc)) - l.hist.restarts - One(WillRestart(l.pc))
         <= l'.hist.plays - l.hist.plays
  }

  ghost predicate Plain(pc: Pc) {
    pc.StopOld? ==> pc.after.Idle? || pc.after.Reset? || pc.after.Check?
  }

  lemma OrderSpends(l: Local, command: Command, now: int)
    requires Budget(l.core, l.hist) && l.pc.Idle?
    ensures Spends(l, Order(l, command, now)) && Plain(Order(l, command, now).pc)
  {
  }

  lemma ConsumeSpends(l: Local, kind: EventKind, now: int)
    requires Budget(l.core, l.hist) && l.pc.Consuming?
    ensures Spends(l, Consume(l, l.pc.tr, kind, now)) && Plain(Consume(l, l.pc.tr, kind, now).pc)
  {
  }

  lemma ProceedSpends(l: Local, ok: bool, native: bool, now: int)
    requires Budget(l.core, l.hist) && Plain(l.pc)
    ensures Spends(l, Proceed(l, ok, native, now)) && Plain(Proceed(l, ok, native, now).pc)
  {
  }

  lemma StepSpends(l: Local, m: Move)
    requires Budget(l.core, l.hist) && Plain(l.pc)
    ensures Spends(l, Step(l, m)) && Plain(Step(l, m).pc)
  {
    match m.action
    case Call(command) => if l.pc.Idle? && m.who.User? { OrderSpends(l, command, m.now); }
    case Event(kind) => if l.pc.Consuming? { ConsumeSpends(l, kind, m.now); }
    case Drained =>
    case Go(ok, native) => ProceedSpends(l, ok, native, m.now);
  }

  // Moving one goroutine changes the sets by that goroutine only.
  lemma SetsMove(pcs: map<Who, Pc>, who: Who, pc: Pc, installed: Option<Tr>, before: Pc)
    requires before == if who in pcs then pcs[who] else Idle
    ensures var pcs' := Started(pcs[who := pc], installed);
      && |Resetting(pcs')| <= |Resetting(pcs)| + One(WillReset(pc)) - One(WillReset(before))
      && |Restarting(pcs')| <= |Restarting(pcs)| + One(WillRestart(pc)) - One(WillRestart(before))
  {
    var pcs' := Started(pcs[who := pc], installed);
    Subset(Resetting(pcs'), Resetting(pcs), who, WillReset(before), WillReset(pc));
    Subset(Restarting(pcs'), Restarting(pcs), who, WillRestart(before), WillRestart(pc));
  }

  lemma Subset(after: set<Who>, before: set<Who>, who: Who, was: bool, now: bool)
    requires who in before <==> was
    requires who in after ==> now
    requires after <= before + {who}
    ensures |after| <= |before| + One(now) - One(was)
  {
    var rest := before - {who};
    assert |rest| == |before| - One(was) by {
      if was { assert rest + {who} == before; } else { assert rest == before; }
    }
    if now {
      Fewer(after, rest + {who});
    } else {
      Fewer(after, rest);
    }
  }

  lemma Fewer(a: set<Who>, b: set<Who>)
    requires a <= b
    ensures |a| <= |b|
  {
    if a != {} {
      var x :| x in a;
      Fewer(a - {x}, b - {x});
    }
  }

  ghost predicate AllPlain(s: State) {
    forall who <- s.pcs :: Plain(s.pcs[who])
  }

  lemma NextKeeps(s: State, m: Move)
    requires Inv(s) && AllPlain(s)
    ensures Inv(Next(s, m)) && AllPlain(Next(s, m))
  {
    if m.who.User? || m.who in s.pcs {
      var l := View(s, m.who);
      StepSpends(l, m);
      SetsMove(s.pcs, m.who, Step(l, m).pc, Step(l, m).installed, l.pc);
    }
  }

  lemma {:induction false} RunKeeps(track: Track, start: int, moves: seq<Move>)
    ensures Inv(Run(Init(track, start), moves)) && AllPlain(Run(Init(track, start), moves))
  {
    if moves == [] {
      assert Resetting(Init(track, start).pcs) == {} && Restarting(Init(track, start).pcs) == {};
    } else {
      RunKeeps(track, start, moves[..|moves| - 1]);
      NextKeeps(Run(Init(track, start), moves[..|moves| - 1]), moves[|moves| - 1]);
    }
  }

  // ---- The calls in a run ----------------------------------------------------------------

  predicate Allows(m: Move) {
    m.action.Call? && (m.action.command.Resume? || m.action.command.Seek? || m.action.command.PlayTrack?)
  }

  predicate Changes(m: Move) {
    m.action.Call? && m.action.command.PlayTrack?
  }

  function Count(moves: seq<Move>, p: Move -> bool): nat {
    if moves == [] then 0 else Count(moves[..|moves| - 1], p) + One(p(moves[|moves| - 1]))
  }

  lemma {:induction false} Counted(s: State, moves: seq<Move>)
    ensures Run(s, moves).hist.commands <= s.hist.commands + Count(moves, Allows)
    ensures Run(s, moves).hist.plays <= s.hist.plays + Count(moves, Changes)
  {
    if moves != [] {
      Counted(s, moves[..|moves| - 1]);
      CountedOnce(Run(s, moves[..|moves| - 1]), moves[|moves| - 1]);
    }
  }

  lemma CountedOnce(s: State, m: Move)
    ensures Next(s, m).hist.commands <= s.hist.commands + One(Allows(m))
    ensures Next(s, m).hist.plays <= s.hist.plays + One(Changes(m))
  {
  }

  /** Automatic restarts: one for the first start, and one more for each Resume, Seek and PlayTrack. */
  lemma BoundedRetries(track: Track, start: int, moves: seq<Move>)
    ensures Run(Init(track, start), moves).hist.respawns <= 1 + Count(moves, Allows)
  {
    RunKeeps(track, start, moves);
    Counted(Init(track, start), moves);
  }

  /** Now-playing reports of audio tracks: one for the first track, and one more for each PlayTrack. */
  lemma BoundedReports(track: Track, start: int, moves: seq<Move>)
    ensures Run(Init(track, start), moves).hist.reports <= 1 + Count(moves, Changes)
  {
    RunKeeps(track, start, moves);
    Counted(Init(track, start), moves);
  }
}
