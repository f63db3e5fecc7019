/**
 Query telemetry: a capped map of statement aggregates and a ring of the most recent samples,
 both of which must agree with the whole history of query ends.

 Statements are already sanitised.  Times and durations are in nanoseconds.
 */
module QueryTelemetry {
  import opened Wrappers

  // Sanitised text.
  datatype Statement = Statement(text: string)

  datatype ErrorCode = ErrorCode(text: string)

  const OTHER := Statement("other statements")
  const WINDOW := 60 * 1_000_000_000

  datatype Aggregate = Aggregate(
    calls: nat, errors: nat, rows: int, total: int, max: int, lastSeenAt: int, lastErrorAt: int,
    lastErrorCode: ErrorCode)

  const NO_CALLS := Aggregate(0, 0, 0, 0, 0, 0, 0, ErrorCode(""))

  datatype Sample = Sample(at: int, duration: int, err: bool, statement: Statement)

  // What TraceQueryEnd learns: the traced statement, the error code if it failed, the rows it affected.
  datatype End = End(statement: Statement, duration: int, now: int, failed: Option<ErrorCode>, affected: int)

  // ---- The whole history -----------------------------------------------------------------

  // The aggregates, and every sample that was ever recorded.
  datatype Book = Book(statements: map<Statement, Aggregate>, samples: seq<Sample>)

  // The name under which an end is counted.
  function Counted(statements: map<Statement, Aggregate>, statement: Statement, maxStatements: nat): Statement {
    if statement !in statements && |statements| >= maxStatements - 1 then OTHER else statement
  }

  function Add(a: Aggregate, e: End): Aggregate {
    Aggregate(
      a.calls + 1,
      a.errors + (if e.failed.Some? then 1 else 0),
      a.rows + (if e.affected > 0 then e.affected else 0),
      a.total + e.duration,
      if e.duration > a.max then e.duration else a.max,
      e.now,
      if e.failed.Some? then e.now else a.lastErrorAt,
      if e.failed.Some? then e.failed.value else a.lastErrorCode)
  }

  function SampleOf(e: End, name: Statement): Sample {
    Sample(e.now, e.duration, e.failed.Some?, name)
  }

  function Aggregated(statements: map<Statement, Aggregate>, e: End, name: Statement): map<Statement, Aggregate> {
    statements[name := Add(if name in statements then statements[name] else NO_CALLS, e)]
  }

  function Record(b: Book, e: End, maxStatements: nat): Book {
    var name := Counted(b.statements, e.statement, maxStatements);
    Book(Aggregated(b.statements, e, name), b.samples + [SampleOf(e, name)])
  }

  function Tally(ends: seq<End>, maxStatements: nat): Book {
    if ends == [] then Book(map[], [])
    else Record(Tally(ends[..|ends| - 1], maxStatements), ends[|ends| - 1], maxStatements)
  }

  function Latest(samples: seq<Sample>, n: nat): seq<Sample> {
    if |samples| <= n then samples else samples[|samples| - n..]
  }

  // ---- What a snapshot shows ---------------------------------------------------------------

  predicate InWindow(s: Sample, now: int) {
    s.at != 0 && s.at >= now - WINDOW
  }

  // Which samples to count: all or those in the window of a time, of all or one statement, all or the failed ones.
  datatype Query = Query(now: Option<int>, name: Option<Statement>, failed: bool)

  predicate Matches(s: Sample, q: Query) {
    && (q.now.Some? ==> InWindow(s, q.now.value))
    && (q.name.Some? ==> s.statement == q.name.value)
    && (q.failed ==> s.err)
  }

  const ALL := Query(None, None, false)
  const FAILED := Query(None, None, true)

  function Number(samples: seq<Sample>, q: Query): nat {
    if samples == [] then 0
    else Number(samples[..|samples| - 1], q) + if Matches(samples[|samples| - 1], q) then 1 else 0
  }

  function Durations(samples: seq<Sample>, q: Query): seq<int> {
    if samples == [] then []
    else Durations(samples[..|samples| - 1], q)
         + if Matches(samples[|samples| - 1], q) then [samples[|samples| - 1].duration] else []
  }

  datatype RecentAggregate = RecentAggregate(calls: nat, errors: nat, durations: seq<int>)

  const NONE_RECENT := RecentAggregate(0, 0, [])

  function RecentOf(samples: seq<Sample>, now: int, name: Statement): RecentAggregate {
    RecentAggregate(
      Number(samples, Query(Some(now), Some(name), false)),
      Number(samples, Query(Some(now), Some(name), true)),
                    Durations(samples, Query(Some(now), Some(name), false)))
  }

  // One row of the snapshot: the lifetime aggregate and what the statement did in the window.
  datatype Row = Row(lifetime: Aggregate, recent: RecentAggregate)

  datatype Snapshot = Snapshot(
    totalQueries: nat, totalErrors: nat, inFlight: int, recentErrors: nat, durations: seq<int>,
    rows: map<Statement, Row>)

  // ---- The class -------------------------------------------------------------------------

  class Collector {
    const maxStatements: nat
    const maxSamples: nat
    var statements: map<Statement, Aggregate>
    const samples: array<Sample>
    var samplePos: nat
    var sampleFull: bool
    var totalQueries: nat
    var totalErrors: nat
    var inFlight: int
    ghost var book: Book    // everything that was ever recorded

    ghost predicate Valid()
      reads this, samples
    {
      && 1 <= maxStatements && 1 <= maxSamples == samples.Length && samplePos < maxSamples
      && statements == book.statements
      && totalQueries == |book.samples| && totalErrors == Number(book.samples, FAILED)
      && Ring(samples[..], samplePos, sampleFull, book.samples)
    }

    constructor (maxStatements: int, maxSamples: int)
      ensures Valid() && fresh(samples) && book == Tally([], this.maxStatements) && inFlight == 0
      ensures this.maxStatements == (if maxStatements < 1 then 1 else maxStatements)
      ensures this.maxSamples == (if maxSamples < 1 then 1 else maxSamples)
    {
      this.maxStatements := if maxStatements < 1 then 1 else maxStatements;
      this.maxSamples := if maxSamples < 1 then 1 else maxSamples;
      samples := new Sample[if maxSamples < 1 then 1 else maxSamples](_ => Sample(0, 0, false, OTHER));
      statements, samplePos, sampleFull := map[], 0, false;
      totalQueries, totalErrors, inFlight, book := 0, 0, 0, Book(map[], []);
    }

    method TraceQueryStart()
      requires Valid()
      modifies this`inFlight
      ensures Valid() && inFlight == old(inFlight) + 1
    {
      inFlight := inFlight + 1;
    }

    method TraceQueryEnd(e: End)
      requires Valid()
      modifies this, samples
      ensures Valid() && book == Record(old(book), e, maxStatements)
      ensures totalQueries == old(totalQueries) + 1
      ensures totalErrors == old(totalErrors) + if e.failed.Some? then 1 else 0
      ensures inFlight == if old(inFlight) > 0 then old(inFlight) - 1 else old(inFlight)
    {
      ghost var next := Record(book, e, maxStatements);
      var name, aggregates := Count(statements, e, maxStatements);
      var sample := Sample(e.now, e.duration, e.failed.Some?, name);
      Advance(sample, aggregates, next);
    }

    // Counts the sample, stores the aggregates and writes the sample into the ring.
    method Advance(sample: Sample, aggregates: map<Statement, Aggregate>, ghost next: Book)
      requires Valid()
      requires next == Book(aggregates, book.samples + [sample])
      modifies this, samples
      ensures Valid() && book == next
      ensures totalQueries == old(totalQueries) + 1 && totalErrors == old(totalErrors) + if sample.err then 1 else 0
      ensures inFlight == if old(inFlight) > 0 then old(inFlight) - 1 else old(inFlight)
    {
      Total(sample, aggregates, next);
      Push(sample, old(book.samples));
    }

    // The counters and the aggregates; the ring still lacks the sample.
    method Total(sample: Sample, aggregates: map<Statement, Aggregate>, ghost next: Book)
      requires next == Book(aggregates, book.samples + [sample])
      requires totalQueries == |book.samples| && totalErrors == Number(book.samples, FAILED)
      modifies this`inFlight, this`totalQueries, this`totalErrors, this`statements, this`book
      ensures statements == aggregates && book == next
      ensures totalQueries == |next.samples| && totalErrors == Number(next.samples, FAILED)
      ensures totalQueries == old(totalQueries) + 1 && totalErrors == old(totalErrors) + if sample.err then 1 else 0
      ensures inFlight == if old(inFlight) > 0 then old(inFlight) - 1 else old(inFlight)
    {
      NumberNext(book.samples, sample, FAILED);
      inFlight := if inFlight > 0 then inFlight - 1 else inFlight;
      totalQueries := totalQueries + 1;
      totalErrors := totalErrors + if sample.err then 1 else 0;
      statements := aggregates;
      book := next;
    }

    // Writes one sample over the oldest.
    method Push(sample: Sample, ghost history: seq<Sample>)
      requires 1 <= maxSamples == samples.Length && samplePos < maxSamples
      requires Ring(samples[..], samplePos, sampleFull, history)
      modifies this`samplePos, this`sampleFull, samples
      ensures samplePos < maxSamples && Ring(samples[..], samplePos, sampleFull, history + [sample])
    {
      ghost var was := samples[..];
      RingPush(was, samplePos, sampleFull, history, sample);
      samples[samplePos] := sample;
      assert samples[..] == was[samplePos := sample];
      Wraps(samplePos, maxSamples);
      samplePos := (samplePos + 1) % maxSamples;
      if samplePos == 0 { sampleFull := true; }
    }

    /** The most recent samples, oldest first. */
    method OrderedSamplesLocked() returns (out: seq<Sample>)
      requires Valid()
      ensures out == Latest(book.samples, maxSamples)
    {
      if !sampleFull { return samples[..samplePos]; }
      out := samples[samplePos..];
      out := out + samples[..samplePos];
      assert samples[..][samplePos..] == samples[samplePos..];
    }

    /** The rows before they are sorted and cut to the twelve most expensive. */
    method TakeSnapshot(now: int) returns (out: Snapshot)
      requires Valid()
      ensures out.totalQueries == |book.samples| && out.totalErrors == Number(book.samples, FAILED) &&
        out.inFlight == inFlight
      ensures var recent := Latest(book.samples, maxSamples);
        && out.recentErrors == Number(recent, Query(Some(now), None, true))
        && out.durations == Durations(recent, Query(Some(now), None, false))
        && out.rows.Keys == statements.Keys
        && forall name <- out.rows :: out.rows[name] == Row(statements[name], RecentOf(recent, now, name))
    {
      var samples := OrderedSamplesLocked();
      var recentByStatement, durations, recentErrors := SumRecent(samples, now);
      var rows := map name | name in statements :: Row(statements[name], RecentIn(recentByStatement, name));
      out := Snapshot(totalQueries, totalErrors, inFlight, recentErrors, durations, rows);
    }
  }

  // Adds a query end to the aggregate of its statement, or of the other statements.
  method Count(statements: map<Statement, Aggregate>, e: End, maxStatements: nat)
    returns (name: Statement, aggregates: map<Statement, Aggregate>)
    requires maxStatements >= 1
    ensures name == Counted(statements, e.statement, maxStatements)
    ensures aggregates == Aggregated(statements, e, name)
  {
    name := e.statement;
    if name !in statements && |statements| >= maxStatements - 1 {
      name := OTHER;
    }
    var agg := Counting(if name in statements then statements[name] else NO_CALLS, e);
    aggregates := statements[name := agg];
  }

  method Counting(before: Aggregate, e: End) returns (agg: Aggregate)
    ensures agg == Add(before, e)
  {
    agg := before.(calls := before.calls + 1, total := before.total + e.duration, lastSeenAt := e.now);
    if e.duration > agg.max { agg := agg.(max := e.duration); }
    if e.failed.Some? {
      agg := agg.(errors := agg.errors + 1, lastErrorAt := e.now, lastErrorCode := e.failed.value);
    }
    if e.affected > 0 { agg := agg.(rows := agg.rows + e.affected); }
  }

  method SumRecent(samples: seq<Sample>, now: int)
    returns (byStatement: map<Statement, RecentAggregate>, durations: seq<int>, errors: nat)
    ensures durations == Durations(samples, Query(Some(now), None, false))
    ensures errors == Number(samples, Query(Some(now), None, true))
    ensures forall name :: RecentIn(byStatement, name) == RecentOf(samples, now, name)
  {
    byStatement, durations, errors := map[], [], 0;
    var i := 0;
    while i < |samples|
      invariant i <= |samples|
      invariant durations == Durations(samples[..i], Query(Some(now), None, false))
      invariant errors == Number(samples[..i], Query(Some(now), None, true))
      invariant forall name :: RecentIn(byStatement, name) == RecentOf(samples[..i], now, name)
    {
      var sample := samples[i];
      OneMore(samples, i, now);
      ghost var was := byStatement;
      i := i + 1;
      if sample.at == 0 || sample.at < now - WINDOW { continue; }
      durations := durations + [sample.duration];
      if sample.err { errors := errors + 1; }
      var recent := RecentIn(byStatement, sample.statement);
      recent := recent.(calls := recent.calls + 1, durations := recent.durations + [sample.duration]);
      if sample.err { recent := recent.(errors := recent.errors + 1); }
      byStatement := byStatement[sample.statement := recent];
    }
    assert samples[..|samples|] == samples;
  }

  function Plus(r: RecentAggregate, s: Sample): RecentAggregate {
    RecentAggregate(r.calls + 1, r.errors + (if s.err then 1 else 0), r.durations + [s.duration])
  }

  // What the next sample adds.
  lemma OneMore(samples: seq<Sample>, i: nat, now: int)
    requires i < |samples|
    ensures var s, before, after := samples[i], samples[..i], samples[..i + 1];
      && Durations(after, Query(Some(now), None, false))
         == Durations(before, Query(Some(now), None, false)) + (if InWindow(s, now) then [s.duration] else [])
      && Number(after, Query(Some(now), None, true))
         == Number(before, Query(Some(now), None, true)) + (if InWindow(s, now) && s.err then 1 else 0)
      && forall name :: RecentOf(after, now, name)
           == if InWindow(s, now) && name == s.statement then Plus(RecentOf(before, now, name), s)
              else RecentOf(before, now, name)
  {
    assert samples[..i + 1][..i] == samples[..i];
  }

  lemma NumberNext(samples: seq<Sample>, s: Sample, q: Query)
    ensures Number(samples + [s], q) == Number(samples, q) + if Matches(s, q) then 1 else 0
  {
    assert (samples + [s])[..|samples|] == samples;
  }

  function RecentIn(m: map<Statement, RecentAggregate>, name: Statement): RecentAggregate {
    if name in m then m[name] else NONE_RECENT
  }

  // The cells hold the latest samples, the oldest at the write position once they are full.
  ghost predicate Ring(cells: seq<Sample>, pos: nat, full: bool, history: seq<Sample>) {
    && pos <= |cells|
    && if full then |history| >= |cells| && cells[pos..] + cells[..pos] == history[|history| - |cells|..]
       else |history| == pos && cells[..pos] == history
  }

  function NextCell(pos: nat, n: nat): nat {
    if pos + 1 == n then 0 else pos + 1
  }

  lemma Wraps(pos: nat, n: nat)
    requires pos < n
    ensures (pos + 1) % n == NextCell(pos, n)
  {
  }

  lemma RingPush(was: seq<Sample>, pos: nat, full: bool, history: seq<Sample>, sample: Sample)
    requires pos < |was| && Ring(was, pos, full, history)
    ensures Ring(was[pos := sample], NextCell(pos, |was|), full || pos + 1 == |was|, history + [sample])
  {
    if full { FullPush(was, pos, history, sample); } else { FirstPush(was, pos, history, sample); }
  }

  lemma FirstPush(was: seq<Sample>, pos: nat, history: seq<Sample>, sample: Sample)
    requires pos < |was| && Ring(was, pos, false, history)
    ensures Ring(was[pos := sample], NextCell(pos, |was|), pos + 1 == |was|, history + [sample])
  {
    var now, h := was[pos := sample], history + [sample];
    assert now[..pos + 1] == h;
    if pos + 1 == |was| { assert now[0..] + now[..0] == h[0..]; }
  }

  lemma FullPush(was: seq<Sample>, pos: nat, history: seq<Sample>, sample: Sample)
    requires pos < |was| && Ring(was, pos, true, history)
    ensures Ring(was[pos := sample], NextCell(pos, |was|), true, history + [sample])
  {
    var now := was[pos := sample];
    Shifted(was, pos, sample);
    TailShifts(history, |was|, sample);
    if pos + 1 == |was| { Unrotated(now); }
  }

  lemma TailShifts(history: seq<Sample>, n: nat, sample: Sample)
    requires 1 <= n <= |history|
    ensures var h := history + [sample]; h[|h| - n..] == history[|history| - n..][1..] + [sample]
  {
  }

  lemma Unrotated(cells: seq<Sample>)
    ensures cells[0..] + cells[..0] == cells == cells[|cells|..] + cells[..|cells|]
  {
  }

  lemma Shifted(was: seq<Sample>, pos: nat, sample: Sample)
    requires pos < |was|
    ensures var now := was[pos := sample]; now[pos + 1..] + now[..pos + 1] == (was[pos..] + was[..pos])[1..] + [sample]
  {
  }
}
