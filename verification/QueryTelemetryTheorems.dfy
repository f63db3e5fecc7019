/**
 The capped aggregates and the sample ring tell the truth about the whole history.
 */
module QueryTelemetryTheorems {
  import opened Wrappers
  import opened QueryTelemetry

  // ---- One statement ---------------------------------------------------------------------

  // The query ends that were counted under a name.
  function EndsOf(ends: seq<End>, maxStatements: nat, name: Statement): seq<End> {
    if ends == [] then []
    else
      var before := ends[..|ends| - 1];
      EndsOf(before, maxStatements, name)
      + if Counted(Tally(before, maxStatements).statements, ends[|ends| - 1].statement, maxStatements) == name
        then [ends[|ends| - 1]] else []
  }

  function Summary(ends: seq<End>): Aggregate {
    if ends == [] then NO_CALLS else Add(Summary(ends[..|ends| - 1]), ends[|ends| - 1])
  }

  lemma SummaryNext(ends: seq<End>, e: End)
    ensures Summary(ends + [e]) == Add(Summary(ends), e)
  {
    assert (ends + [e])[..|ends|] == ends;
  }

  /** Every aggregate is the summary of exactly the ends that were counted under its name. */
  lemma {:induction false} AggregatesAgree(ends: seq<End>, maxStatements: nat, name: Statement)
    ensures var tracked := Tally(ends, maxStatements).statements;
      && (name in tracked <==> EndsOf(ends, maxStatements, name) != [])
      && (name in tracked ==> tracked[name] == Summary(EndsOf(ends, maxStatements, name)))
  {
    if ends != [] {
      var before, e := ends[..|ends| - 1], ends[|ends| - 1];
      var mine := EndsOf(before, maxStatements, name);
      AggregatesAgree(before, maxStatements, name);
      SummaryNext(mine, e);
      assert EndsOf(ends, maxStatements, name) == mine + [e] || EndsOf(ends, maxStatements, name) == mine;
    }
  }

  function TotalDuration(ends: seq<End>): int {
    if ends == [] then 0 else TotalDuration(ends[..|ends| - 1]) + ends[|ends| - 1].duration
  }

  function RowsAffected(ends: seq<End>): int {
    if ends == [] then 0
    else
      var last := ends[|ends| - 1].affected;
      RowsAffected(ends[..|ends| - 1]) + if last < 0 then 0 else last
  }

  /** What a summary says of its ends: how many there were and how many failed, the sums of their durations and
      rows, the longest, the latest, and the latest failure. */
  lemma {:induction false} SummaryMeans(ends: seq<End>)
    ensures var a, failed := Summary(ends), FailedEnds(ends);
      && a.calls == |ends| && a.errors == |failed|
      && a.total == TotalDuration(ends) && a.rows == RowsAffected(ends)
      && (forall e <- ends :: e.duration <= a.max) && (a.max == 0 || exists e <- ends :: e.duration == a.max)
      && (ends != [] ==> a.lastSeenAt == ends[|ends| - 1].now)
      && (failed != [] ==>
            a.lastErrorAt == failed[|failed| - 1].now && Some(a.lastErrorCode) == failed[|failed| - 1].failed)
  {
    if ends != [] {
      var before, e := ends[..|ends| - 1], ends[|ends| - 1];
      SummaryMeans(before);
      assert forall x <- ends :: x == e || x in before;
      assert e in ends && forall x <- before :: x in ends;
    }
  }

  /** The sample of the latest end: a statement counts under its own name if it is tracked or there is room
      for one more beside the other statements. */
  lemma LatestSample(ends: seq<End>, e: End, maxStatements: nat)
    requires maxStatements >= 1
    ensures var tracked, samples := Tally(ends, maxStatements).statements, Tally(ends + [e], maxStatements).samples;
      && samples[..|samples| - 1] == Tally(ends, maxStatements).samples
      && samples[|samples| - 1] == Sample(
           e.now, e.duration, e.failed.Some?,
           if e.statement in tracked || |tracked| + 1 < maxStatements then e.statement
           else Statement("other statements"))
  {
    assert (ends + [e])[..|ends|] == ends;
  }

  function Statements(ends: seq<End>): set<Statement> {
    set e | e in ends :: e.statement
  }

  /** While fewer distinct statements than the maximum have been seen, every one is tracked under its own
      name. */
  lemma {:induction false} FewStatementsAreTracked(ends: seq<End>, maxStatements: nat)
    requires |Statements(ends)| < maxStatements
    ensures var b := Tally(ends, maxStatements);
      && b.statements.Keys == Statements(ends) && |b.samples| == |ends|
      && forall i :: 0 <= i < |ends| ==> b.samples[i].statement == ends[i].statement
  {
    if ends != [] {
      var before, e := ends[..|ends| - 1], ends[|ends| - 1];
      assert ends == before + [e];
      StatementsNext(before, e);
      FewStatementsAreTracked(before, maxStatements);
      TrackedNext(before, e, maxStatements);
    }
  }

  lemma StatementsNext(ends: seq<End>, e: End)
    ensures Statements(ends + [e]) == Statements(ends) + {e.statement}
    ensures |Statements(ends + [e])| == |Statements(ends)| + if e.statement in Statements(ends) then 0 else 1
  {
    assert Statements(ends + [e]) == Statements(ends) + {e.statement};
    if e.statement in Statements(ends) { assert Statements(ends + [e]) == Statements(ends); }
  }

  lemma TrackedNext(ends: seq<End>, e: End, maxStatements: nat)
    requires maxStatements >= 1
    requires var b := Tally(ends, maxStatements); e.statement in b.statements || |b.statements| + 1 < maxStatements
    ensures var b, b' := Tally(ends, maxStatements), Tally(ends + [e], maxStatements);
      && b'.statements.Keys == b.statements.Keys + {e.statement}
      && |b'.samples| == |b.samples| + 1 && b'.samples[..|b.samples|] == b.samples
      && b'.samples[|b.samples|].statement == e.statement
  {
    LatestSample(ends, e, maxStatements);
    assert (ends + [e])[..|ends|] == ends;
  }

  /** The number of tracked statements never exceeds the maximum. */
  lemma {:induction false} TrackedIsCapped(ends: seq<End>, maxStatements: nat)
    requires maxStatements >= 1
    ensures var keys := Tally(ends, maxStatements).statements.Keys;
      |keys| <= maxStatements && |keys - {OTHER}| <= maxStatements - 1
  {
    if ends != [] {
      var before, e := Tally(ends[..|ends| - 1], maxStatements), ends[|ends| - 1];
      TrackedIsCapped(ends[..|ends| - 1], maxStatements);
      var keys, name := before.statements.Keys, Counted(before.statements, e.statement, maxStatements);
      assert Tally(ends, maxStatements).statements.Keys == keys + {name};
      KeysGrow(keys, name, maxStatements);
    }
  }

  lemma KeysGrow(keys: set<Statement>, name: Statement, maxStatements: nat)
    requires maxStatements >= 1 && |keys| <= maxStatements && |keys - {OTHER}| <= maxStatements - 1
    requires name in keys || name == OTHER || |keys| < maxStatements - 1
    ensures |keys + {name}| <= maxStatements && |(keys + {name}) - {OTHER}| <= maxStatements - 1
  {
    if name in keys {
      assert keys + {name} == keys;
    } else if name == OTHER {
      assert keys - {OTHER} == keys && (keys + {name}) - {OTHER} == keys;
    } else {
      assert (keys + {name}) - {OTHER} == (keys - {OTHER}) + {name};
      Fewer(keys - {OTHER}, keys);
    }
  }

  lemma Fewer(a: set<Statement>, b: set<Statement>)
    requires a <= b
    ensures |a| <= |b|
  {
    assert b == a + (b - a);
  }

  /** A statement tracked under its own name stays tracked, and all its later ends count under that name. */
  lemma {:induction false} TrackedStaysTracked(ends: seq<End>, more: seq<End>, maxStatements: nat, name: Statement)
    requires name in Tally(ends, maxStatements).statements
    ensures var b := Tally(ends + more, maxStatements);
      && name in b.statements && |b.samples| == |ends + more|
      && forall i :: |ends| <= i < |ends + more| && (ends + more)[i].statement == name ==>
        b.samples[i].statement == name
    decreases |more|
  {
    Recorded(ends + more, maxStatements);
    if more == [] {
      assert ends + more == ends;
    } else {
      var before := more[..|more| - 1];
      assert (ends + more)[..|ends + more| - 1] == ends + before;
      TrackedStaysTracked(ends, before, maxStatements, name);
    }
  }

  // ---- Every end is a sample of a tracked statement --------------------------------------------

  lemma {:induction false} Recorded(ends: seq<End>, maxStatements: nat)
    ensures var b := Tally(ends, maxStatements);
      && |b.samples| == |ends|
      && (forall s <- b.samples :: s.statement in b.statements)
      && Number(b.samples, FAILED) == |FailedEnds(ends)|
  {
    if ends != [] {
      var before := ends[..|ends| - 1];
      Recorded(before, maxStatements);
      var b, e := Tally(before, maxStatements), ends[|ends| - 1];
      NumberNext(b.samples, SampleOf(e, Counted(b.statements, e.statement, maxStatements)), FAILED);
    }
  }

  function FailedEnds(ends: seq<End>): seq<End> {
    if ends == [] then []
    else FailedEnds(ends[..|ends| - 1]) + if ends[|ends| - 1].failed.Some? then [ends[|ends| - 1]] else []
  }

  // The calls and errors of one aggregate are those of the samples with its name.
  ghost predicate Agrees(b: Book) {
    forall name <- b.statements ::
      && b.statements[name].calls == Number(b.samples, Query(None, Some(name), false))
      && b.statements[name].errors == Number(b.samples, Query(None, Some(name), true))
  }

  lemma {:induction false} NoSamplesOf(samples: seq<Sample>, q: Query)
    requires q.name.Some? && forall s <- samples :: s.statement != q.name.value
    ensures Number(samples, q) == 0
  {
    if samples != [] { NoSamplesOf(samples[..|samples| - 1], q); }
  }

  lemma RecordAgrees(b: Book, e: End, maxStatements: nat)
    requires Agrees(b) && forall s <- b.samples :: s.statement in b.statements
    ensures Agrees(Record(b, e, maxStatements))
  {
    var b', name := Record(b, e, maxStatements), Counted(b.statements, e.statement, maxStatements);
    var s := SampleOf(e, name);
    forall n <- b'.statements
      ensures b'.statements[n].calls == Number(b'.samples, Query(None, Some(n), false))
      ensures b'.statements[n].errors == Number(b'.samples, Query(None, Some(n), true))
    {
      NumberNext(b.samples, s, Query(None, Some(n), false));
      NumberNext(b.samples, s, Query(None, Some(n), true));
      if n !in b.statements {
        NoSamplesOf(b.samples, Query(None, Some(n), false));
        NoSamplesOf(b.samples, Query(None, Some(n), true));
      }
    }
  }

  lemma {:induction false} TallyAgrees(ends: seq<End>, maxStatements: nat)
    ensures Agrees(Tally(ends, maxStatements))
  {
    if ends != [] {
      TallyAgrees(ends[..|ends| - 1], maxStatements);
      Recorded(ends[..|ends| - 1], maxStatements);
      RecordAgrees(Tally(ends[..|ends| - 1], maxStatements), ends[|ends| - 1], maxStatements);
    }
  }

  // ---- Sums over the statements ----------------------------------------------------------------

  ghost function Pick(keys: set<Statement>): (k: Statement)
    requires keys != {}
    ensures k in keys
  {
    var k :| k in keys;
    k
  }

  // The sum of a count over statements, where `Counts` gives each statement's.
  ghost function Sum(keys: set<Statement>, counts: map<Statement, nat>): nat
    requires keys <= counts.Keys
  {
    if keys == {} then 0 else counts[Pick(keys)] + Sum(keys - {Pick(keys)}, counts)
  }

  ghost function NumbersByName(keys: set<Statement>, samples: seq<Sample>, q: Query): map<Statement, nat> {
    map k | k in keys :: Number(samples, q.(name := Some(k)))
  }

  lemma {:induction false} SumZero(keys: set<Statement>, counts: map<Statement, nat>)
    requires keys <= counts.Keys && forall k <- keys :: counts[k] == 0
    ensures Sum(keys, counts) == 0
    decreases |keys|
  {
    if keys != {} { SumZero(keys - {Pick(keys)}, counts); }
  }

  // One count goes up by one.
  lemma {:induction false} SumBump(keys: set<Statement>, a: map<Statement, nat>, b: map<Statement, nat>, at: Statement)
    requires keys <= a.Keys && keys <= b.Keys
    requires forall k <- keys :: b[k] == a[k] + if k == at then 1 else 0
    ensures Sum(keys, b) == Sum(keys, a) + if at in keys then 1 else 0
    decreases |keys|
  {
    if keys != {} { SumBump(keys - {Pick(keys)}, a, b, at); }
  }

  lemma {:induction false} SumSame(keys: set<Statement>, a: map<Statement, nat>, b: map<Statement, nat>)
    requires keys <= a.Keys && keys <= b.Keys && forall k <- keys :: a[k] == b[k]
    ensures Sum(keys, a) == Sum(keys, b)
    decreases |keys|
  {
    if keys != {} { SumSame(keys - {Pick(keys)}, a, b); }
  }

  /** Counting the samples of each tracked statement counts every sample once. */
  lemma {:induction false} NamesPartitionSamples(keys: set<Statement>, samples: seq<Sample>, q: Query)
    requires q.name.None? && forall s <- samples :: s.statement in keys
    ensures Sum(keys, NumbersByName(keys, samples, q)) == Number(samples, q)
    decreases |samples|
  {
    if samples == [] {
      SumZero(keys, NumbersByName(keys, samples, q));
    } else {
      var before, s := samples[..|samples| - 1], samples[|samples| - 1];
      NamesPartitionSamples(keys, before, q);
      var a, b := NumbersByName(keys, before, q), NumbersByName(keys, samples, q);
      if Matches(s, q) { SumBump(keys, a, b, s.statement); } else { SumSame(keys, a, b); }
    }
  }

  function Calls(statements: map<Statement, Aggregate>): map<Statement, nat> {
    map k | k in statements :: statements[k].calls
  }

  function Errors(statements: map<Statement, Aggregate>): map<Statement, nat> {
    map k | k in statements :: statements[k].errors
  }

  /** The calls and errors of the tracked statements add up to all query ends and all failures. */
  lemma TotalsAgree(ends: seq<End>, maxStatements: nat)
    ensures var tracked := Tally(ends, maxStatements).statements;
      && Sum(tracked.Keys, Calls(tracked)) == |ends|
      && Sum(tracked.Keys, Errors(tracked)) == |FailedEnds(ends)|
  {
    var b := Tally(ends, maxStatements);
    TallyAgrees(ends, maxStatements);
    Recorded(ends, maxStatements);
    var keys := b.statements.Keys;
    NamesPartitionSamples(keys, b.samples, ALL);
    NamesPartitionSamples(keys, b.samples, FAILED);
    SumSame(keys, Calls(b.statements), NumbersByName(keys, b.samples, ALL));
    SumSame(keys, Errors(b.statements), NumbersByName(keys, b.samples, FAILED));
    AllMatch(b.samples);
  }

  lemma {:induction false} AllMatch(samples: seq<Sample>)
    ensures Number(samples, ALL) == |samples|
  {
    if samples != [] { AllMatch(samples[..|samples| - 1]); }
  }

  function RecentCalls(rows: map<Statement, Row>): map<Statement, nat> {
    map k | k in rows :: rows[k].recent.calls
  }

  function RecentErrors(rows: map<Statement, Row>): map<Statement, nat> {
    map k | k in rows :: rows[k].recent.errors
  }

  // The rows of a snapshot, as TakeSnapshot promises them.
  ghost predicate RowsOf(rows: map<Statement, Row>, b: Book, maxSamples: nat, now: int) {
    && rows.Keys == b.statements.Keys
    && forall name <- rows :: rows[name] == Row(b.statements[name], RecentOf(Latest(b.samples, maxSamples), now, name))
  }

  /** The rows of a snapshot account for every sample in the window: no query is missing from them. */
  lemma RecentViewIsComplete(ends: seq<End>, maxStatements: nat, maxSamples: nat, now: int, rows: map<Statement, Row>)
    requires RowsOf(rows, Tally(ends, maxStatements), maxSamples, now)
    ensures var recent := Latest(Tally(ends, maxStatements).samples, maxSamples);
      && Sum(rows.Keys, RecentCalls(rows)) == Number(recent, Query(Some(now), None, false))
      && Sum(rows.Keys, RecentErrors(rows)) == Number(recent, Query(Some(now), None, true))
  {
    var b := Tally(ends, maxStatements);
    var recent, keys := Latest(b.samples, maxSamples), rows.Keys;
    Recorded(ends, maxStatements);
    assert forall s <- recent :: s in b.samples;
    var calls, errors := Query(Some(now), None, false), Query(Some(now), None, true);
    NamesPartitionSamples(keys, recent, calls);
    NamesPartitionSamples(keys, recent, errors);
    SumSame(keys, RecentCalls(rows), NumbersByName(keys, recent, calls));
    SumSame(keys, RecentErrors(rows), NumbersByName(keys, recent, errors));
  }

  // ---- The window --------------------------------------------------------------------------------

  // The sample was taken in the minute before `now`, of the statement if one is given, and failed if asked.
  predicate InLastMinute(s: Sample, now: int, name: Option<Statement>, failed: bool) {
    && s.at != 0 && now - s.at <= 60 * 1_000_000_000
    && (name.Some? ==> s.statement == name.value) && (failed ==> s.err)
  }

  /** What a snapshot counts are the samples of the last minute: it lists their durations in their order. */
  lemma {:induction false} WindowMeans(samples: seq<Sample>, now: int, name: Option<Statement>, failed: bool)
    returns (at: seq<nat>)
    ensures forall i, j :: 0 <= i < j < |at| ==> at[i] < at[j]
    ensures forall i :: i in at <==> 0 <= i < |samples| && InLastMinute(samples[i], now, name, failed)
    ensures Number(samples, Query(Some(now), name, failed)) == |at|
    ensures |Durations(samples, Query(Some(now), name, failed))| == |at|
    ensures forall k :: 0 <= k < |at| ==>
      at[k] < |samples| && Durations(samples, Query(Some(now), name, failed))[k] == samples[at[k]].duration
  {
    at := [];
    if samples != [] {
      var n: nat := |samples| - 1;
      at := WindowMeans(samples[..n], now, name, failed);
      ghost var before := at;
      WindowNext(samples, n, now, name, failed);
      if InLastMinute(samples[n], now, name, failed) { at := at + [n]; }
      assert forall i :: i in at <==> i in before || (i == n && InLastMinute(samples[n], now, name, failed));
    }
  }

  lemma WindowNext(samples: seq<Sample>, n: nat, now: int, name: Option<Statement>, failed: bool)
    requires |samples| == n + 1
    ensures var s, q := samples[n], Query(Some(now), name, failed);
      && Number(samples, q) == Number(samples[..n], q) + (if InLastMinute(s, now, name, failed) then 1 else 0)
      && Durations(samples, q)
         == Durations(samples[..n], q) + if InLastMinute(s, now, name, failed) then [s.duration] else []
  {
    assert Matches(samples[n], Query(Some(now), name, failed)) <==> InLastMinute(samples[n], now, name, failed);
  }

  // ---- Percentiles -----------------------------------------------------------------------------

  // percentile, for the quantile num/den of a list that is already sorted.
  function Percentile(values: seq<int>, num: nat, den: nat): int
    requires den > 0
  {
    if values == [] then 0
    else
      var idx := (|values| - 1) * num / den;
      if idx >= |values| then values[|values| - 1] else values[idx]
  }

  predicate Sorted(values: seq<int>) {
    forall i, j :: 0 <= i < j < |values| ==> values[i] <= values[j]
  }

  function AtMost(values: seq<int>, x: int): nat {
    if values == [] then 0 else AtMost(values[..|values| - 1], x) + if values[|values| - 1] <= x then 1 else 0
  }

  /** The result is one of the values: more values than the given share of the gaps lie at or below it, and
      no more than that share below it. */
  lemma PercentileRank(values: seq<int>, num: nat, den: nat)
    requires den > 0 && num <= den && values != [] && Sorted(values)
    ensures Percentile(values, num, den) in values
    ensures AtMost(values, Percentile(values, num, den)) * den > (|values| - 1) * num
    ensures Under(values, Percentile(values, num, den)) * den <= (|values| - 1) * num
  {
    var gaps := (|values| - 1) * num;
    Index(|values| - 1, num, den);
    var p := values[gaps / den];
    assert Percentile(values, num, den) == p;
    FirstAreAtMost(values, gaps / den + 1, p);
    Above(gaps, den, AtMost(values, p));
    LaterAreNotUnder(values, gaps / den, p);
    More(Under(values, p), gaps / den, den);
    Rounded(gaps, den);
  }

  lemma Rounded(a: nat, den: nat)
    requires den > 0
    ensures a / den * den <= a
  {
  }

  // How many of the values are smaller.
  function Under(values: seq<int>, x: int): nat {
    if values == [] then 0 else Under(values[..|values| - 1], x) + if values[|values| - 1] < x then 1 else 0
  }

  lemma {:induction false} LaterAreNotUnder(values: seq<int>, k: nat, x: int)
    requires k <= |values| && forall i :: k <= i < |values| ==> values[i] >= x
    ensures Under(values, x) <= k
  {
    if values != [] {
      LaterAreNotUnder(values[..|values| - 1], if k == |values| then k - 1 else k, x);
    }
  }

  lemma Index(n: nat, num: nat, den: nat)
    requires den > 0 && num <= den
    ensures 0 <= n * num / den <= n
  {
    assert n * num <= n * den by { More(num, den, n); }
    Below(n * num, n, den);
  }

  lemma Below(a: nat, n: nat, den: nat)
    requires den > 0 && a <= n * den
    ensures 0 <= a / den <= n
  {
    if a / den > n {
      More(n + 1, a / den, den);
      assert false;
    }
  }

  lemma More(a: nat, b: nat, den: nat)
    requires a <= b
    ensures a * den <= b * den
  {
  }

  lemma Above(a: nat, den: nat, count: nat)
    requires den > 0 && count >= a / den + 1
    ensures count * den > a
  {
    More(a / den + 1, count, den);
  }

  lemma {:induction false} FirstAreAtMost(values: seq<int>, k: nat, x: int)
    requires k <= |values| && forall i :: 0 <= i < k ==> values[i] <= x
    ensures AtMost(values, x) >= k
  {
    if values != [] {
      FirstAreAtMost(values[..|values| - 1], if k == |values| then k - 1 else k, x);
    }
  }
}
