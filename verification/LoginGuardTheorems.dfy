/**
 What the login guard admits: a swept bucket is one that would have been full anyway, so only
 the overflow eviction can change an answer, and every key is held to its burst and refill rate.
 */
module LoginGuardTheorems {
  import opened Wrappers
  import opened LoginGuard

  // The tokens an attempt on the key would find at a time.
  function View(entries: Entries, key: Key, limit: Limit, now: int): int {
    if key in entries then Available(entries[key], limit, now) else limit.Full()
  }

  ghost predicate Sane(entries: Entries, limit: Limit, clock: int) {
    forall k <- entries :: 0 <= entries[k].level <= limit.Full() && entries[k].last <= entries[k].lastSeen <= clock
  }

  ghost predicate SaneMaps(m: Maps, clock: int) {
    Sane(m.ip, IP_LIMIT, clock) && Sane(m.account, ACCOUNT_LIMIT, clock)
  }

  // ---- One bucket ----------------------------------------------------------------------

  function Least(a: int, b: int): int {
    if a < b then a else b
  }

  predicate Usable(limit: Limit) {
    limit.interval > 0 && limit.burst > 0 && limit.interval <= limit.Full() <= KEY_TTL
  }

  lemma AttemptView(entries: Entries, key: Key, limit: Limit, clock: int, now: int)
    requires Usable(limit) && Sane(entries, limit, clock) && clock <= now
    ensures Sane(Attempt(entries, key, limit, now).0, limit, now)
    ensures Attempt(entries, key, limit, now).1 <==> View(entries, key, limit, now) >= limit.interval
    ensures forall k, t :: t >= now && k != key ==>
      View(Attempt(entries, key, limit, now).0, k, limit, t) == View(entries, k, limit, t)
    ensures forall t :: t >= now ==>
      View(Attempt(entries, key, limit, now).0, key, limit, t)
      == Least(limit.Full(), View(entries, key, limit, now)
                             - (if Attempt(entries, key, limit, now).1 then limit.interval else 0) + t - now)
  {
  }

  lemma ViewRises(entries: Entries, key: Key, limit: Limit, clock: int, now: int)
    requires Usable(limit) && Sane(entries, limit, clock) && clock <= now
    ensures View(entries, key, limit, clock) <= View(entries, key, limit, now)
    ensures View(entries, key, limit, now) <= View(entries, key, limit, clock) + now - clock
    ensures 0 <= View(entries, key, limit, clock) <= limit.Full()
  {
  }

  /** An expired bucket has had an hour to fill, and the slowest needs a quarter of that. */
  lemma ExpiryIsInvisible(entries: Entries, key: Key, limit: Limit, clock: int, now: int, t: int)
    requires Usable(limit) && Sane(entries, limit, clock) && clock <= now <= t
    ensures View(Unexpired(entries, now), key, limit, t) == View(entries, key, limit, t)
  {
  }

  // ---- Dropping a bucket ---------------------------------------------------------------

  predicate Rising(times: seq<int>, from: int) {
    times != [] ==> from <= times[0] && Rising(times[1..], times[0])
  }

  // The answers to attempts on one key at the given times.
  function Grants(entries: Entries, key: Key, limit: Limit, times: seq<int>): (r: seq<bool>)
    ensures |r| == |times|
    decreases |times|
  {
    if times == [] then []
    else
      var attempt := Attempt(entries, key, limit, times[0]);
      [attempt.1] + Grants(attempt.0, key, limit, times[1..])
  }

  ghost predicate Unnoticed(entries: Entries, key: Key, limit: Limit, now: int) {
    forall times: seq<int> | Rising(times, now) ::
      Grants(entries - {key}, key, limit, times) == Grants(entries, key, limit, times)
  }

  /** Forgetting a key can be noticed by later attempts exactly when its bucket was not full. */
  lemma DropUnnoticedIffFull(entries: Entries, key: Key, limit: Limit, now: int)
    requires Usable(limit) && Sane(entries, limit, now)
    ensures Unnoticed(entries, key, limit, now) <==> View(entries, key, limit, now) == limit.Full()
  {
    if View(entries, key, limit, now) == limit.Full() {
      forall times: seq<int> | Rising(times, now)
        ensures Grants(entries - {key}, key, limit, times) == Grants(entries, key, limit, times)
      {
        SameGrants(entries - {key}, entries, key, limit, now, times);
      }
    } else {
      BurstTells(entries, key, limit, now);
    }
  }

  lemma {:induction false} SameGrants(a: Entries, b: Entries, key: Key, limit: Limit, now: int, times: seq<int>)
    requires Usable(limit) && Sane(a, limit, now) && Sane(b, limit, now) && Rising(times, now)
    requires View(a, key, limit, now) == View(b, key, limit, now)
    ensures Grants(a, key, limit, times) == Grants(b, key, limit, times)
    decreases |times|
  {
    if times != [] {
      var t := times[0];
      SameRise(a, b, key, limit, now, t);
      AttemptView(a, key, limit, now, t);
      AttemptView(b, key, limit, now, t);
      SameGrants(Attempt(a, key, limit, t).0, Attempt(b, key, limit, t).0, key, limit, t, times[1..]);
    }
  }

  lemma SameRise(a: Entries, b: Entries, key: Key, limit: Limit, now: int, t: int)
    requires Usable(limit) && Sane(a, limit, now) && Sane(b, limit, now) && now <= t
    requires View(a, key, limit, now) == View(b, key, limit, now)
    ensures View(a, key, limit, t) == View(b, key, limit, t)
  {
  }

  function Together(n: nat, now: int): (times: seq<int>)
    ensures |times| == n && Rising(times, now)
  {
    if n == 0 then [] else [now] + Together(n - 1, now)
  }

  // As many attempts at once as the burst allows: a full bucket grants them all, another does not.
  lemma BurstTells(entries: Entries, key: Key, limit: Limit, now: int)
    requires Usable(limit) && Sane(entries, limit, now) && View(entries, key, limit, now) != limit.Full()
    ensures !Unnoticed(entries, key, limit, now)
  {
    var n: nat := limit.burst;
    var times := Together(n, now);
    LastOfBurst(entries - {key}, key, limit, now, n);
    LastOfBurst(entries, key, limit, now, n);
    assert limit.Full() == limit.interval * n;
    assert Grants(entries - {key}, key, limit, times)[n - 1] != Grants(entries, key, limit, times)[n - 1];
  }

  lemma {:induction false} LastOfBurst(entries: Entries, key: Key, limit: Limit, now: int, n: nat)
    requires Usable(limit) && Sane(entries, limit, now) && n > 0
    ensures var grants := Grants(entries, key, limit, Together(n, now));
      grants[n - 1] <==> View(entries, key, limit, now) >= limit.interval * n
    decreases n
  {
    AttemptView(entries, key, limit, now, now);
    var attempt := Attempt(entries, key, limit, now);
    assert Together(n, now)[1..] == Together(n - 1, now);
    if n > 1 {
      LastOfBurst(attempt.0, key, limit, now, n - 1);
      assert limit.interval * n == limit.interval * (n - 1) + limit.interval;
      assert limit.interval * (n - 1) >= limit.interval by { Grows(limit.interval, n - 1); }
    }
  }

  lemma Grows(a: int, n: nat)
    requires a > 0 && n > 0
    ensures a * n >= a
  {
  }

  // ---- Runs ----------------------------------------------------------------------------

  function Clock(op: Op, clock: int): int {
    if op.Allow? then op.now else clock
  }

  // The clock does not go back.
  predicate Forward(ops: seq<Op>, clock: int) {
    ops != [] ==> clock <= Clock(ops[0], clock) && Forward(ops[1..], Clock(ops[0], clock))
  }

  // Every sweep is one that the guard makes.
  ghost predicate Plays(m: Maps, ops: seq<Op>)
    decreases |ops|
  {
    ops != [] ==> Possible(m, ops[0]) && Plays(Next(m, ops[0]), ops[1..])
  }

  function Run(m: Maps, ops: seq<Op>): Maps
    decreases |ops|
  {
    if ops == [] then m else Run(Next(m, ops[0]), ops[1..])
  }

  function Answers(m: Maps, ops: seq<Op>): seq<Option<bool>>
    decreases |ops|
  {
    if ops == [] then [] else [Answer(m, ops[0])] + Answers(Next(m, ops[0]), ops[1..])
  }

  // The guard that never deletes an idle entry.
  function PlainNext(m: Maps, op: Op): Maps {
    if op.Allow? then Consume(m, op) else Next(m, op)
  }

  function PlainAnswers(m: Maps, ops: seq<Op>): seq<Option<bool>>
    decreases |ops|
  {
    if ops == [] then []
    else [if ops[0].Allow? then Some(Granted(m, ops[0])) else None] + PlainAnswers(PlainNext(m, ops[0]), ops[1..])
  }

  // Every bucket that the overflow loop evicts is full; in particular, none is evicted.
  ghost predicate Harmless(m: Maps, op: Op) {
    op.Allow? ==>
      && (forall k <- Aged(m, op.now).ip :: k !in op.ips ==> View(m.ip, k, IP_LIMIT, op.now) == IP_LIMIT.Full())
      && (forall k <- Aged(m, op.now).account ::
            k !in op.accounts ==> View(m.account, k, ACCOUNT_LIMIT, op.now) == ACCOUNT_LIMIT.Full())
  }

  ghost predicate AllHarmless(m: Maps, ops: seq<Op>)
    decreases |ops|
  {
    ops != [] ==> Harmless(m, ops[0]) && AllHarmless(Next(m, ops[0]), ops[1..])
  }

  ghost predicate Agree(a: Entries, b: Entries, limit: Limit, clock: int) {
    forall k, t :: t >= clock ==> View(a, k, limit, t) == View(b, k, limit, t)
  }

  ghost predicate AgreeMaps(a: Maps, b: Maps, clock: int) {
    Agree(a.ip, b.ip, IP_LIMIT, clock) && Agree(a.account, b.account, ACCOUNT_LIMIT, clock)
  }

  // What the sweep leaves of one map.
  lemma SweptAgrees(entries: Entries, aged: Entries, keys: set<Key>, limit: Limit, clock: int, now: int)
    requires Usable(limit) && Sane(entries, limit, clock) && clock <= now
    requires aged == entries || aged == Unexpired(entries, now)
    requires forall k <- aged :: k !in keys ==> View(entries, k, limit, now) == limit.Full()
    ensures Sane(Only(aged, keys), limit, now) && Agree(Only(aged, keys), entries, limit, now)
  {
    forall k, t | t >= now
      ensures View(Only(aged, keys), k, limit, t) == View(entries, k, limit, t)
    {
      ExpiryIsInvisible(entries, k, limit, clock, now, t);
      if k in aged && k !in keys { ViewRises(entries, k, limit, now, t); }
    }
  }

  lemma AttemptAgrees(a: Entries, b: Entries, key: Key, limit: Limit, now: int)
    requires Usable(limit) && Sane(a, limit, now) && Sane(b, limit, now) && Agree(a, b, limit, now)
    ensures Attempt(a, key, limit, now).1 == Attempt(b, key, limit, now).1
    ensures Agree(Attempt(a, key, limit, now).0, Attempt(b, key, limit, now).0, limit, now)
  {
    AttemptView(a, key, limit, now, now);
    AttemptView(b, key, limit, now, now);
  }

  lemma StepAgrees(m: Maps, plain: Maps, op: Op, clock: int)
    requires SaneMaps(m, clock) && SaneMaps(plain, clock) && AgreeMaps(m, plain, clock)
    requires clock <= Clock(op, clock) && Harmless(m, op)
    ensures SaneMaps(Next(m, op), Clock(op, clock)) && SaneMaps(PlainNext(plain, op), Clock(op, clock))
    ensures AgreeMaps(Next(m, op), PlainNext(plain, op), Clock(op, clock))
    ensures op.Allow? ==> Answer(m, op) == Some(Granted(plain, op))
  {
    if op.Allow? {
      var now := op.now;
      SweptAgrees(m.ip, Aged(m, now).ip, op.ips, IP_LIMIT, clock, now);
      SweptAgrees(m.account, Aged(m, now).account, op.accounts, ACCOUNT_LIMIT, clock, now);
      var swept := Swept(m, op);
      AttemptAgrees(swept.ip, plain.ip, op.ip, IP_LIMIT, now);
      AttemptAgrees(swept.account, plain.account, op.account, ACCOUNT_LIMIT, now);
      AttemptView(swept.ip, op.ip, IP_LIMIT, now, now);
      AttemptView(plain.ip, op.ip, IP_LIMIT, clock, now);
      AttemptView(swept.account, op.account, ACCOUNT_LIMIT, now, now);
      AttemptView(plain.account, op.account, ACCOUNT_LIMIT, clock, now);
    } else {
      ClearAgrees(m.account, plain.account, op.name, ACCOUNT_LIMIT, clock);
    }
  }

  lemma ClearAgrees(a: Entries, b: Entries, key: Key, limit: Limit, clock: int)
    requires Agree(a, b, limit, clock)
    ensures Agree(a - {key}, b - {key}, limit, clock)
  {
    forall k, t | t >= clock
      ensures View(a - {key}, k, limit, t) == View(b - {key}, k, limit, t)
    {
      assert View(a, k, limit, t) == View(b, k, limit, t);
    }
  }

  /**
   The sweep is invisible: while the overflow loop evicts no bucket that is still filling, the
   guard answers every call as one that keeps every entry for ever.
   */
  lemma SweepIsInvisible(ops: seq<Op>, clock: int)
    requires Forward(ops, clock) && AllHarmless(Empty(), ops)
    ensures Answers(Empty(), ops) == PlainAnswers(Empty(), ops)
  {
    AnswersAgree(Empty(), Empty(), ops, clock);
  }

  function Empty(): Maps {
    Maps(map[], map[])
  }

  lemma {:induction false} AnswersAgree(m: Maps, plain: Maps, ops: seq<Op>, clock: int)
    requires SaneMaps(m, clock) && SaneMaps(plain, clock) && AgreeMaps(m, plain, clock)
    requires Forward(ops, clock) && AllHarmless(m, ops)
    ensures Answers(m, ops) == PlainAnswers(plain, ops)
    decreases |ops|
  {
    if ops != [] {
      StepAgrees(m, plain, ops[0], clock);
      AnswersAgree(Next(m, ops[0]), PlainNext(plain, ops[0]), ops[1..], Clock(ops[0], clock));
    }
  }

  /** In particular, when the overflow loop never fires. */
  lemma {:induction false} NoOverflowIsHarmless(m: Maps, ops: seq<Op>)
    requires Plays(m, ops) && NeverOverflows(m, ops)
    ensures AllHarmless(m, ops)
    decreases |ops|
  {
    if ops != [] {
      if ops[0].Allow? {
        var aged := Aged(m, ops[0].now);
        assert Swept(m, ops[0]) == aged;
        assert forall k <- aged.ip :: k in Only(aged.ip, ops[0].ips);
        assert forall k <- aged.account :: k in Only(aged.account, ops[0].accounts);
      }
      NoOverflowIsHarmless(Next(m, ops[0]), ops[1..]);
    }
  }

  ghost predicate NeverOverflows(m: Maps, ops: seq<Op>)
    decreases |ops|
  {
    ops != [] ==>
      (ops[0].Allow? ==> Size(Aged(m, ops[0].now)) <= MAX_KEYS) && NeverOverflows(Next(m, ops[0]), ops[1..])
  }

  // ---- How much a key is let through -----------------------------------------------------

  predicate IpGranted(m: Maps, op: Op, key: Key) {
    op.Allow? && op.ip == key && Granted(Swept(m, op), op)
  }

  predicate AccountGranted(m: Maps, op: Op, name: Key) {
    op.Allow? && op.account == name && Granted(Swept(m, op), op)
  }

  function IpGrants(m: Maps, ops: seq<Op>, key: Key): nat
    decreases |ops|
  {
    if ops == [] then 0
    else (if IpGranted(m, ops[0], key) then 1 else 0) + IpGrants(Next(m, ops[0]), ops[1..], key)
  }

  function AccountGrants(m: Maps, ops: seq<Op>, name: Key): nat
    decreases |ops|
  {
    if ops == [] then 0
    else (if AccountGranted(m, ops[0], name) then 1 else 0) + AccountGrants(Next(m, ops[0]), ops[1..], name)
  }

  function Clears(ops: seq<Op>, name: Key): nat {
    if ops == [] then 0 else (if ops[0] == Clear(name) then 1 else 0) + Clears(ops[1..], name)
  }

  function EndClock(ops: seq<Op>, clock: int): int {
    if ops == [] then clock else EndClock(ops[1..], Clock(ops[0], clock))
  }

  ghost predicate IpKept(m: Maps, ops: seq<Op>, key: Key)
    decreases |ops|
  {
    ops != [] ==>
      (ops[0].Allow? && key in Aged(m, ops[0].now).ip ==> key in ops[0].ips) && IpKept(Next(m, ops[0]), ops[1..], key)
  }

  ghost predicate AccountKept(m: Maps, ops: seq<Op>, name: Key)
    decreases |ops|
  {
    ops != [] ==>
      (ops[0].Allow? && name in Aged(m, ops[0].now).account ==> name in ops[0].accounts)
      && AccountKept(Next(m, ops[0]), ops[1..], name)
  }

  // One call moves a bucket up by no more than the time that passed, and down by a token if it let the key through.
  lemma Charge(entries: Entries, aged: Entries, keys: set<Key>, key: Key, who: Key, limit: Limit, clock: int, now: int)
    requires Usable(limit) && Sane(entries, limit, clock) && clock <= now
    requires aged == entries || aged == Unexpired(entries, now)
    requires key in aged ==> key in keys
    ensures var attempt := Attempt(Only(aged, keys), who, limit, now);
      && Sane(attempt.0, limit, now)
      && View(attempt.0, key, limit, now) + (if who == key && attempt.1 then limit.interval else 0)
         <= View(entries, key, limit, clock) + now - clock
  {
    ExpiryIsInvisible(entries, key, limit, clock, now, now);
    ViewRises(entries, key, limit, clock, now);
    assert View(Only(aged, keys), key, limit, now) == View(entries, key, limit, now);
    AttemptView(Only(aged, keys), who, limit, clock, now);
  }

  lemma IpStep(m: Maps, op: Op, key: Key, clock: int)
    requires SaneMaps(m, clock) && clock <= Clock(op, clock)
    requires op.Allow? && key in Aged(m, op.now).ip ==> key in op.ips
    ensures View(Next(m, op).ip, key, IP_LIMIT, Clock(op, clock)) +
      (if IpGranted(m, op, key) then IP_LIMIT.interval else 0)
      <= View(m.ip, key, IP_LIMIT, clock) + Clock(op, clock) - clock
  {
    if op.Allow? { Charge(m.ip, Aged(m, op.now).ip, op.ips, key, op.ip, IP_LIMIT, clock, op.now); }
  }

  lemma AccountStep(m: Maps, op: Op, name: Key, clock: int)
    requires SaneMaps(m, clock) && clock <= Clock(op, clock)
    requires op.Allow? && name in Aged(m, op.now).account ==> name in op.accounts
    ensures View(Next(m, op).account, name, ACCOUNT_LIMIT, Clock(op, clock))
            + (if AccountGranted(m, op, name) then ACCOUNT_LIMIT.interval else 0)
      <= View(m.account, name, ACCOUNT_LIMIT, clock) + (if op == Clear(name) then ACCOUNT_LIMIT.Full() else 0)
         + Clock(op, clock) - clock
  {
    if op.Allow? {
      Charge(m.account, Aged(m, op.now).account, op.accounts, name, op.account, ACCOUNT_LIMIT, clock, op.now);
    } else {
      ViewRises(m.account, name, ACCOUNT_LIMIT, clock, clock);
    }
  }

  // The tokens that the key was charged, as time.
  function IpSpent(m: Maps, ops: seq<Op>, key: Key): int
    decreases |ops|
  {
    if ops == [] then 0
    else (if IpGranted(m, ops[0], key) then IP_LIMIT.interval else 0) + IpSpent(Next(m, ops[0]), ops[1..], key)
  }

  lemma {:induction false} IpCharge(m: Maps, ops: seq<Op>, key: Key, clock: int)
    requires SaneMaps(m, clock) && Forward(ops, clock) && IpKept(m, ops, key)
    ensures IpSpent(m, ops, key) <= View(m.ip, key, IP_LIMIT, clock) + EndClock(ops, clock) - clock
    decreases |ops|
  {
    if ops == [] {
      ViewRises(m.ip, key, IP_LIMIT, clock, clock);
    } else {
      var op, later := ops[0], Clock(ops[0], clock);
      NextSane(m, op, clock);
      IpStep(m, op, key, clock);
      IpCharge(Next(m, op), ops[1..], key, later);
    }
  }

  lemma {:induction false} IpSpentIs(m: Maps, ops: seq<Op>, key: Key)
    ensures IpSpent(m, ops, key) == IP_LIMIT.interval * IpGrants(m, ops, key)
    decreases |ops|
  {
    if ops != [] {
      IpSpentIs(Next(m, ops[0]), ops[1..], key);
      Add(IP_LIMIT.interval, IpGrants(Next(m, ops[0]), ops[1..], key), IpGranted(m, ops[0], key));
    }
  }

  lemma Add(interval: int, n: int, more: bool)
    ensures interval * ((if more then 1 else 0) + n) == (if more then interval else 0) + interval * n
  {
  }

  lemma NextSane(m: Maps, op: Op, clock: int)
    requires SaneMaps(m, clock) && clock <= Clock(op, clock)
    ensures SaneMaps(Next(m, op), Clock(op, clock))
  {
    if op.Allow? {
      AttemptView(Swept(m, op).ip, op.ip, IP_LIMIT, clock, op.now);
      AttemptView(Swept(m, op).account, op.account, ACCOUNT_LIMIT, clock, op.now);
    }
  }

  lemma {:induction false} AccountCharge(m: Maps, ops: seq<Op>, name: Key, clock: int)
    requires SaneMaps(m, clock) && Forward(ops, clock) && AccountKept(m, ops, name)
    ensures ACCOUNT_LIMIT.interval * AccountGrants(m, ops, name)
      <= View(m.account, name, ACCOUNT_LIMIT, clock) + ACCOUNT_LIMIT.Full() * Clears(ops, name) +
          EndClock(ops, clock) - clock
    decreases |ops|
  {
    if ops == [] {
      ViewRises(m.account, name, ACCOUNT_LIMIT, clock, clock);
    } else {
      var op, later := ops[0], Clock(ops[0], clock);
      NextSane(m, op, clock);
      AccountStep(m, op, name, clock);
      AccountCharge(Next(m, op), ops[1..], name, later);
      Add(ACCOUNT_LIMIT.interval, AccountGrants(Next(m, op), ops[1..], name), AccountGranted(m, op, name));
      Add(ACCOUNT_LIMIT.Full(), Clears(ops[1..], name), op == Clear(name));
    }
  }

  lemma PerInterval(interval: int, n: int, burst: int, length: int)
    requires interval > 0 && interval * n <= interval * burst + length
    ensures n <= burst + length / interval
  {
    assert interval * (n - burst) <= length;
    Quotient(interval, n - burst, length);
  }

  lemma Quotient(interval: int, n: int, length: int)
    requires interval > 0 && interval * n <= length
    ensures n <= length / interval
  {
    var q := length / interval;
    if n > q {
      NoLess(interval, q + 1, n);
      assert false;
    }
  }

  lemma NoLess(interval: int, a: int, b: int)
    requires interval > 0 && a <= b
    ensures interval * a <= interval * b
  {
  }

  /**
   Admission: in a window of any length, from any reachable state, an address whose entry is not
   evicted for room is let through at most its burst and once more for each refill interval.
   */
  lemma AddressBound(past: seq<Op>, window: seq<Op>, key: Key, start: int, clock: int)
    requires Forward(past, start) && clock == EndClock(past, start)
    requires Forward(window, clock) && IpKept(Run(Empty(), past), window, key)
    ensures var length := EndClock(window, clock) - clock;
      IpGrants(Run(Empty(), past), window, key) <= 10 + length / (30 * SECOND)
  {
    RunSane(Empty(), past, start);
    var m := Run(Empty(), past);
    IpCharge(m, window, key, clock);
    IpSpentIs(m, window, key);
    ViewRises(m.ip, key, IP_LIMIT, clock, clock);
    assert IP_LIMIT.Full() == 30 * SECOND * 10;
    PerInterval(30 * SECOND, IpGrants(m, window, key), 10, EndClock(window, clock) - clock);
  }

  /** The same for an account; each successful login on the way gives it a new burst. */
  lemma AccountBound(past: seq<Op>, window: seq<Op>, name: Key, start: int, clock: int)
    requires Forward(past, start) && clock == EndClock(past, start)
    requires Forward(window, clock) && AccountKept(Run(Empty(), past), window, name)
    ensures var length := EndClock(window, clock) - clock;
      AccountGrants(Run(Empty(), past), window, name) <= 5 * (Clears(window, name) + 1) + length / (180 * SECOND)
  {
    RunSane(Empty(), past, start);
    var m := Run(Empty(), past);
    AccountCharge(m, window, name, clock);
    ViewRises(m.account, name, ACCOUNT_LIMIT, clock, clock);
    assert ACCOUNT_LIMIT.Full() == 180 * SECOND * 5;
    PerInterval(180 * SECOND, AccountGrants(m, window, name), 5 * (Clears(window, name) + 1),
        EndClock(window, clock) - clock);
  }

  lemma {:induction false} RunSane(m: Maps, ops: seq<Op>, clock: int)
    requires SaneMaps(m, clock) && Forward(ops, clock)
    ensures SaneMaps(Run(m, ops), EndClock(ops, clock))
    decreases |ops|
  {
    if ops != [] {
      NextSane(m, ops[0], clock);
      RunSane(Next(m, ops[0]), ops[1..], Clock(ops[0], clock));
    }
  }

  // ---- How many keys are kept ------------------------------------------------------------

  /** The two maps never hold more than 4098 entries together. */
  lemma {:induction false} MapsAreBounded(m: Maps, ops: seq<Op>)
    requires Plays(m, ops) && Size(m) <= 4098
    ensures Size(Run(m, ops)) <= 4098
    decreases |ops|
  {
    if ops != [] {
      var op := ops[0];
      match op {
        case Clear(name) =>
          assert (m.account - {name}).Keys == m.account.Keys - {name};
          assert |m.account - {name}| == |(m.account - {name}).Keys| && |m.account| == |m.account.Keys|;
        case Allow(ip, account, now, _, _) =>
          OneMore(Swept(m, op).ip, ip, IP_LIMIT, now);
          OneMore(Swept(m, op).account, account, ACCOUNT_LIMIT, now);
      }
      MapsAreBounded(Next(m, op), ops[1..]);
    }
  }

  lemma OneMore(entries: Entries, key: Key, limit: Limit, now: int)
    ensures |Attempt(entries, key, limit, now).0| <= |entries| + 1
  {
    var after := Attempt(entries, key, limit, now).0;
    assert after.Keys == entries.Keys + {key};
    assert |after| == |after.Keys| && |entries| == |entries.Keys|;
  }
}
