/**
 Whom the login guard lets in, exactly: a bucket gives a token unless some stretch of time up to now
 would hold more tokens than its burst and one for each refill.  Stated on the calls alone, without
 buckets.
 */
module LoginGuardAdmission {
  import opened Wrappers
  import opened LoginGuard
  import opened LoginGuardTheorems

  // From each token given on, counting the one asked for, there are at most `burst` and one more for each
  // interval since.
  predicate Room(given: seq<int>, burst: int, interval: int, now: int) {
    forall j :: 0 <= j < |given| ==> (|given| - j + 1) * interval <= burst * interval + now - given[j]
  }

  function AddressGives(given: seq<int>, op: Op, ip: Key): seq<int> {
    if op.Allow? && op.ip == ip && Room(given, 10, 30 * 1_000_000_000, op.now) then given + [op.now] else given
  }

  // When an address was given tokens, after those given before.
  function AddressTokens(ops: seq<Op>, ip: Key, given: seq<int>): seq<int>
    decreases |ops|
  {
    if ops == [] then given else AddressTokens(ops[1..], ip, AddressGives(given, ops[0], ip))
  }

  function AccountGives(given: seq<int>, op: Op, name: Key): seq<int> {
    if op == Clear(name) then []
    else if op.Allow? && op.account == name && Room(given, 5, 180 * 1_000_000_000, op.now) then given + [op.now]
    else given
  }

  // When an account was given tokens since it was last cleared.
  function AccountTokens(ops: seq<Op>, name: Key, given: seq<int>): seq<int>
    decreases |ops|
  {
    if ops == [] then given else AccountTokens(ops[1..], name, AccountGives(given, ops[0], name))
  }

  // ---- What a bucket holds ---------------------------------------------------------------

  // The level of a bucket that gave tokens at these times.
  function Level(given: seq<int>, limit: Limit, t: int): int {
    if given == [] then limit.Full()
    else
      var n := |given| - 1;
      Least(limit.Full(), Level(given[..n], limit, given[n]) - limit.interval + t - given[n])
  }

  lemma {:induction false} LevelAtLeast(given: seq<int>, limit: Limit, t: int, x: int)
    ensures Level(given, limit, t) >= x <==>
      && limit.Full() >= x
      && forall j :: 0 <= j < |given| ==> limit.Full() - (|given| - j) * limit.interval + t - given[j] >= x
    decreases |given|
  {
    if given != [] {
      var n, i := |given| - 1, limit.interval;
      var before, x' := given[..n], x + i - t + given[n];
      LevelAtLeast(before, limit, given[n], x');
      assert 1 * i == i && |given| - n == 1;
      forall j | 0 <= j < n
        ensures limit.Full() - (n - j) * i + given[n] - before[j] >= x'
          <==> limit.Full() - (|given| - j) * i + t - given[j] >= x
      {
        assert (|given| - j) * i == (n - j) * i + i;
      }
    }
  }

  lemma RoomIsAToken(given: seq<int>, limit: Limit, now: int)
    requires limit.Full() >= limit.interval
    ensures Room(given, limit.burst, limit.interval, now) <==> Level(given, limit, now) >= limit.interval
  {
    LevelAtLeast(given, limit, now, limit.interval);
    assert limit.Full() == limit.burst * limit.interval;
    forall j | 0 <= j < |given|
      ensures (|given| - j + 1) * limit.interval <= limit.burst * limit.interval + now - given[j]
        <==> limit.Full() - (|given| - j) * limit.interval + now - given[j] >= limit.interval
    {
      assert (|given| - j + 1) * limit.interval == (|given| - j) * limit.interval + limit.interval;
    }
  }

  lemma LevelOfNext(given: seq<int>, limit: Limit, now: int, t: int)
    ensures Level(given + [now], limit, t) == Least(limit.Full(), Level(given, limit, now) - limit.interval + t - now)
  {
    assert (given + [now])[..|given|] == given;
  }

  // The level rises with time up to the full bucket.
  lemma LevelRises(given: seq<int>, limit: Limit, now: int, t: int)
    requires now <= t && Level(given, limit, now) <= limit.Full()
    ensures Level(given, limit, t) == Least(limit.Full(), Level(given, limit, now) + t - now)
  {
  }

  ghost predicate Matches(entries: Entries, key: Key, limit: Limit, given: seq<int>, clock: int) {
    forall t :: t >= clock ==> View(entries, key, limit, t) == Level(given, limit, t)
  }

  // The sweep changes nothing.
  lemma SweptMatches(
    entries: Entries, aged: Entries, keys: set<Key>, key: Key, limit: Limit, given: seq<int>, clock: int, now: int)
    requires Usable(limit) && Sane(entries, limit, clock) && clock <= now && Matches(entries, key, limit, given, clock)
    requires aged == entries || aged == Unexpired(entries, now)
    requires forall k <- aged :: k !in keys ==> View(entries, k, limit, now) == limit.Full()
    ensures Sane(Only(aged, keys), limit, now) && Matches(Only(aged, keys), key, limit, given, now)
  {
    SweptAgrees(entries, aged, keys, limit, clock, now);
    forall t | t >= now ensures View(Only(aged, keys), key, limit, t) == Level(given, limit, t) {
      assert View(Only(aged, keys), key, limit, t) == View(entries, key, limit, t);
    }
  }

  // One attempt on a bucket of another key, and on its own.
  lemma OtherAttempt(swept: Entries, key: Key, who: Key, limit: Limit, given: seq<int>, now: int)
    requires Usable(limit) && Sane(swept, limit, now) && Matches(swept, key, limit, given, now) && who != key
    ensures Matches(Attempt(swept, who, limit, now).0, key, limit, given, now)
  {
    AttemptView(swept, who, limit, now, now);
    var attempt := Attempt(swept, who, limit, now);
    forall t | t >= now ensures View(attempt.0, key, limit, t) == Level(given, limit, t) {
      assert View(attempt.0, key, limit, t) == View(swept, key, limit, t);
    }
  }

  lemma OwnAttempt(swept: Entries, key: Key, limit: Limit, given: seq<int>, now: int)
    requires Usable(limit) && Sane(swept, limit, now) && Matches(swept, key, limit, given, now)
    ensures var attempt, token := Attempt(swept, key, limit, now), Level(given, limit, now) >= limit.interval;
      attempt.1 == token && Matches(attempt.0, key, limit, if token then given + [now] else given, now)
  {
    AttemptView(swept, key, limit, now, now);
    ViewRises(swept, key, limit, now, now);
    assert View(swept, key, limit, now) == Level(given, limit, now);
    var attempt := Attempt(swept, key, limit, now);
    forall t | t >= now
      ensures View(attempt.0, key, limit, t) == Level(if attempt.1 then given + [now] else given, limit, t)
    {
      LevelOfNext(given, limit, now, t);
      LevelRises(given, limit, now, t);
    }
  }

  // What one attempt on a swept map does to one bucket.
  lemma AttemptMatches(
    entries: Entries, aged: Entries, keys: set<Key>, key: Key, who: Key, limit: Limit, given: seq<int>, clock: int,
    now: int)
    requires Usable(limit) && Sane(entries, limit, clock) && clock <= now && Matches(entries, key, limit, given, clock)
    requires aged == entries || aged == Unexpired(entries, now)
    requires forall k <- aged :: k !in keys ==> View(entries, k, limit, now) == limit.Full()
    ensures var attempt, room := Attempt(Only(aged, keys), who, limit, now),
                                Room(given, limit.burst, limit.interval, now);
      && (who == key ==> attempt.1 == room)
      && Matches(attempt.0, key, limit, if who == key && room then given + [now] else given, now)
  {
    SweptMatches(entries, aged, keys, key, limit, given, clock, now);
    RoomIsAToken(given, limit, now);
    if who == key { OwnAttempt(Only(aged, keys), key, limit, given, now); }
    else { OtherAttempt(Only(aged, keys), key, who, limit, given, now); }
  }

  // ---- Runs ----------------------------------------------------------------------------

  ghost predicate BothMatch(m: Maps, ip: Key, name: Key, a: seq<int>, b: seq<int>, clock: int) {
    Matches(m.ip, ip, IP_LIMIT, a, clock) && Matches(m.account, name, ACCOUNT_LIMIT, b, clock)
  }

  lemma StepMatches(m: Maps, op: Op, ip: Key, name: Key, a: seq<int>, b: seq<int>, clock: int)
    requires SaneMaps(m, clock) && clock <= Clock(op, clock) && Harmless(m, op) && BothMatch(m, ip, name, a, b, clock)
    ensures BothMatch(Next(m, op), ip, name, AddressGives(a, op, ip), AccountGives(b, op, name), Clock(op, clock))
    ensures op.Allow? && op.ip == ip && op.account == name ==>
      Answer(m, op) == Some(Room(a, 10, 30 * 1_000_000_000, op.now) && Room(b, 5, 180 * 1_000_000_000, op.now))
  {
    if op.Allow? {
      var aged := Aged(m, op.now);
      AttemptMatches(m.ip, aged.ip, op.ips, ip, op.ip, IP_LIMIT, a, clock, op.now);
      AttemptMatches(m.account, aged.account, op.accounts, name, op.account, ACCOUNT_LIMIT, b, clock, op.now);
    }
  }

  lemma {:induction false} RunMatches(m: Maps, ops: seq<Op>, ip: Key, name: Key, a: seq<int>, b: seq<int>, clock: int)
    requires SaneMaps(m, clock) && Forward(ops, clock) && AllHarmless(m, ops) && BothMatch(m, ip, name, a, b, clock)
    ensures var end := EndClock(ops, clock);
      && SaneMaps(Run(m, ops), end)
      && BothMatch(Run(m, ops), ip, name, AddressTokens(ops, ip, a), AccountTokens(ops, name, b), end)
    decreases |ops|
  {
    if ops != [] {
      NextSane(m, ops[0], clock);
      StepMatches(m, ops[0], ip, name, a, b, clock);
      RunMatches(Next(m, ops[0]), ops[1..], ip, name, AddressGives(a, ops[0], ip), AccountGives(b, ops[0], name),
                 Clock(ops[0], clock));
    }
  }

  /**
   Admission, exactly: after any calls in which the overflow loop evicts no bucket that is still filling,
   Allow lets an attempt in if and only if both buckets have room: for the address, no stretch up to now
   holds more than 10 tokens and one for each 30 seconds, and for the account, since it was last cleared,
   none more than 5 and one for each 180 seconds.
   */
  lemma AdmittedIff(ops: seq<Op>, op: Op, clock: int)
    requires Forward(ops, clock) && AllHarmless(Empty(), ops) && op.Allow?
    requires EndClock(ops, clock) <= op.now && Harmless(Run(Empty(), ops), op)
    ensures Answer(Run(Empty(), ops), op) == Some(
      && Room(AddressTokens(ops, op.ip, []), 10, 30 * 1_000_000_000, op.now)
      && Room(AccountTokens(ops, op.account, []), 5, 180 * 1_000_000_000, op.now))
  {
    RunMatches(Empty(), ops, op.ip, op.account, [], [], clock);
    StepMatches(Run(Empty(), ops), op, op.ip, op.account,
                AddressTokens(ops, op.ip, []), AccountTokens(ops, op.account, []), EndClock(ops, clock));
  }

  // ---- The burst -----------------------------------------------------------------------

  // The attempts from an address, and those on an account since it was last cleared.
  function FromAddress(ops: seq<Op>, ip: Key): nat {
    if ops == [] then 0
    else (if ops[|ops| - 1].Allow? && ops[|ops| - 1].ip == ip then 1 else 0) + FromAddress(ops[..|ops| - 1], ip)
  }

  function OnAccount(ops: seq<Op>, name: Key): nat {
    if ops == [] || ops[|ops| - 1] == Clear(name) then 0
    else (if ops[|ops| - 1].Allow? && ops[|ops| - 1].account == name then 1 else 0) + OnAccount(ops[..|ops| - 1], name)
  }

  lemma {:induction false} TokensAppend(ops: seq<Op>, op: Op, ip: Key, name: Key, a: seq<int>, b: seq<int>)
    ensures AddressTokens(ops + [op], ip, a) == AddressGives(AddressTokens(ops, ip, a), op, ip)
    ensures AccountTokens(ops + [op], name, b) == AccountGives(AccountTokens(ops, name, b), op, name)
    decreases |ops|
  {
    if ops == [] {
      assert ([] + [op])[1..] == [] && ([] + [op])[0] == op;
    } else {
      assert (ops + [op])[1..] == ops[1..] + [op] && (ops + [op])[0] == ops[0];
      TokensAppend(ops[1..], op, ip, name, AddressGives(a, ops[0], ip), AccountGives(b, ops[0], name));
    }
  }

  ghost predicate Until(given: seq<int>, clock: int) {
    forall j :: 0 <= j < |given| ==> given[j] <= clock
  }

  ghost predicate FewTokens(ops: seq<Op>, ip: Key, name: Key, clock: int) {
    && |AddressTokens(ops, ip, [])| <= FromAddress(ops, ip) && |AccountTokens(ops, name, [])| <= OnAccount(ops, name)
    && Until(AddressTokens(ops, ip, []), clock) && Until(AccountTokens(ops, name, []), clock)
  }

  lemma FewTokensNext(ops: seq<Op>, op: Op, ip: Key, name: Key, clock: int)
    requires FewTokens(ops, ip, name, clock) && clock <= Clock(op, clock)
    ensures FewTokens(ops + [op], ip, name, Clock(op, clock))
  {
    TokensAppend(ops, op, ip, name, [], []);
    assert (ops + [op])[..|ops|] == ops && (ops + [op])[|ops|] == op;
  }

  lemma {:induction false} TokensAreAttempts(ops: seq<Op>, ip: Key, name: Key, clock: int)
    requires Forward(ops, clock)
    ensures FewTokens(ops, ip, name, EndClock(ops, clock))
    decreases |ops|
  {
    if ops != [] {
      var before, op := ops[..|ops| - 1], ops[|ops| - 1];
      assert ops == before + [op];
      ForwardAppend(before, op, clock);
      TokensAreAttempts(before, ip, name, clock);
      FewTokensNext(before, op, ip, name, EndClock(before, clock));
    }
  }

  lemma {:induction false} ForwardAppend(ops: seq<Op>, op: Op, clock: int)
    requires Forward(ops + [op], clock)
    ensures Forward(ops, clock) && EndClock(ops, clock) <= EndClock(ops + [op], clock)
    ensures EndClock(ops + [op], clock) == Clock(op, EndClock(ops, clock))
    decreases |ops|
  {
    if ops == [] {
      assert ([] + [op])[1..] == [] && ([] + [op])[0] == op;
    } else {
      assert (ops + [op])[1..] == ops[1..] + [op] && (ops + [op])[0] == ops[0];
      ForwardAppend(ops[1..], op, Clock(ops[0], clock));
    }
  }

  lemma RoomForBurst(given: seq<int>, burst: int, interval: int, now: int)
    requires |given| < burst && interval > 0 && Until(given, now)
    ensures Room(given, burst, interval, now)
  {
    forall j | 0 <= j < |given| ensures (|given| - j + 1) * interval <= burst * interval + now - given[j] {
      NoLess(interval, |given| - j + 1, burst);
    }
  }

  /** Fewer than ten earlier attempts from the address and fewer than five on the account, since it was last
      cleared, are never in the way of another. */
  lemma BurstIsAdmitted(ops: seq<Op>, op: Op, clock: int)
    requires Forward(ops, clock) && AllHarmless(Empty(), ops) && op.Allow?
    requires EndClock(ops, clock) <= op.now && Harmless(Run(Empty(), ops), op)
    requires FromAddress(ops, op.ip) < 10 && OnAccount(ops, op.account) < 5
    ensures Answer(Run(Empty(), ops), op) == Some(true)
  {
    AdmittedIff(ops, op, clock);
    TokensAreAttempts(ops, op.ip, op.account, clock);
    RoomForBurst(AddressTokens(ops, op.ip, []), 10, 30 * 1_000_000_000, op.now);
    RoomForBurst(AccountTokens(ops, op.account, []), 5, 180 * 1_000_000_000, op.now);
  }

  // Attempts at one instant on one account, from whatever addresses.
  predicate AtOnce(ops: seq<Op>, name: Key, now: int) {
    forall k :: 0 <= k < |ops| ==> ops[k].Allow? && ops[k].account == name && ops[k].now == now
  }

  lemma {:induction false} TokensAtOnce(ops: seq<Op>, name: Key, now: int)
    requires AtOnce(ops, name, now)
    ensures var given := AccountTokens(ops, name, []);
      |given| == (if |ops| < 5 then |ops| else 5) && forall j :: 0 <= j < |given| ==> given[j] == now
    decreases |ops|
  {
    if ops != [] {
      var before, op := ops[..|ops| - 1], ops[|ops| - 1];
      assert ops == before + [op];
      TokensAtOnce(before, name, now);
      TokensAppend(before, op, "", name, [], []);
      FullAtOnce(AccountTokens(before, name, []), now);
    }
  }

  lemma FullAtOnce(given: seq<int>, now: int)
    requires |given| <= 5 && forall j :: 0 <= j < |given| ==> given[j] == now
    ensures Room(given, 5, 180 * 1_000_000_000, now) <==> |given| < 5
  {
    if |given| < 5 {
      RoomForBurst(given, 5, 180 * 1_000_000_000, now);
    } else {
      assert given[0] == now;
    }
  }

  /** Of attempts at one instant on a new account the first five are let in, as far as the account goes, and
      no more. */
  lemma SixthAtOnceIsRefused(ops: seq<Op>, op: Op, name: Key, now: int)
    requires op.Allow? && AtOnce(ops + [op], name, now) && Forward(ops, now) && AllHarmless(Empty(), ops)
    requires EndClock(ops, now) <= now && Harmless(Run(Empty(), ops), op)
    ensures Answer(Run(Empty(), ops), op) ==
      Some(|ops| < 5 && Room(AddressTokens(ops, op.ip, []), 10, 30 * 1_000_000_000, now))
  {
    assert (ops + [op])[|ops|] == op && forall k :: 0 <= k < |ops| ==> (ops + [op])[k] == ops[k];
    AdmittedIff(ops, op, now);
    TokensAtOnce(ops, name, now);
    FullAtOnce(AccountTokens(ops, name, []), now);
  }

  // ---- What the sweep drops --------------------------------------------------------------

  /** The sweep keeps both maps while they have at most 4096 entries together.  Otherwise it drops exactly the
      entries not seen for an hour, and of the rest, if they are still more, some addresses, and accounts
      only when no address is left. */
  lemma SweepDrops(m: Maps, op: Op)
    requires op.Allow? && Possible(m, op)
    ensures |m.ip| + |m.account| <= 4096 ==> Swept(m, op) == m
    ensures forall k <- Swept(m, op).ip :: k in m.ip && Swept(m, op).ip[k] == m.ip[k]
    ensures forall k <- Swept(m, op).account :: k in m.account && Swept(m, op).account[k] == m.account[k]
    ensures |m.ip| + |m.account| > 4096 ==>
      var cutoff := op.now - 60 * 60 * 1_000_000_000;
      var s := Swept(m, op);
      && (forall k <- s.ip :: s.ip[k].lastSeen >= cutoff) && (forall k <- s.account :: s.account[k].lastSeen >= cutoff)
      && |s.ip| + |s.account| <= 4096
      && (|s.ip| + |s.account| < 4095 || s.ip != map[] ==>
            forall k <- m.account :: m.account[k].lastSeen >= cutoff ==> k in s.account)
      && (|s.ip| + |s.account| < 4095 ==> forall k <- m.ip :: m.ip[k].lastSeen >= cutoff ==> k in s.ip)
  {
    var aged, s := Aged(m, op.now), Swept(m, op);
    if Size(aged) <= MAX_KEYS { assert s == aged; }
  }

  /** An attempt marks both entries as seen now, let in or not. */
  lemma AttemptIsSeen(m: Maps, op: Op)
    requires op.Allow?
    ensures var t := Next(m, op);
      && op.ip in t.ip && t.ip[op.ip].lastSeen == op.now
      && op.account in t.account && t.account[op.account].lastSeen == op.now
      && (forall k :: k != op.ip ==> (k in t.ip <==> k in Swept(m, op).ip) && (k in t.ip ==> t.ip[k] == m.ip[k]))
      && (forall k :: k != op.account ==>
            (k in t.account <==> k in Swept(m, op).account) && (k in t.account ==> t.account[k] == m.account[k]))
  {
  }
}
