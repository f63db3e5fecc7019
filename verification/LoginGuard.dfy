/**
 Login throttling: one token bucket per source address and one per account, kept in two
 maps that are swept when they grow too large.

 Times are integers.  A bucket is measured in time too: a token is worth the interval in
 which it is refilled, so a bucket of burst tokens is full at burst * interval.
 */
module LoginGuard {
  import opened Wrappers
  import Text

  type Key = string

  const SECOND := 1_000_000_000
  const MAX_KEYS := 4096
  const KEY_TTL := 3600 * SECOND

  datatype Limit = Limit(interval: int, burst: int) {
    function Full(): int { interval * burst }
  }

  const IP_LIMIT := Limit(30 * SECOND, 10)
  const ACCOUNT_LIMIT := Limit(180 * SECOND, 5)

  // A limiter (its tokens when it last granted one) and the time of the last attempt.
  datatype Entry = Entry(level: int, last: int, lastSeen: int)

  type Entries = map<Key, Entry>

  // The tokens a limiter has at a time; a clock that went back refills nothing.
  function Available(e: Entry, limit: Limit, now: int): int {
    var refilled := e.level + if now < e.last then 0 else now - e.last;
    if refilled > limit.Full() then limit.Full() else refilled
  }

  // rate.Limiter.AllowN(now, 1)
  function Take(e: Entry, limit: Limit, now: int): (Entry, bool) {
    var tokens := Available(e, limit, now);
    if tokens >= limit.interval then (e.(level := tokens - limit.interval, last := now), true) else (e, false)
  }

  // allowLoginKey
  function Attempt(entries: Entries, key: Key, limit: Limit, now: int): (Entries, bool) {
    var entry := if key in entries then entries[key] else Entry(limit.Full(), now, now);
    var (taken, ok) := Take(entry.(lastSeen := now), limit, now);
    (entries[key := taken], ok)
  }

  // ---- The guard -----------------------------------------------------------------------

  datatype Maps = Maps(ip: Entries, account: Entries)

  function Unexpired(entries: Entries, now: int): Entries {
    map k | k in entries && entries[k].lastSeen >= now - KEY_TTL :: entries[k]
  }

  function Only(entries: Entries, keys: set<Key>): Entries {
    map k | k in entries && k in keys :: entries[k]
  }

  function Size(m: Maps): nat {
    |m.ip| + |m.account|
  }

  // The sweep by age, made only when the maps are too large.
  function Aged(m: Maps, now: int): Maps {
    if Size(m) <= MAX_KEYS then m else Maps(Unexpired(m.ip, now), Unexpired(m.account, now))
  }

  // A call, with the keys that the sweep left.
  datatype Op = Allow(ip: Key, account: Key, now: int, ips: set<Key>, accounts: set<Key>) | Clear(name: Key)

  function Swept(m: Maps, op: Op): Maps
    requires op.Allow?
  {
    Maps(Only(Aged(m, op.now).ip, op.ips), Only(Aged(m, op.now).account, op.accounts))
  }

  // The overflow loop evicts some addresses, and accounts only when no address is left, until the maps fit.
  ghost predicate Possible(m: Maps, op: Op) {
    op.Allow? ==>
      var aged, swept := Aged(m, op.now), Swept(m, op);
      if Size(aged) <= MAX_KEYS then swept == aged
      else MAX_KEYS - 1 <= Size(swept) <= MAX_KEYS && (swept.account != aged.account ==> swept.ip == map[])
  }

  function Next(m: Maps, op: Op): Maps {
    match op
    case Clear(name) => m.(account := m.account - {name})
    case Allow(_, _, _, _, _) => Consume(Swept(m, op), op)
  }

  function Consume(m: Maps, op: Op): Maps
    requires op.Allow?
  {
    Maps(Attempt(m.ip, op.ip, IP_LIMIT, op.now).0, Attempt(m.account, op.account, ACCOUNT_LIMIT, op.now).0)
  }

  // What Allow returns; both buckets are charged whatever the other says.
  function Granted(m: Maps, op: Op): bool
    requires op.Allow?
  {
    Attempt(m.ip, op.ip, IP_LIMIT, op.now).1 && Attempt(m.account, op.account, ACCOUNT_LIMIT, op.now).1
  }

  function Answer(m: Maps, op: Op): Option<bool> {
    if op.Allow? then Some(Granted(Swept(m, op), op)) else None
  }

  // ---- The class -----------------------------------------------------------------------

  class Guard {
    var byIP: Entries
    var byAccount: Entries
    var allowedTotal: nat
    var throttledTotal: nat

    function State(): Maps
      reads this
    {
      Maps(byIP, byAccount)
    }

    constructor ()
      ensures State() == Maps(map[], map[]) && allowedTotal == 0 && throttledTotal == 0
    {
      byIP, byAccount, allowedTotal, throttledTotal := map[], map[], 0, 0;
    }

    /** The clock is read before the guard is locked; now is what it said. */
    method Allow(clientIP: string, account: Key, now: int) returns (allowed: bool, ghost op: Op)
      modifies this
      ensures op.Allow? && op.account == account && op.now == now
      ensures op.ip == if Text.Trim(clientIP) == "" then "unknown" else Text.Trim(clientIP)
      ensures Possible(old(State()), op)
      ensures State() == Next(old(State()), op) && Some(allowed) == Answer(old(State()), op)
      ensures allowedTotal + throttledTotal == old(allowedTotal + throttledTotal) + 1
      ensures allowedTotal == old(allowedTotal) + if allowed then 1 else 0
    {
      var ipKey := Text.Trim(clientIP);
      if ipKey == "" { ipKey := "unknown"; }
      SweepLocked(now);
      op := Op.Allow(ipKey, account, now, byIP.Keys, byAccount.Keys);
      assert Swept(old(State()), op) == State();
      var ips := Attempt(byIP, ipKey, IP_LIMIT, now);
      var accounts := Attempt(byAccount, account, ACCOUNT_LIMIT, now);
      byIP, byAccount := ips.0, accounts.0;
      allowed := ips.1 && accounts.1;
      if allowed { allowedTotal := allowedTotal + 1; } else { throttledTotal := throttledTotal + 1; }
    }

    method ClearAccount(account: Key)
      modifies this
      ensures State() == Next(old(State()), Clear(account))
      ensures byIP == old(byIP) && byAccount == old(byAccount) - {account}
      ensures allowedTotal == old(allowedTotal) && throttledTotal == old(throttledTotal)
    {
      byAccount := byAccount - {account};
    }

    /** Drops expired entries of both maps, then arbitrary ones until they fit. */
    method SweepLocked(now: int)
      modifies this`byIP, this`byAccount
      ensures var aged := Aged(old(State()), now);
              && PartOf(byIP, aged.ip) && PartOf(byAccount, aged.account)
              && if Size(aged) <= MAX_KEYS then State() == aged
                 else MAX_KEYS - 1 <= Size(State()) <= MAX_KEYS && (byAccount != aged.account ==> byIP == map[])
    {
      if |byIP| + |byAccount| <= MAX_KEYS { return; }
      byIP, byAccount := Unexpired(byIP, now), Unexpired(byAccount, now);
      ghost var aged := State();
      while |byIP| + |byAccount| > MAX_KEYS
        invariant PartOf(byIP, aged.ip) && PartOf(byAccount, aged.account)
        invariant Size(aged) <= MAX_KEYS ==> State() == aged
        invariant Size(aged) > MAX_KEYS ==> Size(State()) >= MAX_KEYS - 1
        invariant byAccount != aged.account ==> byIP == map[]
        decreases |byIP| + |byAccount|
      {
        if byIP != map[] {
          var key :| key in byIP;
          byIP := Without(byIP, key, aged.ip);
        }
        if |byIP| == 0 {
          if byAccount != map[] {
            var key :| key in byAccount;
            byAccount := Without(byAccount, key, aged.account);
          }
        }
      }
    }
  }

  ghost predicate PartOf(part: Entries, whole: Entries) {
    part == Only(whole, part.Keys)
  }

  // delete(entries, key)
  function Without(entries: Entries, key: Key, ghost whole: Entries): (r: Entries)
    requires key in entries
    ensures |r| == |entries| - 1
    ensures PartOf(entries, whole) ==> PartOf(r, whole)
  {
    assert (entries - {key}).Keys == entries.Keys - {key};
    assert |entries - {key}| == |(entries - {key}).Keys| && |entries| == |entries.Keys|;
    entries - {key}
  }
}
