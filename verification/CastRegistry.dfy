/**
 The registry of cast sessions: one map by receiver endpoint and one by session id, changed by
 Play, by a start that fails, and by every session that ends.
 */
module CastRegistry {
  import opened Wrappers
  import opened Text

  // `ip` is the canonical form of the address when it parses as an IP address.
  datatype Device = Device(id: string, addr: string, ip: Option<string>, provider: string)

  // A session object; `ref` is its identity.
  datatype Session = Session(ref: nat, id: string, device: Device, user: int)

  type Endpoint = string

  // receiverSessionKey
  function EndpointOf(dev: Device): Endpoint {
    if dev.ip.Some? then "ip:" + dev.ip.value
    else if dev.addr != "" then "host:" + Lower(dev.addr)
    else "id:" + dev.id
  }

  datatype Registry = Registry(sessions: map<Endpoint, Session>, byID: map<string, Session>)

  // What the locked section of Play decides.
  datatype Outcome = Existing(session: Session) | InUse | Created(session: Session)

  function Decide(r: Registry, dev: Device, user: int, ref: nat, id: string): Outcome {
    var endpoint := EndpointOf(dev);
    if endpoint in r.sessions then
      var existing := r.sessions[endpoint];
      if existing.user != user || existing.device.id != dev.id then InUse else Existing(existing)
    else Created(Session(ref, id, dev, user))
  }

  function Registered(r: Registry, outcome: Outcome): Registry {
    if outcome.Created? then
      var s := outcome.session;
      Registry(r.sessions[EndpointOf(s.device) := s], r.byID[s.id := s])
    else r
  }

  function Removed(r: Registry, s: Session): Registry {
    var endpoint := EndpointOf(s.device);
    Registry(
      if endpoint in r.sessions && r.sessions[endpoint] == s then r.sessions - {endpoint} else r.sessions,
      r.byID - {s.id})
  }

  // ---- The class -----------------------------------------------------------------------

  // Why Play returns an error before it looks at the sessions, or that it does not.
  datatype Preflight = NotStarted | NoMediaURL | Ready

  datatype PlayResult = Failed | Playing(session: Session)

  class Manager {
    var devices: map<string, Device>
    var providers: set<string>
    var sessions: map<Endpoint, Session>
    var byID: map<string, Session>

    function Fields(): Registry
      reads this`sessions, this`byID
    {
      Registry(sessions, byID)
    }

    constructor (devices: map<string, Device>, providers: set<string>)
      ensures Fields() == Registry(map[], map[]) && this.devices == devices && this.providers == providers
    {
      this.devices, this.providers, sessions, byID := devices, providers, map[], map[];
    }

    /** The locked section: find the session of the endpoint, or register a new one. */
    method Register(dev: Device, user: int, ref: nat, id: string) returns (outcome: Outcome)
      modifies this`sessions, this`byID
      ensures outcome == Decide(old(Fields()), dev, user, ref, id)
      ensures Fields() == Registered(old(Fields()), outcome)
      ensures var endpoint := EndpointOf(dev);
        if endpoint !in old(sessions) then
          && outcome == Created(Session(ref, id, dev, user))
          && sessions == old(sessions)[endpoint := outcome.session] && byID == old(byID)[id := outcome.session]
        else
          && outcome == (if old(sessions)[endpoint].user == user && old(sessions)[endpoint].device.id == dev.id
                         then Existing(old(sessions)[endpoint]) else InUse)
          && sessions == old(sessions) && byID == old(byID)
    {
      var endpoint := EndpointOf(dev);
      if endpoint in sessions {
        var existing := sessions[endpoint];
        if existing.user != user || existing.device.id != dev.id { return InUse; }
        return Existing(existing);
      }
      var s := Session(ref, id, dev, user);
      sessions := sessions[endpoint := s];
      byID := byID[s.id := s];
      outcome := Created(s);
    }

    method RemoveSession(s: Session)
      modifies this`sessions, this`byID
      ensures Fields() == Removed(old(Fields()), s)
      ensures byID == old(byID) - {s.id}
      ensures var endpoint := EndpointOf(s.device);
        sessions == if endpoint in old(sessions) && old(sessions)[endpoint] == s then old(sessions) - {endpoint}
                    else old(sessions)
    {
      var endpoint := EndpointOf(s.device);
      if endpoint in sessions && sessions[endpoint] == s {
        sessions := sessions - {endpoint};
      }
      byID := byID - {s.id};
    }

    /**
     Play with nothing else running.  `ref` and `id` belong to the session it may make, `starts` says
     whether its transport, or the switch of an existing session to the track, succeeds.
     */
    method Play(deviceID: string, user: int, ref: nat, id: string, preflight: Preflight, starts: bool)
      returns (result: PlayResult)
      modifies this`sessions, this`byID
      ensures result.Playing? <==>
        && preflight.Ready? && deviceID in devices && devices[deviceID].provider in providers && starts
        && (EndpointOf(devices[deviceID]) in old(sessions) ==>
              var existing := old(sessions)[EndpointOf(devices[deviceID])];
              existing.user == user && existing.device.id == devices[deviceID].id)
      ensures result.Failed? ==> sessions == old(sessions) && byID in {old(byID), old(byID) - {id}}
      ensures result.Playing? ==> result.session.user == user && result.session.device.id == devices[deviceID].id
      ensures result.Playing? ==>
        var outcome := Decide(old(Fields()), devices[deviceID], user, ref, id);
        result.session == outcome.session && Fields() == Registered(old(Fields()), outcome)
    {
      if preflight.NotStarted? { return Failed; }
      if deviceID !in devices { return Failed; }
      var dev := devices[deviceID];
      if dev.provider !in providers { return Failed; }
      if preflight.NoMediaURL? { return Failed; }
      var outcome := Register(dev, user, ref, id);
      if outcome.InUse? { return Failed; }
      if !starts {
        if outcome.Created? {
          RemoveSession(outcome.session);
          assert byID == old(byID) - {id} && sessions == old(sessions);
        }
        return Failed;
      }
      result := Playing(outcome.session);
    }
  }

  // ---- Runs ----------------------------------------------------------------------------

  // The locked section of a Play, or a removeSession of a session that some Play made.
  datatype Action = Register(dev: Device, user: int, id: string) | Remove(session: Session)

  // `made` holds every session that was ever made.
  datatype State = State(r: Registry, made: seq<Session>)

  function Next(s: State, a: Action): State {
    match a
    case Register(dev, user, id) =>
      var outcome := Decide(s.r, dev, user, |s.made|, id);
      State(Registered(s.r, outcome), if outcome.Created? then s.made + [outcome.session] else s.made)
    case Remove(session) => if session in s.made then s.(r := Removed(s.r, session)) else s
  }

  const INIT := State(Registry(map[], map[]), [])

  function Run(s: State, actions: seq<Action>): State {
    if actions == [] then s else Next(Run(s, actions[..|actions| - 1]), actions[|actions| - 1])
  }

  // New sessions have ids that no session had before.
  predicate FreshIds(s: State, actions: seq<Action>) {
    actions != [] ==>
      && FreshIds(s, actions[..|actions| - 1])
      && var before, a := Run(s, actions[..|actions| - 1]), actions[|actions| - 1];
         a.Register? ==> forall m <- before.made :: m.id != a.id
  }

  // ---- Consistency ---------------------------------------------------------------------

  // Both maps hold the same sessions, each under its own endpoint and its own id.
  ghost predicate Consistent(r: Registry) {
    && (forall e <- r.sessions :: EndpointOf(r.sessions[e].device) == e)
    && (forall id <- r.byID :: r.byID[id].id == id)
    && (forall e <- r.sessions :: r.sessions[e].id in r.byID && r.byID[r.sessions[e].id] == r.sessions[e])
    && (forall id <- r.byID ::
          && EndpointOf(r.byID[id].device) in r.sessions
          && r.sessions[EndpointOf(r.byID[id].device)] == r.byID[id])
  }

  ghost predicate Inv(s: State) {
    && Consistent(s.r)
    && (forall e <- s.r.sessions :: s.r.sessions[e] in s.made)
    && (forall i, j :: 0 <= i < j < |s.made| ==> s.made[i].id != s.made[j].id)
  }

  lemma NextKeeps(s: State, a: Action)
    requires Inv(s) && (a.Register? ==> forall m <- s.made :: m.id != a.id)
    ensures Inv(Next(s, a))
  {
    match a
    case Register(dev, user, id) => RegisterKeeps(s, dev, user, id);
    case Remove(session) => if session in s.made { RemoveKeeps(s, session); }
  }

  lemma RegisteredAreMade(s: State)
    requires Inv(s)
    ensures forall id <- s.r.byID :: s.r.byID[id] in s.made && s.r.byID[id].id == id
  {
    forall id <- s.r.byID ensures s.r.byID[id] in s.made {
      assert EndpointOf(s.r.byID[id].device) in s.r.sessions;
    }
  }

  lemma RegisterKeeps(s: State, dev: Device, user: int, id: string)
    requires Inv(s) && forall m <- s.made :: m.id != id
    ensures Inv(Next(s, Action.Register(dev, user, id)))
  {
    RegisteredAreMade(s);
    if Decide(s.r, dev, user, |s.made|, id).Created? { FreshIdIsNeeded(s.r, dev, user, |s.made|, id); }
  }

  lemma RemoveKeeps(s: State, session: Session)
    requires Inv(s) && session in s.made
    ensures Consistent(Removed(s.r, session))
  {
    KnownByBoth(s, session);
    if session.id in s.r.byID {
      RemoveRegistered(s.r, session);
    } else {
      assert s.r.byID - {session.id} == s.r.byID;
    }
  }

  // A session is registered in both maps or in neither.
  lemma KnownByBoth(s: State, session: Session)
    requires Inv(s) && session in s.made
    ensures var endpoint := EndpointOf(session.device);
      && (session.id in s.r.byID ==> s.r.byID[session.id] == session)
      && (session.id in s.r.byID <==> endpoint in s.r.sessions && s.r.sessions[endpoint] == session)
  {
    if session.id in s.r.byID {
      var other := s.r.byID[session.id];
      assert EndpointOf(other.device) in s.r.sessions && s.r.sessions[EndpointOf(other.device)] == other;
      assert other in s.made && other.id == session.id;
    }
  }

  lemma RemoveRegistered(r: Registry, session: Session)
    requires Consistent(r) && session.id in r.byID && r.byID[session.id] == session
    ensures Consistent(Removed(r, session))
  {
    var r', endpoint := Removed(r, session), EndpointOf(session.device);
    assert r'.sessions == r.sessions - {endpoint} && r'.byID == r.byID - {session.id};
    forall e <- r'.sessions ensures r'.sessions[e].id in r'.byID && r'.byID[r'.sessions[e].id] == r'.sessions[e] {
      assert r.sessions[e].id in r.byID && EndpointOf(r.sessions[e].device) == e;
    }
    forall id <- r'.byID
      ensures EndpointOf(r'.byID[id].device) in r'.sessions &&
        r'.sessions[EndpointOf(r'.byID[id].device)] == r'.byID[id]
    {
      assert r.byID[id].id == id;
    }
  }

  /**
   Under every interleaving of Play, failed starts and session ends, with fresh ids, the two maps hold
   the same sessions.
   */
  lemma {:induction false} MapsAgree(actions: seq<Action>)
    requires FreshIds(INIT, actions)
    ensures Inv(Run(INIT, actions))
  {
    if actions != [] {
      MapsAgree(actions[..|actions| - 1]);
      NextKeeps(Run(INIT, actions[..|actions| - 1]), actions[|actions| - 1]);
    }
  }

  // One physical receiver: the same IP address, or else the same host name in either case, or else, for
  // devices without an address, the same device.
  predicate SameReceiver(a: Device, b: Device) {
    if a.ip.Some? || b.ip.Some? then a.ip == b.ip
    else if a.addr != "" || b.addr != "" then a.addr != "" && b.addr != "" && Lower(a.addr) == Lower(b.addr)
    else a.id == b.id
  }

  /** Devices have one endpoint exactly when they are one physical receiver, whatever their protocols. */
  lemma EndpointsAreReceivers(a: Device, b: Device)
    ensures EndpointOf(a) == EndpointOf(b) <==> SameReceiver(a, b)
  {
    Prefixed("ip:", if a.ip.Some? then a.ip.value else "", if b.ip.Some? then b.ip.value else "");
    Prefixed("host:", Lower(a.addr), Lower(b.addr));
    Prefixed("id:", a.id, b.id);
    assert EndpointOf(a)[..2] == if a.ip.Some? then "ip" else if a.addr != "" then "ho" else "id";
    assert EndpointOf(b)[..2] == if b.ip.Some? then "ip" else if b.addr != "" then "ho" else "id";
    assert "ip" != "ho" && "ip" != "id" && "ho" != "id" by { assert "ip"[0] != "ho"[0] && "ip"[1] != "id"[1]; }
  }

  lemma Prefixed(prefix: string, a: string, b: string)
    ensures prefix + a == prefix + b <==> a == b
  {
    assert (prefix + a)[|prefix|..] == a && (prefix + b)[|prefix|..] == b;
  }

  /** A physical receiver never has two sessions, however it is advertised. */
  lemma OneSessionPerReceiver(actions: seq<Action>, a: Session, b: Session)
    requires FreshIds(INIT, actions)
    requires var r := Run(INIT, actions).r; a.id in r.byID && r.byID[a.id] == a && b.id in r.byID && r.byID[b.id] == b
    requires SameReceiver(a.device, b.device)
    ensures a == b
  {
    MapsAgree(actions);
    EndpointsAreReceivers(a.device, b.device);
  }

  /** Registering a session keeps the maps consistent exactly when no registered session has its id. */
  lemma FreshIdIsNeeded(r: Registry, dev: Device, user: int, ref: nat, id: string)
    requires Consistent(r) && Decide(r, dev, user, ref, id).Created?
    ensures Consistent(Registered(r, Decide(r, dev, user, ref, id))) <==> id !in r.byID
  {
    var outcome := Decide(r, dev, user, ref, id);
    var r', s := Registered(r, outcome), outcome.session;
    if id in r.byID {
      var lost := r.byID[id];
      assert EndpointOf(lost.device) in r.sessions;
      assert EndpointOf(lost.device) != EndpointOf(dev);
      assert r'.sessions[EndpointOf(lost.device)] == lost && r'.byID[lost.id] == s;
    }
  }

  /** A Play that is refused leaves both maps as they were, and so does a new session whose start fails,
      exactly when no registered session had its id. */
  lemma RefusedOrFailedChangesNothing(r: Registry, dev: Device, user: int, ref: nat, id: string)
    ensures var outcome := Decide(r, dev, user, ref, id);
      && (!outcome.Created? ==> Registered(r, outcome) == r)
      && (outcome.Created? ==> (Removed(Registered(r, outcome), outcome.session) == r <==> id !in r.byID))
  {
    var outcome := Decide(r, dev, user, ref, id);
    if outcome.Created? {
      var back := Removed(Registered(r, outcome), outcome.session);
      assert back.sessions == r.sessions && back.byID == r.byID - {id};
      assert id !in r.byID ==> r.byID - {id} == r.byID;
      assert id !in back.byID;
    }
  }

  /** A session whose end comes late takes no other session with it. */
  lemma LateRemoveIsHarmless(actions: seq<Action>, s: Session, other: Session)
    requires FreshIds(INIT, actions) && s in Run(INIT, actions).made && other != s
    requires var r := Run(INIT, actions).r; other.id in r.byID && r.byID[other.id] == other
    ensures var r := Removed(Run(INIT, actions).r, s);
      && other.id in r.byID && r.byID[other.id] == other
      && EndpointOf(other.device) in r.sessions && r.sessions[EndpointOf(other.device)] == other
  {
    MapsAgree(actions);
    var state := Run(INIT, actions);
    assert other in state.made;
  }
}
