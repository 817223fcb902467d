/** The hub's registry of node connections and the HTTP sessions bound to them
    (internal/server/node_sessions.go; register, unregister, disconnect and Close in
    internal/server/hub.go).

    Random identifiers (connection IDs, token digests) are numbers; an event that
    draws one requires a number never drawn before. */
module NodeSessions {
  import opened Prelude

  type ConnectionID = nat
  type Digest = nat

  /** Registry key. Owner and node IDs carry no control characters, so joining them
      with NUL is the same as pairing them. */
  datatype NodeKey = NodeKey(ownerID: string, nodeID: string)

  datatype Connection = Connection(key: NodeKey, id: ConnectionID)

  datatype Session = Session(connection: Connection, expiresAt: int)

  type Sessions = map<Digest, Session>
  type Registry = map<NodeKey, Connection>

  /** `cleanupNodeSessionsLocked`: only unexpired sessions remain. */
  function Unexpired(sessions: Sessions, now: int): Sessions {
    map d | d in sessions && now < sessions[d].expiresAt :: sessions[d]
  }

  /** `invalidateNodeSessionScope`: no session of the connection remains. */
  function Invalidated(sessions: Sessions, c: Connection): Sessions {
    map d | d in sessions && sessions[d].connection != c :: sessions[d]
  }

  function Unregistered(nodes: Registry, c: Connection): Registry {
    if c.key in nodes && nodes[c.key] == c then Without(nodes, c.key) else nodes
  }

  ghost predicate Bound(nodes: Registry, c: Connection) {
    c.key in nodes && nodes[c.key] == c
  }

  // --- The hub object -------------------------------------------------------

  /** Every method body is one critical section, except where its comment says otherwise. */
  class Hub {
    var nodes: Registry
    var nodeSessions: Sessions
    var closed: bool

    /** Connections are registered under their own key. */
    ghost predicate Valid()
      reads this
    {
      forall k :: k in nodes ==> nodes[k].key == k
    }

    constructor ()
      ensures Valid() && nodes == map[] && nodeSessions == map[] && !closed
    {
      nodes, nodeSessions, closed := map[], map[], false;
    }

    method CleanupNodeSessions(now: int)
      modifies this`nodeSessions
      ensures nodeSessions == Unexpired(old(nodeSessions), now)
      ensures forall d :: d in nodeSessions <==> d in old(nodeSessions) && now < old(nodeSessions)[d].expiresAt
    {
      var before := nodeSessions;
      var rest := before.Keys;
      while rest != {}
        invariant rest <= before.Keys
        invariant nodeSessions == map d | d in before && (d in rest || now < before[d].expiresAt) :: before[d]
        decreases |rest|
      {
        var d :| d in rest;
        if before[d].expiresAt <= now {
          nodeSessions := nodeSessions - {d};
        }
        rest := rest - {d};
      }
    }

    method InvalidateNodeSessionScope(c: Connection)
      modifies this`nodeSessions
      ensures nodeSessions == Invalidated(old(nodeSessions), c)
      ensures forall d :: d in nodeSessions <==> d in old(nodeSessions) && old(nodeSessions)[d].connection != c
      ensures forall d :: d in nodeSessions ==> nodeSessions[d] == old(nodeSessions)[d]
    {
      var before := nodeSessions;
      var rest := before.Keys;
      while rest != {}
        invariant rest <= before.Keys
        invariant nodeSessions == map d | d in before && (d in rest || before[d].connection != c) :: before[d]
        decreases |rest|
      {
        var d :| d in rest;
        if before[d].connection == c {
          nodeSessions := nodeSessions - {d};
        }
        rest := rest - {d};
      }
    }

    method IssueNodeSession(c: Connection, digest: Digest, expiresAt: int, now: int)
      modifies this`nodeSessions
      ensures nodeSessions == Unexpired(old(nodeSessions), now)[digest := Session(c, expiresAt)]
    {
      CleanupNodeSessions(now);
      nodeSessions := nodeSessions[digest := Session(c, expiresAt)];
    }

    method Register(c: Connection) returns (ok: bool, previous: Option<Connection>)
      requires Valid()
      modifies this`nodes
      ensures Valid()
      ensures ok == !old(closed)
      ensures nodes == if ok then old(nodes)[c.key := c] else old(nodes)
      ensures previous == if ok && c.key in old(nodes) then Some(old(nodes)[c.key]) else None
    {
      if closed { return false, None; }
      previous := if c.key in nodes then Some(nodes[c.key]) else None;
      nodes := nodes[c.key := c];
      ok := true;
    }

    /** A stale call, for a connection that is no longer registered, changes nothing. */
    method Unregister(c: Connection)
      requires Valid()
      modifies this`nodes
      ensures Valid()
      ensures nodes == Unregistered(old(nodes), c)
      ensures forall other :: Bound(nodes, other) <==> other != c && Bound(old(nodes), other)
    {
      if c.key in nodes && nodes[c.key] == c {
        nodes := nodes - {c.key};
      }
    }

    method Disconnect(key: NodeKey) returns (removed: Option<Connection>)
      requires Valid()
      modifies this`nodes
      ensures Valid()
      ensures nodes == Without(old(nodes), key)
      ensures removed == if key in old(nodes) then Some(old(nodes)[key]) else None
      ensures forall c :: Bound(nodes, c) <==> Bound(old(nodes), c) && c.key != key
    {
      removed := if key in nodes then Some(nodes[key]) else None;
      nodes := nodes - {key};
    }

    /** Both critical sections of `Close`, one after the other. */
    method Close() returns (connections: set<Connection>)
      requires Valid()
      modifies this
      ensures Valid()
      ensures closed
      ensures !old(closed) ==> nodes == map[] && nodeSessions == map[] && connections == old(nodes.Values)
      ensures old(closed) ==> nodes == old(nodes) && nodeSessions == old(nodeSessions) && connections == {}
    {
      if closed { return {}; }
      closed := true;
      connections := nodes.Values;
      nodes := map[];
      nodeSessions := map[];
    }

    /** Undisturbed, a request authenticates exactly when its token is known and
        unexpired, names the node, and belongs to the registered connection of a node
        the store still reports active. */
    method AuthenticateNodeRequest(digest: Digest, nodeID: string, now: int, active: bool) returns (session: Option<Session>)
      requires Valid()
      modifies this`nodeSessions
      ensures nodeSessions == Unexpired(old(nodeSessions), now)
      ensures session.Some? <==>
        && digest in old(nodeSessions) && now < old(nodeSessions)[digest].expiresAt
        && old(nodeSessions)[digest].connection.key.nodeID == nodeID
        && Bound(nodes, old(nodeSessions)[digest].connection) && active
      ensures session.Some? ==> session.value == old(nodeSessions)[digest]
    {
      CleanupNodeSessions(now);
      if digest !in nodeSessions || nodeSessions[digest].connection.key.nodeID != nodeID { return None; }
      var found := nodeSessions[digest];
      var key := found.connection.key;
      if key !in nodes || nodes[key].id != found.connection.id || !active { return None; }
      return Some(found);
    }
  }

  // --- The interleaved system ------------------------------------------------

  /** The life of one connection handler. */
  datatype Handler = Authenticated | Serving | Ended

  /** A request after its session read, after its registry read (which found `registered`),
      and, when it is a refresh, after it was authenticated and after its new token. */
  datatype Request =
    | Looked(digest: Digest, session: Session, readAt: int, refresh: bool)
    | Checked(digest: Digest, session: Session, readAt: int, refresh: bool, registered: Connection)
    | Refreshing(digest: Digest, session: Session)
    | Issued(digest: Digest)

  /** One authenticated request: what it read, when, and the connection that was
      registered for its node when the registry was consulted. */
  datatype Admission = Admission(request: nat, digest: Digest, session: Session, readAt: int, registered: Connection)

  datatype State = State(
    nodes: Registry, sessions: Sessions, closed: bool, clock: int,
    handlers: map<ConnectionID, (Connection, Handler)>, issued: Sessions,
    requests: map<nat, Request>, admitted: seq<Admission>)

  /** Steps of a connection handler: authentication (with or without a session token),
      registration, and teardown. */
  datatype HandlerEvent =
    | Accept(c: Connection, digest: Digest, expiresAt: int)
    | AcceptSilent(c: Connection)
    | Register(id: ConnectionID)
    | Unregister(id: ConnectionID)
    | Invalidate(id: ConnectionID)

  /** Steps of an HTTP request: the session read, the registry read, the store's verdict on
      the node, and for a refresh the new token and the removal of the old one. */
  datatype RequestEvent =
    | ReadSession(r: nat, digest: Digest, nodeID: string, refresh: bool)
    | CheckRegistry(r: nat)
    | Verdict(r: nat, active: bool)
    | IssueRefresh(r: nat, digest: Digest, expiresAt: int)
    | DropOld(r: nat)

  datatype Event =
    | Tick(now: int)
    | OfHandler(h: HandlerEvent)
    | OfRequest(q: RequestEvent)
    | Disconnect(key: NodeKey)
    | CloseRegistry
    | CloseSessions

  const INIT: State := State(map[], map[], false, 0, map[], map[], map[], [])

  function Issue(s: State, c: Connection, digest: Digest, expiresAt: int): State {
    s.(sessions := Unexpired(s.sessions, s.clock)[digest := Session(c, expiresAt)],
       issued := s.issued[digest := Session(c, expiresAt)])
  }

  function AcceptStep(s: State, c: Connection, digest: Digest, expiresAt: int): State {
    if c.id in s.handlers || digest in s.issued then s
    else Issue(s, c, digest, expiresAt).(handlers := s.handlers[c.id := (c, Authenticated)])
  }

  function RegisterStep(s: State, id: ConnectionID): State {
    if id !in s.handlers || s.handlers[id].1 != Authenticated then s
    else
      var c := s.handlers[id].0;
      if s.closed then s.(handlers := s.handlers[id := (c, Ended)])
      else s.(nodes := s.nodes[c.key := c], handlers := s.handlers[id := (c, Serving)])
  }

  function UnregisterStep(s: State, id: ConnectionID): State {
    if id !in s.handlers || s.handlers[id].1 != Serving then s
    else
      var c := s.handlers[id].0;
      s.(nodes := Unregistered(s.nodes, c), handlers := s.handlers[id := (c, Ended)])
  }

  function HandlerStep(s: State, e: HandlerEvent): State {
    match e
    case Accept(c, digest, expiresAt) => AcceptStep(s, c, digest, expiresAt)
    case AcceptSilent(c) =>
      if c.id in s.handlers then s else s.(handlers := s.handlers[c.id := (c, Authenticated)])
    case Register(id) => RegisterStep(s, id)
    case Unregister(id) => UnregisterStep(s, id)
    case Invalidate(id) =>
      if id !in s.handlers then s else s.(sessions := Invalidated(s.sessions, s.handlers[id].0))
  }

  function CheckRegistryStep(s: State, r: nat): State {
    if r !in s.requests || !s.requests[r].Looked? then s
    else
      var q := s.requests[r];
      var key := q.session.connection.key;
      if key in s.nodes && s.nodes[key].id == q.session.connection.id then
        s.(requests := s.requests[r := Checked(q.digest, q.session, q.readAt, q.refresh, s.nodes[key])])
      else s.(requests := Without(s.requests, r))
  }

  function VerdictStep(s: State, r: nat, active: bool): State {
    if r !in s.requests || !s.requests[r].Checked? then s
    else
      var q := s.requests[r];
      if !active then s.(requests := Without(s.requests, r))
      else
        s.(admitted := s.admitted + [Admission(r, q.digest, q.session, q.readAt, q.registered)],
           requests := if q.refresh then s.requests[r := Refreshing(q.digest, q.session)] else Without(s.requests, r))
  }

  function ReadSessionStep(s: State, r: nat, digest: Digest, nodeID: string, refresh: bool): State {
    var sessions := Unexpired(s.sessions, s.clock);
    if r in s.requests || digest !in sessions || sessions[digest].connection.key.nodeID != nodeID then s.(sessions := sessions)
    else s.(sessions := sessions, requests := s.requests[r := Looked(digest, sessions[digest], s.clock, refresh)])
  }

  function IssueRefreshStep(s: State, r: nat, digest: Digest, expiresAt: int): State {
    if r !in s.requests || !s.requests[r].Refreshing? || digest in s.issued then s
    else Issue(s, s.requests[r].session.connection, digest, expiresAt).(requests := s.requests[r := Issued(s.requests[r].digest)])
  }

  function DropOldStep(s: State, r: nat): State {
    if r !in s.requests || !s.requests[r].Issued? then s
    else s.(sessions := Without(s.sessions, s.requests[r].digest), requests := Without(s.requests, r))
  }

  function RequestStep(s: State, e: RequestEvent): State {
    match e
    case ReadSession(r, digest, nodeID, refresh) => ReadSessionStep(s, r, digest, nodeID, refresh)
    case CheckRegistry(r) => CheckRegistryStep(s, r)
    case Verdict(r, active) => VerdictStep(s, r, active)
    case IssueRefresh(r, digest, expiresAt) => IssueRefreshStep(s, r, digest, expiresAt)
    case DropOld(r) => DropOldStep(s, r)
  }

  function Step(s: State, e: Event): State {
    match e
    case Tick(now) => s.(clock := now)
    case OfHandler(h) => HandlerStep(s, h)
    case OfRequest(q) => RequestStep(s, q)
    case Disconnect(key) => s.(nodes := Without(s.nodes, key))
    case CloseRegistry => s.(closed := true, nodes := map[])
    case CloseSessions => if s.closed then s.(sessions := map[]) else s
  }

  function Run(s: State, es: seq<Event>): State
    decreases |es|
  {
    if es == [] then s else Run(Step(s, es[0]), es[1..])
  }

  // --- What every step keeps ---------------------------------------------------

  type Handlers = map<ConnectionID, (Connection, Handler)>

  /** A registered connection is the one its own serving handler brought. */
  ghost predicate RegistryOk(nodes: Registry, handlers: Handlers, closed: bool) {
    && (forall k :: k in nodes ==> nodes[k].key == k && nodes[k].id in handlers && handlers[nodes[k].id] == (nodes[k], Serving))
    && (forall id :: id in handlers ==> handlers[id].0.id == id)
    && (closed ==> nodes == map[])
  }

  /** A handler brought this connection. */
  ghost predicate Known(handlers: Handlers, c: Connection) {
    c.id in handlers && handlers[c.id].0 == c
  }

  /** A digest in use still stands for the session it was issued for, whose connection a handler brought. */
  ghost predicate SessionsOk(sessions: Sessions, issued: Sessions, handlers: Handlers) {
    && (forall d :: d in sessions ==> d in issued && issued[d] == sessions[d])
    && (forall d :: d in issued ==> Known(handlers, issued[d].connection))
  }

  ghost predicate RequestOk(q: Request, issued: Sessions) {
    !q.Issued? ==>
      && q.digest in issued && issued[q.digest] == q.session
      && (q.Looked? || q.Checked? ==> q.readAt < q.session.expiresAt)
      && (q.Checked? ==> q.registered == q.session.connection)
  }

  ghost predicate RequestsOk(requests: map<nat, Request>, issued: Sessions) {
    forall r :: r in requests ==> RequestOk(requests[r], issued)
  }

  /** The token was unexpired when read, and the connection it was issued for was the
      registered one when the registry was read. */
  ghost predicate Sound(issued: Sessions, a: Admission) {
    && a.digest in issued && issued[a.digest] == a.session
    && a.readAt < a.session.expiresAt
    && a.registered == a.session.connection
  }

  ghost predicate AdmittedOk(admitted: seq<Admission>, issued: Sessions) {
    forall i :: 0 <= i < |admitted| ==> Sound(issued, admitted[i])
  }

  ghost predicate Inv(s: State) {
    && RegistryOk(s.nodes, s.handlers, s.closed) && SessionsOk(s.sessions, s.issued, s.handlers)
    && RequestsOk(s.requests, s.issued) && AdmittedOk(s.admitted, s.issued)
  }

  ghost predicate Extends(before: Sessions, after: Sessions) {
    forall d :: d in before ==> d in after && after[d] == before[d]
  }

  lemma HandlerKeepsRegistry(s: State, e: HandlerEvent)
    requires RegistryOk(s.nodes, s.handlers, s.closed)
    ensures var t := HandlerStep(s, e); RegistryOk(t.nodes, t.handlers, t.closed)
  {
  }

  lemma FewerSessions(sessions: Sessions, fewer: Sessions, issued: Sessions, handlers: Handlers)
    requires SessionsOk(sessions, issued, handlers) && Extends(fewer, sessions)
    ensures SessionsOk(fewer, issued, handlers)
  {
  }

  lemma IssueKeepsSessions(s: State, c: Connection, digest: Digest, expiresAt: int)
    requires SessionsOk(s.sessions, s.issued, s.handlers) && Known(s.handlers, c) && digest !in s.issued
    ensures var t := Issue(s, c, digest, expiresAt);
      SessionsOk(t.sessions, t.issued, s.handlers) && Extends(s.issued, t.issued)
  {
  }

  /** Handlers that move on still vouch for the connections they brought. */
  lemma MoreHandlers(sessions: Sessions, issued: Sessions, handlers: Handlers, more: Handlers)
    requires SessionsOk(sessions, issued, handlers)
    requires forall id :: id in handlers ==> id in more && more[id].0 == handlers[id].0
    ensures SessionsOk(sessions, issued, more)
  {
  }

  lemma AcceptKeepsSessions(s: State, c: Connection, digest: Digest, expiresAt: int)
    requires SessionsOk(s.sessions, s.issued, s.handlers)
    ensures var t := AcceptStep(s, c, digest, expiresAt); SessionsOk(t.sessions, t.issued, t.handlers) && Extends(s.issued, t.issued)
  {
    if c.id !in s.handlers && digest !in s.issued {
      var met := s.(handlers := s.handlers[c.id := (c, Authenticated)]);
      MoreHandlers(s.sessions, s.issued, s.handlers, met.handlers);
      IssueKeepsSessions(met, c, digest, expiresAt);
    }
  }

  lemma RegisterKeepsSessions(s: State, id: ConnectionID)
    requires SessionsOk(s.sessions, s.issued, s.handlers)
    ensures var t := RegisterStep(s, id); t.sessions == s.sessions && t.issued == s.issued && SessionsOk(s.sessions, s.issued, t.handlers)
  {
    MoreHandlers(s.sessions, s.issued, s.handlers, RegisterStep(s, id).handlers);
  }

  lemma UnregisterKeepsSessions(s: State, id: ConnectionID)
    requires SessionsOk(s.sessions, s.issued, s.handlers)
    ensures var t := UnregisterStep(s, id); t.sessions == s.sessions && t.issued == s.issued && SessionsOk(s.sessions, s.issued, t.handlers)
  {
    MoreHandlers(s.sessions, s.issued, s.handlers, UnregisterStep(s, id).handlers);
  }

  lemma HandlerKeepsSessions(s: State, e: HandlerEvent)
    requires SessionsOk(s.sessions, s.issued, s.handlers)
    ensures var t := HandlerStep(s, e); SessionsOk(t.sessions, t.issued, t.handlers) && Extends(s.issued, t.issued)
  {
    match e
    case Accept(c, digest, expiresAt) => AcceptKeepsSessions(s, c, digest, expiresAt);
    case Invalidate(id) =>
      if id in s.handlers { FewerSessions(s.sessions, Invalidated(s.sessions, s.handlers[id].0), s.issued, s.handlers); }
    case AcceptSilent(c) =>
      if c.id !in s.handlers { MoreHandlers(s.sessions, s.issued, s.handlers, s.handlers[c.id := (c, Authenticated)]); }
    case Register(id) => RegisterKeepsSessions(s, id);
    case Unregister(id) => UnregisterKeepsSessions(s, id);
  }

  /** A handler leaves the requests alone. */
  lemma HandlerFrame(s: State, e: HandlerEvent)
    ensures HandlerStep(s, e).requests == s.requests && HandlerStep(s, e).admitted == s.admitted && HandlerStep(s, e).closed == s.closed
  {
  }

  ghost predicate SameRegistry(s: State, t: State) {
    t.nodes == s.nodes && t.handlers == s.handlers && t.closed == s.closed
  }

  lemma CheckRegistryFrame(s: State, r: nat)
    ensures SameRegistry(s, CheckRegistryStep(s, r))
  {
  }

  lemma VerdictFrame(s: State, r: nat, active: bool)
    ensures SameRegistry(s, VerdictStep(s, r, active))
  {
  }

  lemma ReadSessionFrame(s: State, r: nat, digest: Digest, nodeID: string, refresh: bool)
    ensures SameRegistry(s, ReadSessionStep(s, r, digest, nodeID, refresh))
  {
  }

  /** A request leaves the registry alone. */
  lemma RequestFrame(s: State, e: RequestEvent)
    ensures SameRegistry(s, RequestStep(s, e))
  {
    match e
    case CheckRegistry(r) => CheckRegistryFrame(s, r);
    case Verdict(r, active) => VerdictFrame(s, r, active);
    case ReadSession(r, digest, nodeID, refresh) => ReadSessionFrame(s, r, digest, nodeID, refresh);
    case _ =>
  }

  lemma IssueRefreshKeepsSessions(s: State, r: nat, digest: Digest, expiresAt: int)
    requires SessionsOk(s.sessions, s.issued, s.handlers) && RequestsOk(s.requests, s.issued)
    ensures var t := IssueRefreshStep(s, r, digest, expiresAt); SessionsOk(t.sessions, t.issued, t.handlers) && Extends(s.issued, t.issued)
  {
    if r in s.requests && s.requests[r].Refreshing? && digest !in s.issued {
      assert RequestOk(s.requests[r], s.issued);
      IssueKeepsSessions(s, s.requests[r].session.connection, digest, expiresAt);
    }
  }

  lemma RequestKeepsSessions(s: State, e: RequestEvent)
    requires SessionsOk(s.sessions, s.issued, s.handlers) && RequestsOk(s.requests, s.issued)
    ensures var t := RequestStep(s, e); SessionsOk(t.sessions, t.issued, t.handlers) && Extends(s.issued, t.issued)
  {
    match e
    case IssueRefresh(r, digest, expiresAt) => IssueRefreshKeepsSessions(s, r, digest, expiresAt);
    case ReadSession(r, digest, nodeID, refresh) =>
      FewerSessions(s.sessions, ReadSessionStep(s, r, digest, nodeID, refresh).sessions, s.issued, s.handlers);
    case DropOld(r) => FewerSessions(s.sessions, DropOldStep(s, r).sessions, s.issued, s.handlers);
    case CheckRegistry(r) => CheckRegistrySessions(s, r);
    case Verdict(r, active) => VerdictSessions(s, r, active);
  }

  lemma CheckRegistrySessions(s: State, r: nat)
    ensures CheckRegistryStep(s, r).sessions == s.sessions && CheckRegistryStep(s, r).issued == s.issued && CheckRegistryStep(s, r).handlers == s.handlers
  {
  }

  lemma VerdictSessions(s: State, r: nat, active: bool)
    ensures VerdictStep(s, r, active).sessions == s.sessions && VerdictStep(s, r, active).issued == s.issued && VerdictStep(s, r, active).handlers == s.handlers
  {
  }

  lemma IssueRefreshKeepsRequests(s: State, r: nat, digest: Digest, expiresAt: int)
    requires RequestsOk(s.requests, s.issued)
    ensures var t := IssueRefreshStep(s, r, digest, expiresAt); RequestsOk(t.requests, t.issued)
  {
    var t := IssueRefreshStep(s, r, digest, expiresAt);
    forall q | q in t.requests ensures RequestOk(t.requests[q], t.issued) {
      if q != r { assert RequestOk(s.requests[q], s.issued); }
    }
  }

  /** The registry finds the session's own connection or none: IDs are never reused. */
  lemma CheckRegistryKeepsRequests(s: State, r: nat)
    requires Inv(s)
    ensures RequestsOk(CheckRegistryStep(s, r).requests, s.issued)
  {
    if r in s.requests && s.requests[r].Looked? {
      assert RequestOk(s.requests[r], s.issued);
      assert Known(s.handlers, s.requests[r].session.connection);
    }
  }

  lemma VerdictKeepsRequests(s: State, r: nat, active: bool)
    requires RequestsOk(s.requests, s.issued)
    ensures RequestsOk(VerdictStep(s, r, active).requests, s.issued)
  {
    if r in s.requests { assert RequestOk(s.requests[r], s.issued); }
  }

  lemma RequestKeepsRequests(s: State, e: RequestEvent)
    requires Inv(s)
    ensures var t := RequestStep(s, e); RequestsOk(t.requests, t.issued)
  {
    match e
    case CheckRegistry(r) => CheckRegistryKeepsRequests(s, r);
    case Verdict(r, active) => VerdictKeepsRequests(s, r, active);
    case IssueRefresh(r, digest, expiresAt) => IssueRefreshKeepsRequests(s, r, digest, expiresAt);
    case _ =>
  }

  lemma RequestKeepsAdmitted(s: State, e: RequestEvent)
    requires Inv(s)
    ensures var t := RequestStep(s, e); AdmittedOk(t.admitted, t.issued)
  {
    if e.Verdict? && e.r in s.requests && s.requests[e.r].Checked? {
      assert RequestOk(s.requests[e.r], s.issued);
    }
  }

  lemma StepKeepsInv(s: State, e: Event)
    requires Inv(s)
    ensures Inv(Step(s, e))
  {
    match e
    case OfHandler(h) =>
      HandlerKeepsRegistry(s, h);
      HandlerKeepsSessions(s, h);
      HandlerFrame(s, h);
    case OfRequest(q) =>
      RequestFrame(s, q);
      RequestKeepsSessions(s, q);
      RequestKeepsRequests(s, q);
      RequestKeepsAdmitted(s, q);
    case _ =>
  }

  lemma {:induction false} RunKeepsInv(s: State, es: seq<Event>)
    requires Inv(s)
    ensures Inv(Run(s, es))
    decreases |es|
  {
    if es != [] {
      StepKeepsInv(s, es[0]);
      RunKeepsInv(Step(s, es[0]), es[1..]);
    }
  }

  // --- Main results --------------------------------------------------------------

  /** In every interleaving, every authenticated request used a token that was unexpired
      when read, and the connection that token was issued for was the registered one. */
  lemma AdmissionsAreSound(es: seq<Event>)
    ensures forall i :: 0 <= i < |Run(INIT, es).admitted| ==> Sound(Run(INIT, es).issued, Run(INIT, es).admitted[i])
  {
    RunKeepsInv(INIT, es);
  }

  /** The connection's handler came and its registration is over. */
  ghost predicate Retired(s: State, c: Connection) {
    Known(s.handlers, c) && s.handlers[c.id].1 != Authenticated && !Bound(s.nodes, c)
  }

  /** However a registered connection leaves the registry, it is retired. */
  lemma LeavingRetires(s: State, e: Event, c: Connection)
    requires Inv(s) && Bound(s.nodes, c) && !Bound(Step(s, e).nodes, c)
    ensures Retired(Step(s, e), c)
  {
    if e.OfRequest? { RequestFrame(s, e.q); }
  }

  lemma HandlerKeepsRetired(s: State, e: HandlerEvent, c: Connection)
    requires Inv(s) && Retired(s, c)
    ensures Retired(HandlerStep(s, e), c)
  {
  }

  lemma RetiredStaysRetired(s: State, e: Event, c: Connection)
    requires Inv(s) && Retired(s, c)
    ensures Retired(Step(s, e), c)
  {
    match e
    case OfHandler(h) => HandlerKeepsRetired(s, h, c);
    case OfRequest(q) => RequestFrame(s, q);
    case _ =>
  }

  // --- Requests that were past their registry read ---------------------------------------

  /** The request has read the registry with a session of this connection and awaits the verdict. */
  ghost predicate Awaits(s: State, r: nat, c: Connection) {
    r in s.requests && s.requests[r].Checked? && s.requests[r].session.connection == c
  }

  ghost predicate NobodyAwaits(s: State, c: Connection) {
    forall r :: r in s.requests ==> !Awaits(s, r, c)
  }

  /** Admissions number `from` on with a session of the connection. */
  ghost predicate NoneAdmitted(admitted: seq<Admission>, from: nat, c: Connection) {
    forall i :: from <= i < |admitted| ==> admitted[i].session.connection != c
  }

  /** What one step may do to the requests and admissions of a retired connection. */
  ghost predicate NothingNew(s: State, t: State, c: Connection) {
    && (forall r :: Awaits(t, r, c) ==> Awaits(s, r, c))
    && s.admitted <= t.admitted
    && (forall i :: |s.admitted| <= i < |t.admitted| && t.admitted[i].session.connection == c ==> Awaits(s, t.admitted[i].request, c))
  }

  lemma RetiredCheckRegistry(s: State, r: nat, c: Connection)
    requires Inv(s) && Retired(s, c)
    ensures NothingNew(s, CheckRegistryStep(s, r), c)
  {
    if r in s.requests && s.requests[r].Looked? {
      assert RequestOk(s.requests[r], s.issued);
      assert Known(s.handlers, s.requests[r].session.connection);
    }
  }

  lemma AnyVerdict(s: State, r: nat, active: bool, c: Connection)
    ensures NothingNew(s, VerdictStep(s, r, active), c)
  {
  }

  lemma OtherRequestStep(s: State, e: RequestEvent, c: Connection)
    requires !e.CheckRegistry? && !e.Verdict?
    ensures NothingNew(s, RequestStep(s, e), c)
  {
  }

  /** Nobody comes to await the verdict for a retired connection, and only who does is admitted. */
  lemma RetiredStep(s: State, e: Event, c: Connection)
    requires Inv(s) && Retired(s, c)
    ensures NothingNew(s, Step(s, e), c)
  {
    if e.OfHandler? {
      HandlerFrame(s, e.h);
    } else if e.OfRequest? {
      match e.q
      case CheckRegistry(r) => RetiredCheckRegistry(s, r, c);
      case Verdict(r, active) => AnyVerdict(s, r, active, c);
      case _ => OtherRequestStep(s, e.q, c);
    }
  }

  /** Every admission of a retired connection was past its registry read when it retired. */
  lemma {:induction false} RetiredAdmitsOnlyAwaiting(s: State, es: seq<Event>, c: Connection)
    requires Inv(s) && Retired(s, c)
    ensures Retired(Run(s, es), c) && s.admitted <= Run(s, es).admitted
    ensures forall r :: Awaits(Run(s, es), r, c) ==> Awaits(s, r, c)
    ensures forall i :: |s.admitted| <= i < |Run(s, es).admitted| && Run(s, es).admitted[i].session.connection == c ==>
      Awaits(s, Run(s, es).admitted[i].request, c)
    decreases |es|
  {
    if es != [] {
      StepKeepsInv(s, es[0]);
      RetiredStaysRetired(s, es[0], c);
      RetiredStep(s, es[0], c);
      RetiredAdmitsOnlyAwaiting(Step(s, es[0]), es[1..], c);
    }
  }

  ghost predicate NoneAdmittedAfter(s: State, es: seq<Event>, c: Connection) {
    NoneAdmitted(Run(s, es).admitted, |s.admitted|, c)
  }

  /** Exactly then: a retired connection's tokens never authenticate again, whatever comes,
      if and only if no request was past its registry read with one of them. */
  lemma RetiredNeverAuthenticates(s: State, c: Connection)
    requires Inv(s) && Retired(s, c)
    ensures (forall es :: NoneAdmittedAfter(s, es, c)) <==> NobodyAwaits(s, c)
  {
    if NobodyAwaits(s, c) {
      forall es ensures NoneAdmittedAfter(s, es, c) { RetiredAdmitsOnlyAwaiting(s, es, c); }
    } else {
      var r :| r in s.requests && Awaits(s, r, c);
      var es := [OfRequest(Verdict(r, true))];
      assert Run(s, es) == Run(Step(s, es[0]), []);
      var admitted := Run(s, es).admitted;
      assert admitted == s.admitted + [admitted[|s.admitted|]] && admitted[|s.admitted|].session.connection == c;
      assert !NoneAdmittedAfter(s, es, c);
    }
  }

  /** In every interleaving: once a registered connection has been replaced, disconnected or
      unregistered by the step `leave`, every request that still authenticates with one of
      its tokens had read the registry before that step; one that reads it later never
      does, not even with a token that a racing refresh issued after the teardown. */
  lemma GoneConnectionsNeverAuthenticate(before: seq<Event>, leave: Event, later: seq<Event>, c: Connection)
    requires Bound(Run(INIT, before).nodes, c) && !Bound(Step(Run(INIT, before), leave).nodes, c)
    ensures var s := Run(INIT, before);
      var gone := Step(s, leave);
      var end := Run(gone, later);
      && !Bound(end.nodes, c) && gone.admitted <= end.admitted
      && forall i :: |gone.admitted| <= i < |end.admitted| && end.admitted[i].session.connection == c ==> Awaits(s, end.admitted[i].request, c)
  {
    var s := Run(INIT, before);
    RunKeepsInv(INIT, before);
    LeavingRetires(s, leave, c);
    StepKeepsInv(s, leave);
    LeavingKeepsAwaiting(s, leave, c);
    RetiredAdmitsOnlyAwaiting(Step(s, leave), later, c);
  }

  lemma LeavingKeepsAwaiting(s: State, e: Event, c: Connection)
    requires Inv(s) && Bound(s.nodes, c) && !Bound(Step(s, e).nodes, c)
    ensures forall r :: Awaits(Step(s, e), r, c) ==> Awaits(s, r, c)
  {
    match e
    case OfHandler(h) => HandlerFrame(s, h);
    case OfRequest(q) => RequestFrame(s, q);
    case _ =>
  }

  /** Disconnecting a key retires exactly the connection registered under it. */
  lemma DisconnectRetires(s: State, key: NodeKey, c: Connection)
    requires Inv(s) && Bound(s.nodes, c)
    ensures var t := Step(s, Disconnect(key));
      if c.key == key then Retired(t, c) else Bound(t.nodes, c)
  {
  }

  /** A stale handler's unregister leaves whichever connection replaced it registered. */
  lemma StaleUnregisterKeepsNewer(s: State, id: ConnectionID, newer: Connection)
    requires Inv(s) && Bound(s.nodes, newer) && newer.id != id
    ensures Bound(Step(s, OfHandler(Unregister(id))).nodes, newer)
  {
  }

  ghost predicate OnlyChecked(s: State, t: State) {
    && s.admitted <= t.admitted
    && (forall r :: r in t.requests && t.requests[r].Checked? ==> r in s.requests && s.requests[r].Checked?)
    && (forall i :: |s.admitted| <= i < |t.admitted| ==> t.admitted[i].request in s.requests && s.requests[t.admitted[i].request].Checked?)
  }

  lemma ClosedRequestStep(s: State, e: RequestEvent)
    requires s.nodes == map[]
    ensures OnlyChecked(s, RequestStep(s, e))
  {
    match e
    case Verdict(r, active) => AnyVerdictIsChecked(s, r, active);
    case _ =>
  }

  lemma AnyVerdictIsChecked(s: State, r: nat, active: bool)
    ensures OnlyChecked(s, VerdictStep(s, r, active))
  {
  }

  lemma ClosedStep(s: State, e: Event)
    requires s.closed && s.nodes == map[]
    ensures Step(s, e).closed && Step(s, e).nodes == map[] && OnlyChecked(s, Step(s, e))
  {
    match e
    case OfHandler(h) => HandlerFrame(s, h);
    case OfRequest(q) =>
      RequestFrame(s, q);
      ClosedRequestStep(s, q);
    case _ =>
  }

  /** After Close took the registry lock, only requests that had read the registry before
      it are still admitted. */
  lemma {:induction false} ClosedHubAdmitsNobodyNew(s: State, es: seq<Event>)
    requires s.closed && s.nodes == map[]
    ensures s.admitted <= Run(s, es).admitted
    ensures forall i :: |s.admitted| <= i < |Run(s, es).admitted| ==>
      Run(s, es).admitted[i].request in s.requests && s.requests[Run(s, es).admitted[i].request].Checked?
    decreases |es|
  {
    if es != [] {
      ClosedStep(s, es[0]);
      ClosedHubAdmitsNobodyNew(Step(s, es[0]), es[1..]);
    }
  }

  // --- Sessions that outlive their connection ------------------------------------------------

  ghost predicate Owns(sessions: Sessions, c: Connection) {
    exists d :: d in sessions && sessions[d].connection == c
  }

  /** A refresh with a session of this connection is past its registry read, or authenticated. */
  ghost predicate RefreshUnderway(s: State, r: nat, c: Connection) {
    r in s.requests && match s.requests[r]
      case Checked(_, session, _, refresh, _) => refresh && session.connection == c
      case Refreshing(_, session) => session.connection == c
      case _ => false
  }

  ghost predicate Clean(s: State, c: Connection) {
    !Owns(s.sessions, c) && forall r :: r in s.requests ==> !RefreshUnderway(s, r, c)
  }

  lemma HandlerKeepsClean(s: State, e: HandlerEvent, c: Connection)
    requires Inv(s) && Retired(s, c) && Clean(s, c)
    ensures Clean(HandlerStep(s, e), c)
  {
    HandlerFrame(s, e);
    var t := HandlerStep(s, e);
    forall d | d in t.sessions ensures t.sessions[d].connection != c {
      if d in s.sessions { assert s.sessions[d].connection != c; }
    }
  }

  lemma CheckRegistryKeepsClean(s: State, r: nat, c: Connection)
    requires Inv(s) && Retired(s, c) && Clean(s, c)
    ensures Clean(CheckRegistryStep(s, r), c)
  {
    var t := CheckRegistryStep(s, r);
    if r in s.requests && s.requests[r].Looked? {
      assert RequestOk(s.requests[r], s.issued);
      assert Known(s.handlers, s.requests[r].session.connection);
    }
    forall q | q in t.requests ensures !RefreshUnderway(t, q, c) {
      assert !RefreshUnderway(s, q, c);
    }
  }

  lemma VerdictKeepsClean(s: State, r: nat, active: bool, c: Connection)
    requires Clean(s, c)
    ensures Clean(VerdictStep(s, r, active), c)
  {
    var t := VerdictStep(s, r, active);
    forall q | q in t.requests ensures !RefreshUnderway(t, q, c) {
      assert !RefreshUnderway(s, q, c);
    }
  }

  lemma IssueKeepsClean(s: State, r: nat, digest: Digest, expiresAt: int, c: Connection)
    requires Clean(s, c)
    ensures Clean(IssueRefreshStep(s, r, digest, expiresAt), c)
  {
    var t := IssueRefreshStep(s, r, digest, expiresAt);
    if r in s.requests { assert !RefreshUnderway(s, r, c); }
    forall d | d in t.sessions ensures t.sessions[d].connection != c {
      if d in s.sessions { assert s.sessions[d].connection != c; }
    }
    forall q | q in t.requests ensures !RefreshUnderway(t, q, c) {
      assert q in s.requests ==> !RefreshUnderway(s, q, c);
    }
  }

  lemma OtherRequestKeepsClean(s: State, e: RequestEvent, c: Connection)
    requires Clean(s, c) && (e.ReadSession? || e.DropOld?)
    ensures Clean(RequestStep(s, e), c)
  {
    var t := RequestStep(s, e);
    forall d | d in t.sessions ensures t.sessions[d].connection != c { assert d in s.sessions && s.sessions[d].connection != c; }
    forall q | q in t.requests ensures !RefreshUnderway(t, q, c) {
      assert q in s.requests ==> !RefreshUnderway(s, q, c);
    }
  }

  lemma RequestKeepsClean(s: State, e: RequestEvent, c: Connection)
    requires Inv(s) && Retired(s, c) && Clean(s, c)
    ensures Clean(RequestStep(s, e), c)
  {
    match e
    case CheckRegistry(r) => CheckRegistryKeepsClean(s, r, c);
    case Verdict(r, active) => VerdictKeepsClean(s, r, active, c);
    case IssueRefresh(r, digest, expiresAt) => IssueKeepsClean(s, r, digest, expiresAt, c);
    case _ => OtherRequestKeepsClean(s, e, c);
  }

  lemma {:induction false} CleanStaysClean(s: State, es: seq<Event>, c: Connection)
    requires Inv(s) && Retired(s, c) && Clean(s, c)
    ensures Clean(Run(s, es), c)
    decreases |es|
  {
    if es != [] {
      match es[0] {
        case OfHandler(h) => HandlerKeepsClean(s, h, c);
        case OfRequest(q) => RequestKeepsClean(s, q, c);
        case _ =>
      }
      StepKeepsInv(s, es[0]);
      RetiredStaysRetired(s, es[0], c);
      CleanStaysClean(Step(s, es[0]), es[1..], c);
    }
  }

  /** An unused digest. */
  lemma FreshDigest(issued: Sessions) returns (d: Digest)
    ensures d !in issued
  {
    d := Above(issued.Keys);
  }

  ghost function Above(ids: set<nat>): (n: nat)
    ensures forall i :: i in ids ==> i < n
  {
    if ids == {} then 0
    else
      var one :| one in ids;
      var rest := Above(ids - {one});
      assert ids == (ids - {one}) + {one};
      if one < rest then rest else one + 1
  }

  /** A refresh underway puts a session of its connection into the map, retired or not. */
  lemma RefreshOutlivesTeardown(s: State, r: nat, c: Connection) returns (es: seq<Event>)
    requires RefreshUnderway(s, r, c)
    ensures Owns(Run(s, es).sessions, c)
  {
    var d := FreshDigest(s.issued);
    var t := s;
    es := [OfRequest(IssueRefresh(r, d, 0))];
    if s.requests[r].Checked? {
      t := Step(s, OfRequest(Verdict(r, true)));
      assert t.requests[r] == Refreshing(s.requests[r].digest, s.requests[r].session);
    }
    var u := Step(t, es[0]);
    assert d in u.sessions && u.sessions[d].connection == c;
    assert Run(t, es) == Run(u, []) == u;
    if s.requests[r].Checked? {
      es := [OfRequest(Verdict(r, true))] + es;
      assert es[1..] == [OfRequest(IssueRefresh(r, d, 0))];
    }
  }

  ghost predicate OwnsAfter(s: State, es: seq<Event>, c: Connection) { Owns(Run(s, es).sessions, c) }

  /** Exactly then: a retired connection never owns a session again, whatever comes, if and
      only if it owns none now and none of its refreshes is past the registry read. */
  lemma RetiredOwnsNothingExactlyWhen(s: State, c: Connection)
    requires Inv(s) && Retired(s, c)
    ensures (forall es :: !OwnsAfter(s, es, c)) <==> Clean(s, c)
  {
    if Clean(s, c) {
      forall es ensures !OwnsAfter(s, es, c) { CleanStaysClean(s, es, c); }
    } else if Owns(s.sessions, c) {
      assert OwnsAfter(s, [], c);
    } else {
      var r :| r in s.requests && RefreshUnderway(s, r, c);
      var es := RefreshOutlivesTeardown(s, r, c);
      assert OwnsAfter(s, es, c);
    }
  }

  lemma {:induction false} RunSplits(s: State, front: seq<Event>, back: seq<Event>)
    ensures Run(s, front + back) == Run(Run(s, front), back)
    decreases |front|
  {
    if front == [] {
      assert front + back == back;
    } else {
      assert (front + back)[1..] == front[1..] + back;
      RunSplits(Step(s, front[0]), front[1..], back);
    }
  }

  lemma RunOfOne(s: State, e: Event)
    ensures Run(s, [e]) == Step(s, e)
  {
    assert Run(Step(s, e), []) == Step(s, e);
  }

  /** A connection registers, and one of its refreshes is authenticated. */
  function Refreshed(c: Connection): seq<Event> {
    [OfHandler(Accept(c, 1, 10))] + [OfHandler(Register(c.id))] + [OfRequest(ReadSession(7, 1, c.key.nodeID, true))]
    + [OfRequest(CheckRegistry(7))] + [OfRequest(Verdict(7, true))]
  }

  /** Its teardown, and then the new token of that refresh. */
  function TornDown(c: Connection): seq<Event> {
    [OfHandler(Unregister(c.id))] + [OfHandler(Invalidate(c.id))] + [OfRequest(IssueRefresh(7, 2, 20))]
  }

  lemma ComesToRefresh(c: Connection)
    ensures var s := Run(INIT, Refreshed(c));
      && s.nodes == map[c.key := c] && s.handlers == map[c.id := (c, Serving)] && s.sessions == map[1 := Session(c, 10)]
      && s.issued == s.sessions && s.requests == map[7 := Refreshing(1, Session(c, 10))] && s.clock == 0 && !s.closed
  {
    var session := Session(c, 10);
    var e0, e1, e2 := OfHandler(Accept(c, 1, 10)), OfHandler(Register(c.id)), OfRequest(ReadSession(7, 1, c.key.nodeID, true));
    var s0 := Step(INIT, e0);
    assert s0 == State(map[], map[1 := session], false, 0, map[c.id := (c, Authenticated)], map[1 := session], map[], []);
    var s1 := Step(s0, e1);
    assert s1 == State(map[c.key := c], map[1 := session], false, 0, map[c.id := (c, Serving)], map[1 := session], map[], []);
    var s2 := Step(s1, e2);
    assert s2 == s1.(requests := map[7 := Looked(1, session, 0, true)]);
    var s3 := Step(s2, OfRequest(CheckRegistry(7)));
    assert s3 == s1.(requests := map[7 := Checked(1, session, 0, true, c)]);
    RunOfOne(INIT, e0);
    RunSplits(INIT, [e0], [e1]);
    RunOfOne(s0, e1);
    RunSplits(INIT, [e0] + [e1], [e2]);
    RunOfOne(s1, e2);
    RunSplits(INIT, [e0] + [e1] + [e2], [OfRequest(CheckRegistry(7))]);
    RunOfOne(s2, OfRequest(CheckRegistry(7)));
    RunSplits(INIT, [e0] + [e1] + [e2] + [OfRequest(CheckRegistry(7))], [OfRequest(Verdict(7, true))]);
    RunOfOne(s3, OfRequest(Verdict(7, true)));
  }

  /** Such a refresh is reachable: it authenticates, the connection is torn down and its
      sessions are removed, and then the new token goes into the map. */
  lemma RefreshCanOutliveTeardown(c: Connection)
    ensures var s := Run(INIT, Refreshed(c) + TornDown(c));
      Retired(s, c) && s.sessions == map[2 := Session(c, 20)]
  {
    ComesToRefresh(c);
    var s := Run(INIT, Refreshed(c));
    var e0, e1, e2 := OfHandler(Unregister(c.id)), OfHandler(Invalidate(c.id)), OfRequest(IssueRefresh(7, 2, 20));
    var t0 := Step(s, e0);
    assert t0.handlers == map[c.id := (c, Ended)] && t0.nodes == map[] && t0.sessions == s.sessions;
    var t1 := Step(t0, e1);
    assert t1.sessions == map[] && t1.requests == s.requests && t1.issued == s.issued;
    RunOfOne(s, e0);
    RunSplits(s, [e0], [e1]);
    RunOfOne(t0, e1);
    RunSplits(s, [e0] + [e1], [e2]);
    RunOfOne(t1, e2);
    RunSplits(INIT, Refreshed(c), TornDown(c));
  }
}
