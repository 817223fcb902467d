/** What one request and one connection come to when nothing else happens in between
    (internal/server/node_sessions.go; register, unregister and teardown in
    internal/server/hub.go). */
module NodeOperations {
  import opened Prelude
  import opened NodeSessions

  // --- Requests ---------------------------------------------------------------------------

  /** The token is known and unexpired, names the node, and the registry has the connection
      it was issued for. */
  ghost predicate Valid(s: State, digest: Digest, nodeID: string) {
    && digest in s.sessions && s.clock < s.sessions[digest].expiresAt
    && var key := s.sessions[digest].connection.key;
       key.nodeID == nodeID && key in s.nodes && s.nodes[key].id == s.sessions[digest].connection.id
  }

  /** The same sessions but the expired ones. */
  ghost predicate Swept(before: Sessions, after: Sessions, now: int) {
    && (forall d :: d in after <==> d in before && now < before[d].expiresAt)
    && (forall d :: d in after ==> after[d] == before[d])
  }

  lemma ReadComesTo(s: State, r: nat, digest: Digest, nodeID: string, refresh: bool)
    requires r !in s.requests
    ensures var t := ReadSessionStep(s, r, digest, nodeID, refresh);
      && Swept(s.sessions, t.sessions, s.clock)
      && t == s.(sessions := t.sessions, requests := t.requests)
      && t.requests == if digest in s.sessions && s.clock < s.sessions[digest].expiresAt && s.sessions[digest].connection.key.nodeID == nodeID
                       then s.requests[r := Looked(digest, s.sessions[digest], s.clock, refresh)] else s.requests
  {
  }

  lemma CheckComesTo(s: State, r: nat)
    requires r in s.requests && s.requests[r].Looked?
    ensures var q := s.requests[r];
      var key := q.session.connection.key;
      CheckRegistryStep(s, r) == s.(requests :=
        if key in s.nodes && s.nodes[key].id == q.session.connection.id
        then s.requests[r := Checked(q.digest, q.session, q.readAt, q.refresh, s.nodes[key])] else s.requests - {r})
  {
  }

  lemma VerdictComesTo(s: State, r: nat, active: bool)
    requires r in s.requests && s.requests[r].Checked? && !s.requests[r].refresh
    ensures var q := s.requests[r];
      VerdictStep(s, r, active) == s.(requests := s.requests - {r},
        admitted := if active then s.admitted + [Admission(r, q.digest, q.session, q.readAt, q.registered)] else s.admitted)
  {
  }

  /** After the session read, a request is admitted exactly if the registry has its session's
      connection and the store has the node active; it leaves no other trace. */
  lemma LookedComesTo(s: State, r: nat, active: bool)
    requires r in s.requests && s.requests[r].Looked? && !s.requests[r].refresh
    ensures var q := s.requests[r];
      var key := q.session.connection.key;
      VerdictStep(CheckRegistryStep(s, r), r, active) == s.(requests := s.requests - {r},
        admitted := if key in s.nodes && s.nodes[key].id == q.session.connection.id && active
                    then s.admitted + [Admission(r, q.digest, q.session, q.readAt, s.nodes[key])] else s.admitted)
  {
    CheckComesTo(s, r);
    var t := CheckRegistryStep(s, r);
    if r in t.requests {
      VerdictComesTo(t, r, active);
      assert t.requests - {r} == s.requests - {r};
    }
  }

  /** A request is admitted exactly if its token is valid and the store has the node active;
      expired sessions are gone, and the request leaves no other trace. */
  lemma RequestComesTo(s: State, r: nat, digest: Digest, nodeID: string, active: bool)
    requires r !in s.requests
    ensures var t := RequestStep(RequestStep(RequestStep(s, ReadSession(r, digest, nodeID, false)), CheckRegistry(r)), Verdict(r, active));
      && Swept(s.sessions, t.sessions, s.clock) && t.requests == s.requests && t.nodes == s.nodes && t.handlers == s.handlers && t.issued == s.issued
      && t.admitted == if Valid(s, digest, nodeID) && active
           then s.admitted + [Admission(r, digest, s.sessions[digest], s.clock, s.nodes[s.sessions[digest].connection.key])] else s.admitted
  {
    ReadComesTo(s, r, digest, nodeID, false);
    var looked := ReadSessionStep(s, r, digest, nodeID, false);
    if r in looked.requests {
      LookedComesTo(looked, r, active);
      assert looked.requests - {r} == s.requests;
    }
  }

  lemma IssueComesTo(s: State, r: nat, digest: Digest, expiresAt: int)
    requires r in s.requests && s.requests[r].Refreshing? && digest !in s.issued
    ensures var t := IssueRefreshStep(s, r, digest, expiresAt);
      && t.requests == s.requests[r := Issued(s.requests[r].digest)] && t.nodes == s.nodes && t.admitted == s.admitted && t.clock == s.clock
      && (forall d :: d in t.sessions <==> d == digest || (d in s.sessions && s.clock < s.sessions[d].expiresAt))
      && (forall d :: d in t.sessions ==> t.sessions[d] == if d == digest then Session(s.requests[r].session.connection, expiresAt) else s.sessions[d])
  {
  }

  lemma RefreshAdmitted(s: State, r: nat, digest: Digest, nodeID: string)
    requires r !in s.requests && Valid(s, digest, nodeID)
    ensures var t := RequestStep(RequestStep(RequestStep(s, ReadSession(r, digest, nodeID, true)), CheckRegistry(r)), Verdict(r, true));
      && t.requests == s.requests[r := Refreshing(digest, s.sessions[digest])] && Swept(s.sessions, t.sessions, s.clock)
      && t.clock == s.clock && t.issued == s.issued && t.nodes == s.nodes
  {
    ReadComesTo(s, r, digest, nodeID, true);
    var s1 := ReadSessionStep(s, r, digest, nodeID, true);
    CheckComesTo(s1, r);
    var s2 := CheckRegistryStep(s1, r);
    assert s2.requests[r].Checked?;
    assert VerdictStep(s2, r, true).requests == s.requests[r := Refreshing(digest, s.sessions[digest])];
  }

  lemma TokenReplaced(s: State, r: nat, digest: Digest, expiresAt: int)
    requires r in s.requests && s.requests[r].Refreshing? && digest !in s.issued && digest != s.requests[r].digest
    ensures var t, was := RequestStep(RequestStep(s, IssueRefresh(r, digest, expiresAt)), DropOld(r)), s.requests[r].digest;
      && t.requests == s.requests - {r} && t.nodes == s.nodes && was !in t.sessions
      && digest in t.sessions && t.sessions[digest] == Session(s.requests[r].session.connection, expiresAt)
      && forall d :: d != was && d != digest ==>
           (d in t.sessions <==> d in s.sessions && s.clock < s.sessions[d].expiresAt) && (d in t.sessions ==> t.sessions[d] == s.sessions[d])
  {
    IssueComesTo(s, r, digest, expiresAt);
    var issued := IssueRefreshStep(s, r, digest, expiresAt);
    DropComesTo(issued, r);
    assert issued.requests - {r} == s.requests - {r};
  }

  /** A refresh with a valid token, of an active node: the new token stands for the same
      connection and the old one is gone, so it authenticates no more; every other unexpired
      session stays. */
  lemma RefreshComesTo(s: State, r: nat, was: Digest, nodeID: string, digest: Digest, expiresAt: int)
    requires r !in s.requests && Valid(s, was, nodeID) && digest !in s.issued && digest != was
    ensures var admitted := RequestStep(RequestStep(RequestStep(s, ReadSession(r, was, nodeID, true)), CheckRegistry(r)), Verdict(r, true));
      var t := RequestStep(RequestStep(admitted, IssueRefresh(r, digest, expiresAt)), DropOld(r));
      && t.requests == s.requests && t.nodes == s.nodes && was !in t.sessions
      && digest in t.sessions && t.sessions[digest] == Session(s.sessions[was].connection, expiresAt)
      && forall d :: d != was && d != digest ==>
           (d in t.sessions <==> d in s.sessions && s.clock < s.sessions[d].expiresAt) && (d in t.sessions ==> t.sessions[d] == s.sessions[d])
  {
    RefreshAdmitted(s, r, was, nodeID);
    var admitted := RequestStep(RequestStep(RequestStep(s, ReadSession(r, was, nodeID, true)), CheckRegistry(r)), Verdict(r, true));
    TokenReplaced(admitted, r, digest, expiresAt);
    assert s.requests[r := Refreshing(was, s.sessions[was])] - {r} == s.requests;
  }

  lemma DropComesTo(s: State, r: nat)
    requires r in s.requests && s.requests[r].Issued?
    ensures DropOldStep(s, r) == s.(sessions := s.sessions - {s.requests[r].digest}, requests := s.requests - {r})
  {
  }

  // --- Connections --------------------------------------------------------------------------

  /** A connection that authenticates with a session token owns that session, and one that
      registers takes its key, unless the hub is closed. */
  lemma RegistrationComesTo(s: State, c: Connection, digest: Digest, expiresAt: int)
    requires c.id !in s.handlers && digest !in s.issued
    ensures var t := HandlerStep(HandlerStep(s, Accept(c, digest, expiresAt)), Register(c.id));
      && digest in t.sessions && t.sessions[digest] == Session(c, expiresAt)
      && (forall d :: d != digest ==> (d in t.sessions <==> d in s.sessions && s.clock < s.sessions[d].expiresAt) && (d in t.sessions ==> t.sessions[d] == s.sessions[d]))
      && t.nodes == if s.closed then s.nodes else s.nodes[c.key := c]
  {
    AcceptComesTo(s, c, digest, expiresAt);
    RegisterComesTo(AcceptStep(s, c, digest, expiresAt), c);
  }

  lemma AcceptComesTo(s: State, c: Connection, digest: Digest, expiresAt: int)
    requires c.id !in s.handlers && digest !in s.issued
    ensures var t := AcceptStep(s, c, digest, expiresAt);
      && t.handlers == s.handlers[c.id := (c, Authenticated)] && t.nodes == s.nodes && t.closed == s.closed
      && digest in t.sessions && t.sessions[digest] == Session(c, expiresAt)
      && (forall d :: d != digest ==> (d in t.sessions <==> d in s.sessions && s.clock < s.sessions[d].expiresAt) && (d in t.sessions ==> t.sessions[d] == s.sessions[d]))
  {
  }

  lemma RegisterComesTo(s: State, c: Connection)
    requires c.id in s.handlers && s.handlers[c.id] == (c, Authenticated)
    ensures var t := RegisterStep(s, c.id);
      t.sessions == s.sessions && t.nodes == if s.closed then s.nodes else s.nodes[c.key := c]
  {
  }

  /** The teardown of a serving connection takes it, and no other one, from the registry, and
      removes its sessions and no others. */
  lemma TeardownComesTo(s: State, c: Connection)
    requires c.id in s.handlers && s.handlers[c.id] == (c, Serving)
    ensures var t := HandlerStep(HandlerStep(s, Unregister(c.id)), Invalidate(c.id));
      && (forall k :: k in t.nodes <==> k in s.nodes && !(k == c.key && s.nodes[k] == c)) && (forall k :: k in t.nodes ==> t.nodes[k] == s.nodes[k])
      && (forall d :: d in t.sessions <==> d in s.sessions && s.sessions[d].connection != c) && (forall d :: d in t.sessions ==> t.sessions[d] == s.sessions[d])
  {
    UnregisterComesTo(s, c);
    InvalidateComesTo(UnregisterStep(s, c.id), c);
  }

  lemma UnregisterComesTo(s: State, c: Connection)
    requires c.id in s.handlers && s.handlers[c.id] == (c, Serving)
    ensures var t := UnregisterStep(s, c.id);
      && t.sessions == s.sessions && t.handlers == s.handlers[c.id := (c, Ended)]
      && (forall k :: k in t.nodes <==> k in s.nodes && !(k == c.key && s.nodes[k] == c)) && (forall k :: k in t.nodes ==> t.nodes[k] == s.nodes[k])
  {
  }

  lemma InvalidateComesTo(s: State, c: Connection)
    requires c.id in s.handlers && s.handlers[c.id].0 == c
    ensures var t := HandlerStep(s, Invalidate(c.id));
      && t.nodes == s.nodes
      && (forall d :: d in t.sessions <==> d in s.sessions && s.sessions[d].connection != c) && (forall d :: d in t.sessions ==> t.sessions[d] == s.sessions[d])
  {
  }

  /** Closing takes everything: no connection stays registered, and no session. */
  lemma CloseComesTo(s: State)
    ensures var t := Step(Step(s, CloseRegistry), CloseSessions); t.closed && t.nodes == map[] && t.sessions == map[]
  {
  }
}
