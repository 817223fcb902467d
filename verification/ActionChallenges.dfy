/** One-time challenges for high-risk admin actions (internal/server/admin.go). */
module ActionChallenges {
  import opened Prelude

  const CHALLENGE_TTL: int := MINUTE

  /** What an action is: a method and path, and the digest of the request's canonical
      JSON (section 3.2 of RFC 8785). Digests stand for the canonical bytes themselves. */
  datatype Action = Action(verb: string, path: string, bodyDigest: string)

  /** A pending challenge, bound to one admin session. */
  datatype Challenge = Challenge(session: string, action: Action, expiresAt: int)

  type Pending = map<nat, Challenge>

  function Unexpired(pending: Pending, now: int): Pending {
    map id | id in pending && now < pending[id].expiresAt :: pending[id]
  }

  /** The conditions `requireHighRisk` checks once it has removed the challenge.
      `signed` stands for a well-formed signature by an active client's key. */
  predicate Accepts(taken: Option<Challenge>, session: string, action: Action, now: int, signed: bool) {
    taken.Some? && taken.value.session == session && taken.value.action == action && now < taken.value.expiresAt && signed
  }

  class ChallengeBook {
    var actionChallenges: Pending

    constructor ()
      ensures actionChallenges == map[]
    {
      actionChallenges := map[];
    }

    method IssueActionChallenge(id: nat, session: string, action: Action, now: int)
      modifies this
      ensures actionChallenges == old(actionChallenges)[id := Challenge(session, action, now + 60_000_000_000)]
    {
      actionChallenges := actionChallenges[id := Challenge(session, action, now + CHALLENGE_TTL)];
    }

    method Cleanup(now: int)
      modifies this
      ensures actionChallenges == Unexpired(old(actionChallenges), now)
      ensures forall id :: id in actionChallenges <==> id in old(actionChallenges) && now < old(actionChallenges)[id].expiresAt
    {
      var before := actionChallenges;
      var rest := before.Keys;
      while rest != {}
        invariant rest <= before.Keys
        invariant actionChallenges == map id | id in before && (id in rest || now < before[id].expiresAt) :: before[id]
        decreases |rest|
      {
        var id :| id in rest;
        if before[id].expiresAt <= now { actionChallenges := actionChallenges - {id}; }
        rest := rest - {id};
      }
    }

    /** The challenge is gone after the first use, whether or not the action is admitted. */
    method RequireHighRisk(id: nat, session: string, action: Action, now: int, signed: bool) returns (admitted: bool)
      modifies this
      ensures admitted <==> id in old(actionChallenges) && var challenge := old(actionChallenges)[id];
        challenge.session == session && challenge.action == action && now < challenge.expiresAt && signed
      ensures actionChallenges == Without(old(actionChallenges), id)
    {
      var found := id in actionChallenges;
      if !found {
        actionChallenges := actionChallenges - {id};
        return false;
      }
      var pending := actionChallenges[id];
      actionChallenges := actionChallenges - {id};
      if pending.session != session || pending.action.verb != action.verb || pending.action.path != action.path
         || pending.action.bodyDigest != action.bodyDigest || pending.expiresAt <= now || !signed {
        return false;
      }
      return true;
    }
  }

  // --- The interleaved system ---------------------------------------------------------

  /** A request between removing its challenge and checking it. */
  datatype Attempt = Attempt(id: nat, taken: Option<Challenge>, session: string, action: Action)

  datatype Admission = Admission(id: nat, session: string, action: Action, at: int)

  /** `issued` and `spent` are history: every challenge ever issued, and every ID
      whose challenge some request removed. */
  datatype State = State(
    clock: int, pending: Pending, issued: Pending, spent: set<nat>, attempts: map<nat, Attempt>, admitted: seq<Admission>)

  datatype Event =
    | Tick(now: int)
    | Sweep(at: int)
    | Issue(id: nat, session: string, action: Action, at: int)
    | Take(r: nat, id: nat, session: string, action: Action)
    | Decide(r: nat, signed: bool)

  const INIT: State := State(0, map[], map[], {}, map[], [])

  function Step(s: State, e: Event): State {
    match e
    case Tick(now) => s.(clock := now)
    case Sweep(at) => s.(pending := Unexpired(s.pending, at))
    case Issue(id, session, action, at) =>
      if id in s.issued then s
      else
        var challenge := Challenge(session, action, at + CHALLENGE_TTL);
        s.(pending := s.pending[id := challenge], issued := s.issued[id := challenge])
    case Take(r, id, session, action) =>
      if r in s.attempts then s
      else if id in s.pending then
        s.(attempts := s.attempts[r := Attempt(id, Some(s.pending[id]), session, action)], pending := Without(s.pending, id), spent := s.spent + {id})
      else s.(attempts := s.attempts[r := Attempt(id, None, session, action)])
    case Decide(r, signed) =>
      if r !in s.attempts then s
      else
        var a := s.attempts[r];
        var t := s.(attempts := Without(s.attempts, r));
        if Accepts(a.taken, a.session, a.action, s.clock, signed) then t.(admitted := t.admitted + [Admission(a.id, a.session, a.action, s.clock)]) else t
  }

  function Run(s: State, es: seq<Event>): State
    decreases |es|
  {
    if es == [] then s else Run(Step(s, es[0]), es[1..])
  }

  // --- What every step keeps ----------------------------------------------------------------

  ghost predicate PendingOk(pending: Pending, issued: Pending, spent: set<nat>) {
    && (forall id :: id in pending ==> id in issued && issued[id] == pending[id] && id !in spent)
    && (forall id :: id in spent ==> id in issued)
  }

  ghost predicate Took(a: Attempt, issued: Pending, spent: set<nat>) {
    a.taken.Some? ==> a.id in spent && a.id in issued && issued[a.id] == a.taken.value
  }

  /** A removed challenge is held by exactly one undecided request. */
  ghost predicate AttemptsOk(attempts: map<nat, Attempt>, issued: Pending, spent: set<nat>) {
    && (forall r :: r in attempts ==> Took(attempts[r], issued, spent))
    && (forall q, r :: q in attempts && r in attempts && attempts[q].taken.Some? && attempts[r].taken.Some? && attempts[q].id == attempts[r].id ==> q == r)
  }

  /** The action used a challenge issued to its session for exactly it, unexpired. */
  ghost predicate Licensed(issued: Pending, x: Admission) {
    && x.id in issued && issued[x.id].session == x.session && issued[x.id].action == x.action && x.at < issued[x.id].expiresAt
  }

  ghost predicate AdmittedOk(admitted: seq<Admission>, issued: Pending, spent: set<nat>) {
    && (forall i :: 0 <= i < |admitted| ==> Licensed(issued, admitted[i]) && admitted[i].id in spent)
    && (forall i, j :: 0 <= i < j < |admitted| ==> admitted[i].id != admitted[j].id)
  }

  /** The challenge is held by no undecided request. */
  ghost predicate Unheld(id: nat, attempts: map<nat, Attempt>) {
    forall r :: r in attempts && attempts[r].taken.Some? ==> attempts[r].id != id
  }

  ghost predicate NoneHeld(admitted: seq<Admission>, attempts: map<nat, Attempt>) {
    forall i :: 0 <= i < |admitted| ==> Unheld(admitted[i].id, attempts)
  }

  ghost predicate Inv(s: State) {
    && PendingOk(s.pending, s.issued, s.spent) && AttemptsOk(s.attempts, s.issued, s.spent)
    && AdmittedOk(s.admitted, s.issued, s.spent) && NoneHeld(s.admitted, s.attempts)
  }

  lemma TakeKeepsInv(s: State, r: nat, id: nat, session: string, action: Action)
    requires Inv(s)
    ensures Inv(Step(s, Take(r, id, session, action)))
  {
    var t := Step(s, Take(r, id, session, action));
    forall i | 0 <= i < |t.admitted| ensures Unheld(t.admitted[i].id, t.attempts) {
      assert Unheld(s.admitted[i].id, s.attempts);
    }
  }

  lemma DecideKeepsInv(s: State, r: nat, signed: bool)
    requires Inv(s)
    ensures Inv(Step(s, Decide(r, signed)))
  {
    var t := Step(s, Decide(r, signed));
    if r in s.attempts {
      assert Took(s.attempts[r], s.issued, s.spent);
      forall i | 0 <= i < |t.admitted| ensures Unheld(t.admitted[i].id, t.attempts) {
        if i < |s.admitted| { assert Unheld(s.admitted[i].id, s.attempts); }
      }
    }
  }

  lemma StepKeepsInv(s: State, e: Event)
    requires Inv(s)
    ensures Inv(Step(s, e))
  {
    match e
    case Take(r, id, session, action) => TakeKeepsInv(s, r, id, session, action);
    case Decide(r, signed) => DecideKeepsInv(s, r, signed);
    case _ =>
  }

  lemma {:induction false} RunKeepsInv(s: State, es: seq<Event>)
    requires Inv(s)
    ensures Inv(Run(s, es))
    decreases |es|
  {
    if es != [] {
      StepKeepsInv(s, es[0]);
      RunKeepsInv(Step(s, es[0]), es[1..]);
    }
  }

  // --- Main results -----------------------------------------------------------------------------

  /** In every interleaving, every admitted action used a challenge that was issued to its
      own session for exactly that method, path and body and had not expired. */
  lemma AdmittedActionsAreLicensed(es: seq<Event>, i: nat)
    requires i < |Run(INIT, es).admitted|
    ensures Licensed(Run(INIT, es).issued, Run(INIT, es).admitted[i])
  {
    RunKeepsInv(INIT, es);
  }

  /** In every interleaving, no challenge admits two actions. */
  lemma ChallengesAreOneTime(es: seq<Event>, i: nat, j: nat)
    requires i < j < |Run(INIT, es).admitted|
    ensures Run(INIT, es).admitted[i].id != Run(INIT, es).admitted[j].id
  {
    RunKeepsInv(INIT, es);
  }

  lemma SpentStep(s: State, e: Event, id: nat)
    requires Inv(s) && id in s.spent && Unheld(id, s.attempts)
    ensures var t := Step(s, e); id in t.spent && Unheld(id, t.attempts) && s.admitted <= t.admitted
    ensures var t := Step(s, e); forall i :: |s.admitted| <= i < |t.admitted| ==> t.admitted[i].id != id
  {
  }

  /** A challenge that some request removed never admits another one, whatever comes. */
  lemma {:induction false} SpentChallengeNeverAdmits(s: State, es: seq<Event>, id: nat)
    requires Inv(s) && id in s.spent && Unheld(id, s.attempts)
    ensures s.admitted <= Run(s, es).admitted
    ensures forall i :: |s.admitted| <= i < |Run(s, es).admitted| ==> Run(s, es).admitted[i].id != id
    decreases |es|
  {
    if es != [] {
      StepKeepsInv(s, es[0]);
      SpentStep(s, es[0], id);
      SpentChallengeNeverAdmits(Step(s, es[0]), es[1..], id);
    }
  }

  // --- Issuing and using ---------------------------------------------------------------------

  /** Nobody uses the challenge, and no sweep counts it as expired. */
  ghost predicate LeavesAlone(e: Event, id: nat, expiresAt: int) {
    && (e.Take? ==> e.id != id)
    && (e.Sweep? ==> e.at < expiresAt)
  }

  lemma {:induction false} ChallengeStays(s: State, es: seq<Event>, id: nat)
    requires Inv(s) && id in s.pending && forall i :: 0 <= i < |es| ==> LeavesAlone(es[i], id, s.pending[id].expiresAt)
    ensures Inv(Run(s, es)) && id in Run(s, es).pending && Run(s, es).pending[id] == s.pending[id]
    decreases |es|
  {
    if es != [] {
      StepKeepsInv(s, es[0]);
      assert LeavesAlone(es[0], id, s.pending[id].expiresAt);
      ChallengeStays(Step(s, es[0]), es[1..], id);
    }
  }

  /** The round trip: whatever happens between, the first request that uses an issued
      challenge is admitted exactly if it comes from the session it was issued to, is for the
      action it was issued for, is signed, and is decided within the minute. */
  lemma IssuedChallengeAdmitsExactlyItsAction(s: State, id: nat, session: string, action: Action, at: int, es: seq<Event>,
                                              r: nat, user: string, use: Action, between: seq<Event>, signed: bool)
    requires Inv(s) && id !in s.issued
    requires forall i :: 0 <= i < |es| ==> LeavesAlone(es[i], id, at + 60_000_000_000)
    requires r !in Run(Step(s, Issue(id, session, action, at)), es).attempts
    requires forall i :: 0 <= i < |between| && between[i].Decide? ==> between[i].r != r
    ensures var taken := Step(Run(Step(s, Issue(id, session, action, at)), es), Take(r, id, user, use));
      var decided := Run(taken, between);
      Step(decided, Decide(r, signed)).admitted ==
        if user == session && use == action && decided.clock < at + 60_000_000_000 && signed
        then decided.admitted + [Admission(id, user, use, decided.clock)] else decided.admitted
  {
    var issued := Step(s, Issue(id, session, action, at));
    StepKeepsInv(s, Issue(id, session, action, at));
    ChallengeStays(issued, es, id);
    TakenThenDecided(Run(issued, es), id, r, user, use, between, signed);
  }

  lemma TakenThenDecided(s: State, id: nat, r: nat, user: string, use: Action, between: seq<Event>, signed: bool)
    requires id in s.pending && r !in s.attempts && forall i :: 0 <= i < |between| && between[i].Decide? ==> between[i].r != r
    ensures var decided := Run(Step(s, Take(r, id, user, use)), between);
      Step(decided, Decide(r, signed)).admitted ==
        if Accepts(Some(s.pending[id]), user, use, decided.clock, signed)
        then decided.admitted + [Admission(id, user, use, decided.clock)] else decided.admitted
  {
    var taken := Step(s, Take(r, id, user, use));
    assert taken.attempts[r] == Attempt(id, Some(s.pending[id]), user, use);
    AttemptStays(taken, between, r);
  }

  /** What a request took stays with it until it decides. */
  lemma {:induction false} AttemptStays(s: State, es: seq<Event>, r: nat)
    requires r in s.attempts && forall i :: 0 <= i < |es| && es[i].Decide? ==> es[i].r != r
    ensures r in Run(s, es).attempts && Run(s, es).attempts[r] == s.attempts[r]
    decreases |es|
  {
    if es != [] { AttemptStays(Step(s, es[0]), es[1..], r); }
  }
}
