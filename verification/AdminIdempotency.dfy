/** The admin API's idempotency cache: one execution per key, waiters, expiry and
    eviction of failures (internal/server/admin.go). */
module AdminIdempotency {
  import opened Prelude
  import opened Transport

  const CACHE_TTL: int := 10 * MINUTE
  const SERVER_ERROR: int := 500

  /** Owner, client and the caller's Idempotency-Key, joined. */
  datatype Key = Key(text: string)
  datatype Response = Response(status: int, header: string, body: string)

  /** What a cache entry shows before its handler has finished. */
  const BLANK: Response := Response(0, "", "")

  // --- The service object ---------------------------------------------------------

  /** One cache entry. `ready` is nil once the response is in place. */
  class CachedResponse {
    const bodyDigest: nat
    const expiresAt: int
    var response: Response
    var ready: Channel?<()>

    constructor (bodyDigest: nat, expiresAt: int)
      ensures this.bodyDigest == bodyDigest && this.expiresAt == expiresAt
      ensures ready != null && fresh(ready) && ready.Valid() && !ready.closed && response == BLANK
    {
      this.bodyDigest, this.expiresAt, response := bodyDigest, expiresAt, BLANK;
      ready := new Channel(0);
    }
  }

  datatype Verdict = Conflicting | Join(entry: CachedResponse) | Execute(entry: CachedResponse)

  class AdminService {
    var idempotency: map<Key, CachedResponse>

    constructor ()
      ensures idempotency == map[]
    {
      idempotency := map[];
    }

    ghost predicate Expired(entry: CachedResponse, now: int)
      reads entry
    {
      entry.ready == null && entry.expiresAt <= now
    }

    /** Drops exactly the finished entries that have expired. */
    method Cleanup(now: int)
      modifies this
      ensures idempotency == map k | k in old(idempotency) && !Expired(old(idempotency)[k], now) :: old(idempotency)[k]
    {
      var before := idempotency;
      var rest := before.Keys;
      while rest != {}
        invariant rest <= before.Keys
        invariant idempotency == map k | k in before && (k in rest || !Expired(before[k], now)) :: before[k]
        decreases |rest|
      {
        var k :| k in rest;
        if before[k].ready == null && before[k].expiresAt <= now {
          idempotency := idempotency - {k};
        }
        rest := rest - {k};
      }
    }

    /** The first critical section of a request. */
    method Admit(key: Key, digest: nat, now: int) returns (verdict: Verdict)
      modifies this
      ensures var kept := map k | k in old(idempotency) && !old(Expired(idempotency[k], now)) :: old(idempotency)[k];
        && (key in kept && kept[key].bodyDigest != digest ==> verdict == Conflicting && idempotency == kept)
        && (key in kept && kept[key].bodyDigest == digest ==> verdict == Join(kept[key]) && idempotency == kept)
        && (key !in kept ==>
              && verdict.Execute? && fresh(verdict.entry) && idempotency == kept[key := verdict.entry]
              && verdict.entry.ready != null && fresh(verdict.entry.ready) && verdict.entry.ready.Valid() && !verdict.entry.ready.closed
              && verdict.entry.bodyDigest == digest && verdict.entry.expiresAt == now + 600_000_000_000)
    {
      Cleanup(now);
      if key in idempotency {
        if idempotency[key].bodyDigest != digest { return Conflicting; }
        return Join(idempotency[key]);
      }
      var entry := new CachedResponse(digest, now + CACHE_TTL);
      idempotency := idempotency[key := entry];
      return Execute(entry);
    }

    /** The last critical section of an execution: publish a response, or evict a failure. */
    method Finish(key: Key, entry: CachedResponse, response: Response)
      requires entry.ready != null && entry.ready.Valid() && !entry.ready.closed
      modifies this, entry, entry.ready
      ensures old(entry.ready).closed
      ensures response.status < 500 ==> entry.response == response && entry.ready == null && idempotency == old(idempotency)
      ensures response.status >= 500 ==> entry.response == old(entry.response) && idempotency == Without(old(idempotency), key)
    {
      if response.status < SERVER_ERROR {
        entry.response := response;
        entry.ready.Close();
        entry.ready := null;
      } else {
        idempotency := idempotency - {key};
        entry.ready.Close();
      }
    }
  }

  // --- The interleaved system ----------------------------------------------------------

  datatype Outcome = Running | Done(response: Response) | Failed

  /** What a request is for: its route (method and path) and the digest of its body. */
  datatype Use = Use(route: string, digest: nat)

  /** A cache entry, named by a number. The source compares only the digest of `use` and
      keeps no route; `closes` counts closes of its ready channel. */
  datatype Entry = Entry(key: Key, use: Use, expiresAt: int, owner: nat, outcome: Outcome, closes: nat)

  /** A request: it read the clock, waits, is about to re-read, or executes the handler. */
  datatype Phase =
    | Timed(key: Key, use: Use, now: int)
    | Waiting(key: Key, use: Use, entry: nat)
    | Rereading(key: Key, use: Use, entry: nat)
    | Executing(key: Key, entry: nat)
    | Over

  /** A handler execution, and an answer given from the cache to a request: the entry it waited for, the entry it found, and what that showed. */
  datatype Execution = Execution(key: Key, use: Use, entry: nat, at: int)
  datatype Replay = Replay(use: Use, awaited: nat, found: nat, response: Response)

  type Entries = map<nat, Entry>

  datatype State = State(
    clock: int, entries: Entries, cache: map<Key, nat>, next: nat, requests: map<nat, Phase>,
    executions: seq<Execution>, replays: seq<Replay>)

  datatype Event =
    | Tick(now: int)
    | Sweep(at: int)
    | Arrive(r: nat, key: Key, use: Use)
    | Admit(r: nat)
    | Wake(r: nat)
    | Abort(r: nat)
    | Reread(r: nat)
    | Finish(r: nat, response: Response)

  const INIT: State := State(0, map[], map[], 0, map[], [], [])

  predicate Stale(entries: Entries, e: nat, now: int) {
    e in entries && entries[e].outcome.Done? && entries[e].expiresAt <= now
  }

  /** `cleanupLocked` on the cache. */
  function Kept(cache: map<Key, nat>, entries: Entries, now: int): map<Key, nat> {
    map k | k in cache && !Stale(entries, cache[k], now) :: cache[k]
  }

  function AdmitStep(s: State, r: nat): State {
    if r !in s.requests || !s.requests[r].Timed? then s
    else
      var (key, use, now) := (s.requests[r].key, s.requests[r].use, s.requests[r].now);
      var cache := Kept(s.cache, s.entries, now);
      if key in cache && cache[key] in s.entries then
        var e := s.entries[cache[key]];
        if e.use.digest != use.digest then s.(cache := cache, requests := s.requests[r := Over])
        else s.(cache := cache, requests := s.requests[r := if e.outcome.Running? then Waiting(key, use, cache[key]) else Rereading(key, use, cache[key])])
      else
        s.(entries := s.entries[s.next := Entry(key, use, now + CACHE_TTL, r, Running, 0)], next := s.next + 1,
           cache := cache[key := s.next], requests := s.requests[r := Executing(key, s.next)],
           executions := s.executions + [Execution(key, use, s.next, s.clock)])
  }

  function ShownBy(e: Entry): Response {
    if e.outcome.Done? then e.outcome.response else BLANK
  }

  function RereadStep(s: State, r: nat): State {
    if r !in s.requests || !s.requests[r].Rereading? then s
    else
      var key := s.requests[r].key;
      if key in s.cache && s.cache[key] in s.entries then
        s.(requests := s.requests[r := Over],
           replays := s.replays + [Replay(s.requests[r].use, s.requests[r].entry, s.cache[key], ShownBy(s.entries[s.cache[key]]))])
      else s.(requests := s.requests[r := Over])
  }

  function FinishStep(s: State, r: nat, response: Response): State {
    if r !in s.requests || !s.requests[r].Executing? || s.requests[r].entry !in s.entries then s
    else
      var (key, e) := (s.requests[r].key, s.requests[r].entry);
      var entry := s.entries[e].(closes := s.entries[e].closes + 1);
      if response.status < SERVER_ERROR then
        s.(entries := s.entries[e := entry.(outcome := Done(response))], requests := s.requests[r := Over])
      else
        s.(entries := s.entries[e := entry.(outcome := Failed)], cache := Without(s.cache, key), requests := s.requests[r := Over])
  }

  function Step(s: State, event: Event): State {
    match event
    case Tick(now) => s.(clock := now)
    case Sweep(at) => if at <= s.clock then s.(cache := Kept(s.cache, s.entries, at)) else s
    case Arrive(r, key, use) => if r in s.requests then s else s.(requests := s.requests[r := Timed(key, use, s.clock)])
    case Admit(r) => AdmitStep(s, r)
    case Wake(r) =>
      if r in s.requests && s.requests[r].Waiting? && s.requests[r].entry in s.entries && s.entries[s.requests[r].entry].closes > 0
      then s.(requests := s.requests[r := Rereading(s.requests[r].key, s.requests[r].use, s.requests[r].entry)]) else s
    case Abort(r) => if r in s.requests && s.requests[r].Waiting? then s.(requests := s.requests[r := Over]) else s
    case Reread(r) => RereadStep(s, r)
    case Finish(r, response) => FinishStep(s, r, response)
  }

  function Run(s: State, es: seq<Event>): State
    decreases |es|
  {
    if es == [] then s else Run(Step(s, es[0]), es[1..])
  }

  // --- What every step keeps ---------------------------------------------------------------

  ghost predicate CacheOk(cache: map<Key, nat>, entries: Entries) {
    forall k :: k in cache ==> cache[k] in entries && entries[cache[k]].key == k && !entries[cache[k]].outcome.Failed?
  }

  /** A running entry is in the cache, and an ended one closed its channel once. */
  ghost predicate EntryOk(e: nat, entry: Entry, cache: map<Key, nat>, next: nat) {
    && e < next
    && (entry.outcome.Running? ==> entry.key in cache && cache[entry.key] == e)
    && entry.closes == (if entry.outcome.Running? then 0 else 1)
  }

  ghost predicate EntriesOk(entries: Entries, cache: map<Key, nat>, next: nat) {
    forall e :: e in entries ==> EntryOk(e, entries[e], cache, next)
  }

  ghost predicate RequestOk(r: nat, phase: Phase, entries: Entries) {
    && (phase.Executing? ==> phase.entry in entries && entries[phase.entry].outcome.Running? && entries[phase.entry].key == phase.key && entries[phase.entry].owner == r)
    && (phase.Waiting? ==> phase.entry in entries && entries[phase.entry].key == phase.key && entries[phase.entry].use.digest == phase.use.digest)
    && (phase.Rereading? ==> phase.entry in entries && entries[phase.entry].key == phase.key && entries[phase.entry].use.digest == phase.use.digest && !entries[phase.entry].outcome.Running?)
  }

  ghost predicate RequestsOk(requests: map<nat, Phase>, entries: Entries) {
    forall r :: r in requests ==> RequestOk(r, requests[r], entries)
  }

  /** A replay is for the body of the entry awaited, from an entry of the same key; a
      replay of the awaited entry shows that entry's final response. */
  ghost predicate ReplayOk(x: Replay, entries: Entries) {
    && x.awaited in entries && x.found in entries
    && entries[x.found].key == entries[x.awaited].key && entries[x.awaited].use.digest == x.use.digest
    && (x.found == x.awaited ==> entries[x.awaited].outcome == Done(x.response))
  }

  ghost predicate ReplaysOk(replays: seq<Replay>, entries: Entries) {
    forall i :: 0 <= i < |replays| ==> ReplayOk(replays[i], entries)
  }

  ghost predicate Inv(s: State) {
    && CacheOk(s.cache, s.entries) && EntriesOk(s.entries, s.cache, s.next)
    && RequestsOk(s.requests, s.entries) && ReplaysOk(s.replays, s.entries)
  }

  lemma KeptKeeps(cache: map<Key, nat>, entries: Entries, next: nat, now: int)
    requires CacheOk(cache, entries) && EntriesOk(entries, cache, next)
    ensures CacheOk(Kept(cache, entries, now), entries) && EntriesOk(entries, Kept(cache, entries, now), next)
  {
    forall e | e in entries ensures EntryOk(e, entries[e], Kept(cache, entries, now), next) {
      assert EntryOk(e, entries[e], cache, next);
    }
  }

  /** A new entry takes its key's place in the cache and disturbs no request. */
  lemma InsertKeeps(cache: map<Key, nat>, entries: Entries, next: nat, entry: Entry)
    requires CacheOk(cache, entries) && EntriesOk(entries, cache, next)
    requires entry.key !in cache && entry.outcome.Running? && entry.closes == 0
    ensures CacheOk(cache[entry.key := next], entries[next := entry])
    ensures EntriesOk(entries[next := entry], cache[entry.key := next], next + 1)
  {
    assert next !in entries;
    var (more, all) := (cache[entry.key := next], entries[next := entry]);
    forall e | e in all ensures EntryOk(e, all[e], more, next + 1) {
      if e != next { assert EntryOk(e, entries[e], cache, next); }
    }
  }

  lemma AdmitKeepsInv(s: State, r: nat)
    requires Inv(s)
    ensures Inv(AdmitStep(s, r))
  {
    if r in s.requests && s.requests[r].Timed? {
      var (key, use, now) := (s.requests[r].key, s.requests[r].use, s.requests[r].now);
      KeptKeeps(s.cache, s.entries, s.next, now);
      if key !in Kept(s.cache, s.entries, now) {
        assert s.next !in s.entries;
        InsertKeeps(Kept(s.cache, s.entries, now), s.entries, s.next, Entry(key, use, now + CACHE_TTL, r, Running, 0));
      }
    }
  }

  lemma FinishKeepsInv(s: State, r: nat, response: Response)
    requires Inv(s)
    ensures Inv(FinishStep(s, r, response))
  {
    if r in s.requests && s.requests[r].Executing? {
      var t, e := FinishStep(s, r, response), s.requests[r].entry;
      assert RequestOk(r, s.requests[r], s.entries) && EntryOk(e, s.entries[e], s.cache, s.next);
      forall q | q in t.requests && q != r ensures RequestOk(q, t.requests[q], t.entries) {
        assert RequestOk(q, s.requests[q], s.entries);
      }
    }
  }

  lemma RereadKeepsInv(s: State, r: nat)
    requires Inv(s)
    ensures Inv(RereadStep(s, r))
  {
    if r in s.requests { assert RequestOk(r, s.requests[r], s.entries); }
  }

  lemma StepKeepsInv(s: State, event: Event)
    requires Inv(s)
    ensures Inv(Step(s, event))
  {
    match event
    case Admit(r) => AdmitKeepsInv(s, r);
    case Finish(r, response) => FinishKeepsInv(s, r, response);
    case Reread(r) => RereadKeepsInv(s, r);
    case Wake(r) => if r in s.requests { assert RequestOk(r, s.requests[r], s.entries); }
    case _ =>
  }

  lemma {:induction false} RunKeepsInv(s: State, es: seq<Event>)
    requires Inv(s)
    ensures Inv(Run(s, es))
    decreases |es|
  {
    if es != [] {
      StepKeepsInv(s, es[0]);
      RunKeepsInv(Step(s, es[0]), es[1..]);
    }
  }

  // --- Main results ----------------------------------------------------------------------------

  /** In every interleaving at most one handler execution is in flight per key. */
  lemma OneExecutionInFlight(es: seq<Event>, q: nat, r: nat)
    requires q in Run(INIT, es).requests && r in Run(INIT, es).requests
    requires Run(INIT, es).requests[q].Executing? && Run(INIT, es).requests[r].Executing?
    requires Run(INIT, es).requests[q].key == Run(INIT, es).requests[r].key
    ensures q == r
  {
    RunKeepsInv(INIT, es);
    var s := Run(INIT, es);
    assert RequestOk(q, s.requests[q], s.entries) && RequestOk(r, s.requests[r], s.entries);
    assert EntryOk(s.requests[q].entry, s.entries[s.requests[q].entry], s.cache, s.next);
    assert EntryOk(s.requests[r].entry, s.entries[s.requests[r].entry], s.cache, s.next);
  }

  /** In every interleaving an entry's ready channel is closed exactly once, when its
      handler ends. */
  lemma ReadyIsClosedOnce(es: seq<Event>, e: nat)
    requires e in Run(INIT, es).entries
    ensures Run(INIT, es).entries[e].closes == if Run(INIT, es).entries[e].outcome.Running? then 0 else 1
  {
    RunKeepsInv(INIT, es);
    assert EntryOk(e, Run(INIT, es).entries[e], Run(INIT, es).cache, Run(INIT, es).next);
  }

  lemma StepKeepsEnded(s: State, event: Event, e: nat)
    requires Inv(s) && e in s.entries && !s.entries[e].outcome.Running?
    ensures e in Step(s, event).entries && Step(s, event).entries[e] == s.entries[e]
  {
    if event.Finish? && event.r in s.requests { assert RequestOk(event.r, s.requests[event.r], s.entries); }
    assert EntryOk(e, s.entries[e], s.cache, s.next);
  }

  /** Whatever happens next, an ended execution's entry never changes. */
  lemma {:induction false} CompletedEntryNeverChanges(s: State, es: seq<Event>, e: nat)
    requires Inv(s) && e in s.entries && !s.entries[e].outcome.Running?
    ensures e in Run(s, es).entries && Run(s, es).entries[e] == s.entries[e]
    decreases |es|
  {
    if es != [] {
      StepKeepsEnded(s, es[0], e);
      StepKeepsInv(s, es[0]);
      CompletedEntryNeverChanges(Step(s, es[0]), es[1..], e);
    }
  }

  /** In every interleaving, a waiter that re-reads the entry it waited for answers with
      exactly the response the execution ended with. */
  lemma ReplayEqualsExecution(es: seq<Event>, i: nat)
    requires i < |Run(INIT, es).replays| && Run(INIT, es).replays[i].found == Run(INIT, es).replays[i].awaited
    ensures var x := Run(INIT, es).replays[i];
      x.awaited in Run(INIT, es).entries && Run(INIT, es).entries[x.awaited].outcome == Done(x.response)
  {
    RunKeepsInv(INIT, es);
    assert ReplayOk(Run(INIT, es).replays[i], Run(INIT, es).entries);
  }

  lemma Prepend(s: State, event: Event, rest: seq<Event>)
    ensures Run(s, [event] + rest) == Run(Step(s, event), rest)
  {
    assert ([event] + rest)[1..] == rest;
  }

  /** Replay equality for every waiter would be false: when the awaited execution failed and
      another request starts a new one first, the waiter finds that running entry and its
      blank response. Its status is 0, which net/http refuses to write, so the handler panics
      and the connection ends without an answer. */
  lemma FailedWaiterShowsBlank(s: State, r: nat, q: nat, use: Use)
    requires Inv(s) && r in s.requests && s.requests[r].Rereading? && s.requests[r].key !in s.cache && q !in s.requests
    ensures var key, awaited := s.requests[r].key, s.requests[r].entry;
      && Run(s, [Arrive(q, key, use)] + ([Admit(q)] + ([Reread(r)] + []))).replays == s.replays + [Replay(s.requests[r].use, awaited, s.next, BLANK)]
      && awaited != s.next
  {
    var key, awaited := s.requests[r].key, s.requests[r].entry;
    assert RequestOk(r, s.requests[r], s.entries);
    assert EntryOk(awaited, s.entries[awaited], s.cache, s.next);
    Prepend(s, Arrive(q, key, use), [Admit(q)] + ([Reread(r)] + []));
    var s1 := Step(s, Arrive(q, key, use));
    Prepend(s1, Admit(q), [Reread(r)] + []);
    var s2 := Step(s1, Admit(q));
    assert s2.requests[r] == s.requests[r] && s2.cache[key] == s.next && s2.entries[s.next].outcome == Running;
    Prepend(s2, Reread(r), []);
  }

  /** A request that executes and fails while another waits for it leaves the other to
      re-read a key the cache no longer holds. */
  lemma FailureStrandsWaiter(s: State, r: nat, q: nat, response: Response)
    requires Inv(s) && r in s.requests && s.requests[r].Executing? && response.status >= SERVER_ERROR
    requires q in s.requests && s.requests[q].Waiting? && s.requests[q].key == s.requests[r].key && s.requests[q].entry == s.requests[r].entry
    ensures var t := Step(Step(s, Finish(r, response)), Wake(q));
      Inv(t) && q in t.requests && t.requests[q] == Rereading(s.requests[r].key, s.requests[q].use, s.requests[r].entry) && s.requests[r].key !in t.cache
      && t.requests.Keys == s.requests.Keys && t.replays == s.replays && t.next == s.next
  {
    assert RequestOk(r, s.requests[r], s.entries);
    StepKeepsInv(s, Finish(r, response));
    StepKeepsInv(Step(s, Finish(r, response)), Wake(q));
  }

  /** Such a pair of requests exists. */
  lemma FailedWaiterIsReachable(key: Key, first: Use, second: Use)
    requires first.digest == second.digest
    ensures var s := Step(Step(Step(Step(INIT, Arrive(1, key, first)), Admit(1)), Arrive(2, key, second)), Admit(2));
      && Inv(s) && s.requests == map[1 := Executing(key, 0), 2 := Waiting(key, second, 0)] && s.replays == [] && s.next == 1
  {
    var running := Entry(key, first, CACHE_TTL, 1, Running, 0);
    var s1 := Step(INIT, Arrive(1, key, first));
    var s2 := Step(s1, Admit(1));
    assert s2.entries == map[0 := running] && s2.cache == map[key := 0] && s2.requests == map[1 := Executing(key, 0)];
    var s3 := Step(s2, Arrive(2, key, second));
    assert s3.requests[2] == Timed(key, second, 0);
    StepKeepsInv(INIT, Arrive(1, key, first));
    StepKeepsInv(s1, Admit(1));
    StepKeepsInv(s2, Arrive(2, key, second));
    StepKeepsInv(s3, Admit(2));
  }

  /** And it answers with the completed response of that execution once it is there, also
      when it was for another body, which a request of its own would have been refused. */
  lemma WaiterGetsAnotherBodysAnswer(s: State, r: nat, q: nat, use: Use, response: Response)
    requires Inv(s) && r in s.requests && s.requests[r].Rereading? && s.requests[r].key !in s.cache && q !in s.requests
    requires response.status < SERVER_ERROR
    ensures var key, awaited := s.requests[r].key, s.requests[r].entry;
      var t := Run(s, [Arrive(q, key, use)] + ([Admit(q)] + ([Finish(q, response)] + ([Reread(r)] + []))));
      && t.replays == s.replays + [Replay(s.requests[r].use, awaited, s.next, response)]
      && s.next in t.entries && t.entries[s.next].use == use && awaited != s.next
  {
    var key, awaited := s.requests[r].key, s.requests[r].entry;
    assert RequestOk(r, s.requests[r], s.entries);
    assert EntryOk(awaited, s.entries[awaited], s.cache, s.next);
    Prepend(s, Arrive(q, key, use), [Admit(q)] + ([Finish(q, response)] + ([Reread(r)] + [])));
    var s1 := Step(s, Arrive(q, key, use));
    Prepend(s1, Admit(q), [Finish(q, response)] + ([Reread(r)] + []));
    var s2 := Step(s1, Admit(q));
    assert s2.requests[r] == s.requests[r] && s2.requests[q] == Executing(key, s.next) && s2.cache[key] == s.next && s2.replays == s.replays;
    Prepend(s2, Finish(q, response), [Reread(r)] + []);
    var s3 := Step(s2, Finish(q, response));
    assert s3.requests[r] == s.requests[r] && s3.cache[key] == s.next && s3.entries[s.next].outcome == Done(response) && s3.replays == s.replays;
    Prepend(s3, Reread(r), []);
  }

  lemma {:induction false} RunSplits(s: State, front: seq<Event>, back: seq<Event>)
    ensures Run(s, front + back) == Run(Run(s, front), back)
    decreases |front|
  {
    if front == [] {
      assert front + back == back;
    } else {
      assert (front + back)[1..] == front[1..] + back;
      RunSplits(Step(s, front[0]), front[1..], back);
    }
  }

  lemma RunOfTwo(s: State, x: Event, y: Event)
    ensures Run(s, [x] + [y]) == Step(Step(s, x), y)
  {
    Prepend(s, x, [y]);
    Prepend(Step(s, x), y, []);
    assert [y] + [] == [y];
  }

  /** A request waits for an execution of its own kind that fails. */
  function Stranding(key: Key, own: Use, failed: Response): seq<Event> {
    ([Arrive(1, key, own)] + [Admit(1)]) + ([Arrive(2, key, own)] + [Admit(2)]) + ([Finish(1, failed)] + [Wake(2)])
  }

  lemma StrandingRuns(key: Key, own: Use, failed: Response)
    requires failed.status >= SERVER_ERROR
    ensures var s := Run(INIT, Stranding(key, own, failed));
      && Inv(s) && 2 in s.requests && s.requests[2] == Rereading(key, own, 0) && key !in s.cache && 3 !in s.requests
      && s.replays == [] && s.next == 1
  {
    var a, b, c := [Arrive(1, key, own)] + [Admit(1)], [Arrive(2, key, own)] + [Admit(2)], [Finish(1, failed)] + [Wake(2)];
    var s2 := Step(Step(INIT, Arrive(1, key, own)), Admit(1));
    var s4 := Step(Step(s2, Arrive(2, key, own)), Admit(2));
    FailedWaiterIsReachable(key, own, own);
    FailureStrandsWaiter(s4, 1, 2, failed);
    RunOfTwo(INIT, Arrive(1, key, own), Admit(1));
    RunOfTwo(s2, Arrive(2, key, own), Admit(2));
    RunOfTwo(s4, Finish(1, failed), Wake(2));
    RunSplits(INIT, a, b);
    RunSplits(INIT, a + b, c);
  }

  /** The whole run, from the start, for any two uses of one key: a request waits for an
      execution that fails, another use executes, and the waiter gets the response to it. */
  lemma AnotherBodysAnswerIsReachable(key: Key, own: Use, other: Use, failed: Response, response: Response) returns (es: seq<Event>)
    requires response.status < SERVER_ERROR <= failed.status
    ensures var s := Run(INIT, es);
      s.replays == [Replay(own, 0, 1, response)] && 1 in s.entries && s.entries[1].use == other
  {
    StrandingRuns(key, own, failed);
    var s := Run(INIT, Stranding(key, own, failed));
    WaiterGetsAnotherBodysAnswer(s, 2, 3, other, response);
    var rest := [Arrive(3, key, other)] + ([Admit(3)] + ([Finish(3, response)] + ([Reread(2)] + [])));
    RunSplits(INIT, Stranding(key, own, failed), rest);
    es := Stranding(key, own, failed) + rest;
  }

  /** The cache knows no routes: a request whose key has an unexpired response to the same
      body is answered with that response, whatever route it came by, and not executed. */
  lemma AnyRouteIsAnswered(s: State, r: nat, key: Key, use: Use)
    requires Inv(s) && r !in s.requests && key in s.cache
    requires s.entries[s.cache[key]].outcome.Done? && s.clock < s.entries[s.cache[key]].expiresAt && s.entries[s.cache[key]].use.digest == use.digest
    ensures var t := Run(s, [Arrive(r, key, use)] + ([Admit(r)] + ([Reread(r)] + [])));
      && t.replays == s.replays + [Replay(use, s.cache[key], s.cache[key], s.entries[s.cache[key]].outcome.response)]
      && t.executions == s.executions
  {
    var e := s.cache[key];
    Prepend(s, Arrive(r, key, use), [Admit(r)] + ([Reread(r)] + []));
    var s1 := Step(s, Arrive(r, key, use));
    Prepend(s1, Admit(r), [Reread(r)] + []);
    var s2 := Step(s1, Admit(r));
    assert s2.requests[r] == Rereading(key, use, e) && key in s2.cache && s2.cache[key] == e && s2.entries == s.entries && s2.executions == s.executions;
    Prepend(s2, Reread(r), []);
  }

  /** The whole run, from the start, for any two routes. */
  lemma AnotherRoutesAnswerIsReachable(key: Key, own: Use, other: Use, response: Response) returns (es: seq<Event>)
    requires own.digest == other.digest && response.status < SERVER_ERROR
    ensures var s := Run(INIT, es);
      s.replays == [Replay(own, 0, 0, response)] && s.executions == [Execution(key, other, 0, 0)]
  {
    var first := [Arrive(1, key, other)] + [Admit(1)];
    var s1 := Step(INIT, Arrive(1, key, other));
    var s2 := Step(s1, Admit(1));
    assert s2.entries == map[0 := Entry(key, other, CACHE_TTL, 1, Running, 0)] && s2.requests == map[1 := Executing(key, 0)];
    StepKeepsInv(INIT, Arrive(1, key, other));
    StepKeepsInv(s1, Admit(1));
    RunOfTwo(INIT, Arrive(1, key, other), Admit(1));
    var s3 := Step(s2, Finish(1, response));
    StepKeepsInv(s2, Finish(1, response));
    assert s3.cache == map[key := 0] && s3.entries[0].outcome == Done(response) && s3.executions == [Execution(key, other, 0, 0)];
    AnyRouteIsAnswered(s3, 2, key, own);
    var rest := [Arrive(2, key, own)] + ([Admit(2)] + ([Reread(2)] + []));
    Prepend(s2, Finish(1, response), rest);
    RunSplits(INIT, first, [Finish(1, response)] + rest);
    es := first + ([Finish(1, response)] + rest);
  }

  // --- Whose answer a waiter gets ------------------------------------------------------------

  /** The latest execution of a key. */
  function Latest(executions: seq<Execution>, key: Key): Option<Execution> {
    if executions == [] then None
    else
      var last := executions[|executions| - 1];
      if last.key == key then Some(last) else Latest(executions[..|executions| - 1], key)
  }

  /** What the cache holds for a key is the entry of the key's latest execution. */
  ghost predicate LatestOk(executions: seq<Execution>, cache: map<Key, nat>, entries: Entries) {
    forall k :: k in cache ==>
      var last := Latest(executions, k);
      last.Some? && last.value.entry == cache[k] && cache[k] in entries && entries[cache[k]].use == last.value.use
  }

  lemma LatestOfMore(executions: seq<Execution>, x: Execution, key: Key)
    ensures Latest(executions + [x], key) == if x.key == key then Some(x) else Latest(executions, key)
  {
    assert (executions + [x])[..|executions|] == executions;
  }

  lemma AdmitKeepsLatest(s: State, r: nat)
    requires Inv(s) && LatestOk(s.executions, s.cache, s.entries)
    ensures var t := AdmitStep(s, r); LatestOk(t.executions, t.cache, t.entries)
  {
    var t := AdmitStep(s, r);
    if t.executions != s.executions {
      var x := t.executions[|s.executions|];
      forall k | k in t.cache
        ensures Latest(t.executions, k).Some? && Latest(t.executions, k).value.entry == t.cache[k]
          && t.cache[k] in t.entries && t.entries[t.cache[k]].use == Latest(t.executions, k).value.use
      {
        LatestOfMore(s.executions, x, k);
        if k != x.key { assert EntryOk(s.cache[k], s.entries[s.cache[k]], s.cache, s.next); }
      }
    }
  }

  lemma StepKeepsLatest(s: State, event: Event)
    requires Inv(s) && LatestOk(s.executions, s.cache, s.entries)
    ensures var t := Step(s, event); LatestOk(t.executions, t.cache, t.entries)
  {
    match event
    case Admit(r) => AdmitKeepsLatest(s, r);
    case _ =>
  }

  lemma {:induction false} RunKeepsLatest(s: State, es: seq<Event>)
    requires Inv(s) && LatestOk(s.executions, s.cache, s.entries)
    ensures var t := Run(s, es); LatestOk(t.executions, t.cache, t.entries)
    decreases |es|
  {
    if es != [] {
      StepKeepsInv(s, es[0]);
      StepKeepsLatest(s, es[0]);
      RunKeepsLatest(Step(s, es[0]), es[1..]);
    }
  }

  /** In every interleaving, a waiter that finds an entry answers with the key's latest
      execution, so the answer is for its own body, and for its own route, exactly when that
      one was, and is the awaited execution's exactly when none of the key started since. */
  lemma RereadAnswersLatest(es: seq<Event>, r: nat)
    requires var s := Run(INIT, es); r in s.requests && s.requests[r].Rereading? && s.requests[r].key in s.cache
    ensures var s := Run(INIT, es);
      var p, last, t := s.requests[r], Latest(s.executions, s.requests[r].key), Step(s, Reread(r));
      && last.Some? && |t.replays| == |s.replays| + 1
      && var x := t.replays[|s.replays|];
         && x.use == p.use && x.awaited == p.entry && x.found == last.value.entry && x.found in t.entries
         && (t.entries[x.found].use.digest == p.use.digest <==> last.value.use.digest == p.use.digest)
         && (t.entries[x.found].use.route == p.use.route <==> last.value.use.route == p.use.route)
         && x.response == (if s.entries[x.found].outcome.Done? then s.entries[x.found].outcome.response else BLANK)
  {
    RunKeepsInv(INIT, es);
    RunKeepsLatest(INIT, es);
  }

  /** A key that is only ever used for one thing. */
  ghost predicate OneUse(es: seq<Event>, key: Key, use: Use) {
    forall i :: 0 <= i < |es| && es[i].Arrive? && es[i].key == key ==> es[i].use == use
  }

  ghost predicate AllOfUse(s: State, key: Key, use: Use) {
    && (forall r :: r in s.requests && s.requests[r].Timed? && s.requests[r].key == key ==> s.requests[r].use == use)
    && (forall e :: e in s.entries && s.entries[e].key == key ==> s.entries[e].use == use)
  }

  lemma StepKeepsUse(s: State, event: Event, key: Key, use: Use)
    requires Inv(s) && AllOfUse(s, key, use)
    requires event.Arrive? && event.key == key ==> event.use == use
    ensures AllOfUse(Step(s, event), key, use)
  {
  }

  lemma {:induction false} RunKeepsUse(s: State, es: seq<Event>, key: Key, use: Use)
    requires Inv(s) && AllOfUse(s, key, use) && OneUse(es, key, use)
    ensures AllOfUse(Run(s, es), key, use)
    decreases |es|
  {
    if es != [] {
      StepKeepsInv(s, es[0]);
      StepKeepsUse(s, es[0], key, use);
      RunKeepsUse(Step(s, es[0]), es[1..], key, use);
    }
  }

  /** In every interleaving, a key used for one body on one route never gives a waiter the
      answer to anything else. That the key is not reused is needed, for bodies
      (`AnotherBodysAnswerIsReachable`) and for routes (`AnotherRoutesAnswerIsReachable`). */
  lemma OneUseReplaysItself(es: seq<Event>, key: Key, use: Use, i: nat)
    requires OneUse(es, key, use) && i < |Run(INIT, es).replays|
    ensures var s := Run(INIT, es);
      var x := s.replays[i];
      && x.awaited in s.entries && x.found in s.entries
      && (s.entries[x.awaited].key == key ==> s.entries[x.found].use == use)
  {
    RunKeepsInv(INIT, es);
    RunKeepsUse(INIT, es, key, use);
    assert ReplayOk(Run(INIT, es).replays[i], Run(INIT, es).entries);
  }

  // --- No second execution before expiry ---------------------------------------------------------

  ghost predicate NonDecreasing(es: seq<Event>, clock: int)
    decreases |es|
  {
    es == [] || if es[0].Tick? then clock <= es[0].now && NonDecreasing(es[1..], es[0].now) else NonDecreasing(es[1..], clock)
  }

  /** Clock readings are not ahead of the clock. */
  ghost predicate ReadingsOk(requests: map<nat, Phase>, clock: int) {
    forall r :: r in requests && requests[r].Timed? ==> requests[r].now <= clock
  }

  ghost predicate Cached(e: nat, entry: Entry, cache: map<Key, nat>) {
    entry.key in cache && cache[entry.key] == e
  }

  /** A finished entry is cached until it expires. */
  ghost predicate LastingOk(entries: Entries, cache: map<Key, nat>, clock: int) {
    forall e :: e in entries && entries[e].outcome.Done? ==> Cached(e, entries[e], cache) || entries[e].expiresAt <= clock
  }

  ghost predicate TimesOk(s: State) {
    ReadingsOk(s.requests, s.clock) && LastingOk(s.entries, s.cache, s.clock)
  }

  /** Every earlier finished execution of the key had expired when this one started. */
  ghost predicate AfterExpiry(x: Execution, entries: Entries) {
    forall e :: e in entries && e < x.entry && entries[e].key == x.key && entries[e].outcome.Done? ==> entries[e].expiresAt <= x.at
  }

  /** Executions are logged under their own entries, and earlier entries of their key have ended. */
  ghost predicate ExecutionOk(x: Execution, entries: Entries) {
    && x.entry in entries && AfterExpiry(x, entries)
    && forall e :: e in entries && e < x.entry && entries[e].key == x.key ==> !entries[e].outcome.Running?
  }

  ghost predicate ExecutionsOk(s: State) {
    forall i :: 0 <= i < |s.executions| ==> ExecutionOk(s.executions[i], s.entries)
  }

  lemma KeptLasts(entries: Entries, cache: map<Key, nat>, clock: int, at: int)
    requires CacheOk(cache, entries) && LastingOk(entries, cache, clock) && at <= clock
    ensures LastingOk(entries, Kept(cache, entries, at), clock)
  {
  }

  lemma AdmitKeepsTimes(s: State, r: nat)
    requires Inv(s) && TimesOk(s)
    ensures TimesOk(AdmitStep(s, r))
  {
    if r in s.requests && s.requests[r].Timed? { KeptLasts(s.entries, s.cache, s.clock, s.requests[r].now); }
  }

  lemma FinishKeepsTimes(s: State, r: nat, response: Response)
    requires Inv(s) && TimesOk(s)
    ensures TimesOk(FinishStep(s, r, response))
  {
    if r in s.requests && s.requests[r].Executing? {
      var e := s.requests[r].entry;
      assert RequestOk(r, s.requests[r], s.entries) && EntryOk(e, s.entries[e], s.cache, s.next);
    }
  }

  lemma StepKeepsTimes(s: State, event: Event)
    requires Inv(s) && TimesOk(s) && (event.Tick? ==> s.clock <= event.now)
    ensures TimesOk(Step(s, event))
  {
    match event
    case Sweep(at) => if at <= s.clock { KeptLasts(s.entries, s.cache, s.clock, at); }
    case Admit(r) => AdmitKeepsTimes(s, r);
    case Finish(r, response) => FinishKeepsTimes(s, r, response);
    case _ =>
  }

  /** Only an entry still running can change, and a new one comes after all others. */
  lemma OldExecutionKept(s: State, event: Event, x: Execution)
    requires Inv(s) && ExecutionOk(x, s.entries)
    ensures ExecutionOk(x, Step(s, event).entries)
  {
    var t := Step(s, event);
    assert EntryOk(x.entry, s.entries[x.entry], s.cache, s.next);
    forall e | e in t.entries && e < x.entry && t.entries[e].key == x.key ensures e in s.entries && t.entries[e] == s.entries[e] {
      assert e in s.entries && s.entries[e].key == x.key;
      StepKeepsEnded(s, event, e);
    }
  }

  lemma NewExecutionOk(s: State, r: nat)
    requires Inv(s) && TimesOk(s) && AdmitStep(s, r).executions != s.executions
    ensures var t := AdmitStep(s, r); ExecutionOk(t.executions[|s.executions|], t.entries)
  {
    var t := AdmitStep(s, r);
    var x := t.executions[|s.executions|];
    forall e | e in t.entries && e < x.entry && t.entries[e].key == x.key
      ensures !t.entries[e].outcome.Running? && (t.entries[e].outcome.Done? ==> t.entries[e].expiresAt <= x.at)
    {
      assert EntryOk(e, s.entries[e], s.cache, s.next);
    }
  }

  /** Nothing but admission starts an execution. */
  lemma ExecutionsFrame(s: State, event: Event)
    ensures var t := Step(s, event);
      t.executions == s.executions || (event.Admit? && |t.executions| == |s.executions| + 1 && s.executions == t.executions[..|s.executions|])
  {
  }

  lemma StepKeepsExecutions(s: State, event: Event)
    requires Inv(s) && TimesOk(s) && ExecutionsOk(s)
    ensures ExecutionsOk(Step(s, event))
  {
    var t := Step(s, event);
    ExecutionsFrame(s, event);
    forall i | 0 <= i < |t.executions| ensures ExecutionOk(t.executions[i], t.entries) {
      if i < |s.executions| {
        assert t.executions[i] == s.executions[i];
        OldExecutionKept(s, event, s.executions[i]);
      } else {
        NewExecutionOk(s, event.r);
      }
    }
  }

  lemma {:induction false} RunKeepsExecutions(s: State, es: seq<Event>)
    requires Inv(s) && TimesOk(s) && ExecutionsOk(s) && NonDecreasing(es, s.clock)
    ensures ExecutionsOk(Run(s, es))
    decreases |es|
  {
    if es != [] {
      StepKeepsInv(s, es[0]);
      StepKeepsTimes(s, es[0]);
      StepKeepsExecutions(s, es[0]);
      RunKeepsExecutions(Step(s, es[0]), es[1..]);
    }
  }

  /** With a non-decreasing clock, in every interleaving: when a handler starts for a key,
      every earlier execution of that key that ended below 500 has an expired entry. */
  lemma NoReExecutionBeforeExpiry(es: seq<Event>, i: nat, e: nat)
    requires NonDecreasing(es, 0) && i < |Run(INIT, es).executions|
    requires e in Run(INIT, es).entries && e < Run(INIT, es).executions[i].entry
    requires Run(INIT, es).entries[e].key == Run(INIT, es).executions[i].key && Run(INIT, es).entries[e].outcome.Done?
    ensures Run(INIT, es).entries[e].expiresAt <= Run(INIT, es).executions[i].at
  {
    RunKeepsExecutions(INIT, es);
    assert ExecutionOk(Run(INIT, es).executions[i], Run(INIT, es).entries);
  }

  lemma {:induction false} RunKeepsTimes(s: State, es: seq<Event>)
    requires Inv(s) && TimesOk(s) && NonDecreasing(es, s.clock)
    ensures TimesOk(Run(s, es)) && Inv(Run(s, es))
    decreases |es|
  {
    if es != [] {
      StepKeepsInv(s, es[0]);
      StepKeepsTimes(s, es[0]);
      RunKeepsTimes(Step(s, es[0]), es[1..]);
    }
  }

  ghost predicate ReplaysAwaited(s: State, r: nat) {
    r in s.requests && s.requests[r].Rereading? &&
    var p := s.requests[r];
    exists response :: Step(s, Reread(r)).replays == s.replays + [Replay(p.use, p.entry, p.entry, response)]
      && p.entry in s.entries && s.entries[p.entry].outcome == Done(response)
  }

  /** With a non-decreasing clock, in every interleaving: while its entry has not expired, a
      waiter replays the awaited execution, response and all, exactly when that execution
      ended below 500. Of a failed execution no waiter ever replays the entry, expired or not. */
  lemma ReplayExactlyWhen(es: seq<Event>, r: nat)
    requires NonDecreasing(es, 0)
    requires var s := Run(INIT, es); r in s.requests && s.requests[r].Rereading?
    ensures var s := Run(INIT, es);
      var e := s.requests[r].entry;
      && e in s.entries
      && (s.clock < s.entries[e].expiresAt ==> (ReplaysAwaited(s, r) <==> s.entries[e].outcome.Done?))
      && (s.entries[e].outcome.Failed? ==> s.requests[r].key in s.cache ==> s.cache[s.requests[r].key] != e)
  {
    RunKeepsTimes(INIT, es);
    var s := Run(INIT, es);
    var p := s.requests[r];
    assert RequestOk(r, p, s.entries);
    if s.entries[p.entry].outcome.Done? && s.clock < s.entries[p.entry].expiresAt {
      assert Cached(p.entry, s.entries[p.entry], s.cache);
      assert Step(s, Reread(r)).replays == s.replays + [Replay(p.use, p.entry, p.entry, s.entries[p.entry].outcome.response)];
    }
  }
}
