/** Whole runs of the keyed limiter under concurrent requests, each carrying several keys
    (internal/server/pairing.go and its caller in internal/server/node_invitations.go), and
    runs that reach the bounds of both limiters. */
module LimiterRuns {
  import opened Prelude
  import opened Limiters

  /** `failures` and `peak` follow one watched key: when its failures were recorded, and the
      most requests carrying it that were in flight at once. */
  datatype State = State(attempts: Attempts, requests: map<nat, seq<Key>>, peak: nat, failures: seq<int>, clock: int)

  datatype Request = Asks(id: nat, keys: seq<Key>, now: int) | Fails(id: nat, now: int) | Passes(id: nat)

  const Fresh: State := State(map[], map[], 0, [], 1)

  function Holding(requests: map<nat, seq<Key>>, k: Key): set<nat> {
    set id | id in requests && k in requests[id]
  }

  function Next(prunes: bool, k: Key, s: State, e: Request): State {
    match e
    case Asks(id, keys, now) =>
      if now < s.clock || id in s.requests then s
      else if !AllowedFor(s.attempts, keys, now) then s.(clock := now)
      else
        var requests := s.requests[id := keys];
        s.(requests := requests, peak := Max(s.peak, |Holding(requests, k)|), clock := now)
    case Fails(id, now) =>
      if now < s.clock || id !in s.requests then s
      else
        var keys := s.requests[id];
        State(AfterFailure(prunes, s.attempts, keys, now), Without(s.requests, id), s.peak,
              if k in keys then s.failures + [now] else s.failures, now)
    case Passes(id) => if id !in s.requests then s else s.(requests := Without(s.requests, id))
  }

  function RunAll(prunes: bool, k: Key, s: State, es: seq<Request>): State
    decreases |es|
  {
    if es == [] then s else RunAll(prunes, k, Next(prunes, k, s, es[0]), es[1..])
  }

  predicate NoDuplicates(keys: seq<Key>) {
    forall i, j :: 0 <= i < j < |keys| ==> keys[i] != keys[j]
  }

  /** What the caller guarantees: its two keys carry different prefixes. */
  predicate DistinctKeys(es: seq<Request>) {
    forall i :: 0 <= i < |es| && es[i].Asks? ==> NoDuplicates(es[i].keys)
  }

  ghost predicate RequestsDistinct(s: State) {
    forall id :: id in s.requests ==> NoDuplicates(s.requests[id])
  }

  // --- One key of the limiter is one window ---------------------------------------------

  lemma {:induction false} CountAllAt(m: Attempts, keys: seq<Key>, now: int, k: Key)
    requires NoDuplicates(keys)
    ensures Get(CountAll(m, keys, now), k) == if k in keys then Counted(Get(m, k), now) else Get(m, k)
    decreases |keys|
  {
    if keys != [] {
      assert keys == [keys[0]] + keys[1..];
      CountAllAt(m[keys[0] := Counted(Get(m, keys[0]), now)], keys[1..], now, k);
    }
  }

  function Seen(k: Key, s: State): Watch {
    Watch(Get(s.attempts, k), |Holding(s.requests, k)|, s.peak, 0, 0, s.failures, s.clock)
  }

  /** What a request means to the window of `k`. */
  function SeenEvent(k: Key, s: State, e: Request): Event {
    match e
    case Asks(id, keys, now) =>
      if now < s.clock || id in s.requests then Tick(s.clock)
      else if AllowedFor(s.attempts, keys, now) && k in keys then Ask(now)
      else Tick(now)
    case Fails(id, now) =>
      if now < s.clock || id !in s.requests then Tick(s.clock)
      else if k in s.requests[id] then Fail(now) else Tick(now)
    case Passes(id) => if id in s.requests && k in s.requests[id] then Pass else Tick(s.clock)
  }

  lemma HoldingMore(requests: map<nat, seq<Key>>, id: nat, keys: seq<Key>, k: Key)
    requires id !in requests
    ensures |Holding(requests[id := keys], k)| == |Holding(requests, k)| + if k in keys then 1 else 0
  {
    if k in keys {
      assert Holding(requests[id := keys], k) == Holding(requests, k) + {id};
    } else {
      assert Holding(requests[id := keys], k) == Holding(requests, k);
    }
  }

  lemma HoldingLess(requests: map<nat, seq<Key>>, id: nat, k: Key)
    requires id in requests
    ensures |Holding(requests, k)| == |Holding(Without(requests, id), k)| + if k in requests[id] then 1 else 0
  {
    var rest := Without(requests, id);
    assert rest[id := requests[id]] == requests;
    HoldingMore(rest, id, requests[id], k);
  }

  lemma NextIsStep(k: Key, s: State, e: Request)
    requires RequestsDistinct(s) && |Holding(s.requests, k)| <= s.peak
    ensures Seen(k, Next(false, k, s, e)) == Step(false, Seen(k, s), SeenEvent(k, s, e))
  {
    match e
    case Asks(id, keys, now) =>
      if id !in s.requests { HoldingMore(s.requests, id, keys, k); }
    case Fails(id, now) =>
      if id in s.requests {
        HoldingLess(s.requests, id, k);
        CountAllAt(s.attempts, s.requests[id], now, k);
      }
    case Passes(id) =>
      if id in s.requests { HoldingLess(s.requests, id, k); }
  }

  lemma NextKeepsDistinct(k: Key, s: State, e: Request)
    requires RequestsDistinct(s) && (e.Asks? ==> NoDuplicates(e.keys))
    ensures RequestsDistinct(Next(false, k, s, e))
  {
  }

  lemma NextKeepsInv(k: Key, s: State, e: Request)
    requires RequestsDistinct(s) && Inv(false, Seen(k, s))
    ensures Inv(false, Seen(k, Next(false, k, s, e)))
  {
    assert |Holding(s.requests, k)| == Seen(k, s).flying;
    NextIsStep(k, s, e);
    StepKeepsInv(false, Seen(k, s), SeenEvent(k, s, e));
  }

  lemma {:induction false} UnprunedKeepsInv(k: Key, s: State, es: seq<Request>)
    requires RequestsDistinct(s) && DistinctKeys(es) && Inv(false, Seen(k, s))
    ensures Inv(false, Seen(k, RunAll(false, k, s, es)))
    decreases |es|
  {
    if es != [] {
      NextKeepsDistinct(k, s, es[0]);
      NextKeepsInv(k, s, es[0]);
      UnprunedKeepsInv(k, Next(false, k, s, es[0]), es[1..]);
    }
  }

  ghost function Any(ids: set<nat>): (id: nat)
    requires ids != {}
    ensures id in ids
  {
    var id :| id in ids; id
  }

  // --- The limiter that prunes runs alike --------------------------------------------------

  ghost predicate Alike(s: State, u: State) {
    s == u.(attempts := s.attempts) && Related(s.attempts, u.attempts, s.clock) && 0 < s.clock
  }

  lemma NextAlike(k: Key, s: State, u: State, e: Request)
    requires Alike(s, u)
    ensures Alike(Next(true, k, s, e), Next(false, k, u, e))
  {
    if !e.Passes? && s.clock <= e.now {
      assert Related(s.attempts, u.attempts, e.now);
      if e.Asks? { RelatedAnswersAgree(s.attempts, u.attempts, e.keys, s.clock, e.now); }
      if e.Fails? && e.id in s.requests { FailureRelated(s.attempts, u.attempts, s.requests[e.id], s.clock, e.now); }
    }
  }

  lemma {:induction false} RunsAlike(k: Key, s: State, u: State, es: seq<Request>)
    requires Alike(s, u)
    ensures Alike(RunAll(true, k, s, es), RunAll(false, k, u, es))
    decreases |es|
  {
    if es != [] {
      NextAlike(k, s, u, es[0]);
      RunsAlike(k, Next(true, k, s, es[0]), Next(false, k, u, es[0]), es[1..]);
    }
  }

  /** What the pruned limiter still holds of a key is what the other one holds. */
  lemma AlikeBounds(k: Key, s: State, u: State)
    requires Alike(s, u) && Inv(false, Seen(k, u))
    ensures Get(s.attempts, k).failed <= 4 + s.peak && Spread(s.failures, 2 * (4 + s.peak) - 1)
    ensures k in s.attempts ==> WindowHolds(s.attempts[k], s.failures, s.clock)
  {
    assert Seen(k, u).window == Get(u.attempts, k) && Bound(Seen(k, u)) == 4 + s.peak;
  }

  /** For every key, with at most `peak` requests carrying it in flight: its window records at
      most 4 + peak failures, and any span below a minute one less than twice as many. */
  lemma KeyedFailuresAreBounded(k: Key, es: seq<Request>)
    requires DistinctKeys(es)
    ensures var s := RunAll(true, k, Fresh, es);
      && Get(s.attempts, k).failed <= 4 + s.peak
      && (k in s.attempts ==> WindowHolds(s.attempts[k], s.failures, s.clock))
      && Spread(s.failures, 2 * (4 + s.peak) - 1)
  {
    FreshIsUnused(k);
    UnprunedKeepsInv(k, Fresh, es);
    RunsAlike(k, Fresh, Fresh, es);
    AlikeBounds(k, RunAll(true, k, Fresh, es), RunAll(false, k, Fresh, es));
  }

  lemma FreshIsUnused(k: Key)
    ensures Seen(k, Fresh) == Unused && Inv(false, Unused)
  {
    assert Holding(map[], k) == {};
  }

  /** One request at a time: five failures in a window, nine in any span below a minute. */
  lemma SequentialKeyedFailuresAreBounded(k: Key, es: seq<Request>)
    requires DistinctKeys(es) && RunAll(true, k, Fresh, es).peak <= 1
    ensures var s := RunAll(true, k, Fresh, es);
      Get(s.attempts, k).failed <= 5 && Spread(s.failures, 9)
  {
    KeyedFailuresAreBounded(k, es);
  }

  /** Without distinct keys, each key is charged as often as it is named for the one failure. */
  lemma {:induction false} KeysAreChargedPerMention(m: Attempts, keys: seq<Key>, now: int, k: Key)
    requires now > 0
    ensures Get(CountAll(m, keys, now), k) ==
      if k in keys then Rolled(Get(m, k), now).(failed := Rolled(Get(m, k), now).failed + multiset(keys)[k]) else Get(m, k)
    decreases |keys|
  {
    if keys != [] {
      assert keys == [keys[0]] + keys[1..];
      var counted := m[keys[0] := Counted(Get(m, keys[0]), now)];
      KeysAreChargedPerMention(counted, keys[1..], now, k);
      assert multiset(keys)[k] == multiset(keys[1..])[k] + if k == keys[0] then 1 else 0;
      if k == keys[0] { assert Rolled(Get(counted, k), now) == Get(counted, k); }
    }
  }

  // --- The bounds are reached ------------------------------------------------------------

  lemma {:induction false} RunSplits(eager: bool, s: Watch, front: seq<Event>, back: seq<Event>)
    ensures Run(eager, s, front + back) == Run(eager, Run(eager, s, front), back)
    decreases |front|
  {
    if front == [] {
      assert front + back == back;
    } else {
      assert (front + back)[1..] == front[1..] + back;
      RunSplits(eager, Step(eager, s, front[0]), front[1..], back);
    }
  }

  function Repeat<T>(x: T, n: nat): (r: seq<T>)
    ensures |r| == n && forall i :: 0 <= i < n ==> r[i] == x
  {
    seq(n, _ => x)
  }

  /** `n` requests, one after the other, that all fail. */
  function Burst(now: int, n: nat): seq<Event> {
    if n == 0 then [] else [Ask(now), Fail(now)] + Burst(now, n - 1)
  }

  lemma {:induction false} BurstFails(eager: bool, s: Watch, now: int, n: nat)
    requires s.flying == 0 && 0 < s.clock <= now && Rolled(s.window, now).failed + n <= LIMIT && 0 < n
    ensures Run(eager, s, Burst(now, n)) ==
      s.(window := Rolled(s.window, now).(failed := Rolled(s.window, now).failed + n), peak := Max(s.peak, 1),
         prior := if Over(s.window, now) then s.strays else s.prior, failures := s.failures + Repeat(now, n), clock := now)
    decreases n
  {
    var asked := Step(eager, s, Ask(now));
    var failed := Step(eager, asked, Fail(now));
    assert Burst(now, n)[1..][1..] == Burst(now, n - 1);
    assert Run(eager, s, Burst(now, n)) == Run(eager, failed, Burst(now, n - 1));
    if n == 1 {
      assert s.failures + [now] == s.failures + Repeat(now, 1);
    } else {
      BurstFails(eager, failed, now, n - 1);
      assert s.failures + Repeat(now, n) == failed.failures + Repeat(now, n - 1);
    }
  }

  /** A first question opens the window of the shared limiter without a failure. */
  const OPENING: seq<Event> := [Ask(1), Pass]

  lemma OpeningRuns()
    ensures Run(true, Unused, OPENING) == Watch(Attempt(1, 0), 0, 1, 0, 0, [], 1)
  {
    var asked := Step(true, Unused, Ask(1));
    assert OPENING[1..] == [Pass] && [Pass][1..] == [];
    assert Run(true, asked, [Pass]) == Step(true, asked, Pass);
  }

  /** `a` failures end the window that a question opened and `b` fill the next. */
  lemma OpenedTwoWindows(now: int, a: nat, b: nat) returns (es: seq<Event>)
    requires now == MINUTE && 1 <= a <= LIMIT && 1 <= b <= LIMIT
    ensures var s := Run(true, Unused, es); s.peak == 1 && s.strays == 0 && s.failures == Repeat(now, a) + Repeat(now + 1, b)
  {
    OpeningRuns();
    var s1 := Run(true, Unused, OPENING);
    BurstFails(true, s1, now, a);
    var s2 := Run(true, s1, Burst(now, a));
    BurstFails(true, s2, now + 1, b);
    RunSplits(true, Unused, OPENING, Burst(now, a));
    RunSplits(true, Unused, OPENING + Burst(now, a), Burst(now + 1, b));
    es := OPENING + Burst(now, a) + Burst(now + 1, b);
    assert [] + Repeat(now, a) == Repeat(now, a);
  }

  /** Ten failures in two nanoseconds, one request at a time. Ten is the exact bound of the
      shared limiter. */
  lemma TenFailuresAtOnce() returns (es: seq<Event>)
    ensures var s := Run(true, Unused, es);
      s.peak == 1 && s.strays == 0 && |s.failures| == 10 && s.failures[9] - s.failures[0] == 1
  {
    es := OpenedTwoWindows(MINUTE, 5, 5);
  }

  /** The request that gives the window of `k` the event `e`; `n` is an unused request ID. */
  ghost function Realizing(k: Key, s: State, e: Event, n: nat): Request {
    match e
    case Ask(now) => Asks(n, [k], now)
    case Tick(now) => Asks(n, [], now)
    case Fail(now) => if Holding(s.requests, k) == {} then Passes(n) else Fails(Any(Holding(s.requests, k)), now)
    case Pass => if Holding(s.requests, k) == {} then Passes(n) else Passes(Any(Holding(s.requests, k)))
    case Unasked(now) => Passes(n)
  }

  /** The callers of the keyed limiter always ask first. */
  ghost predicate AllAsk(es: seq<Event>) { forall i :: 0 <= i < |es| ==> !es[i].Unasked? }

  ghost predicate Unissued(s: State, n: nat) { forall id :: id in s.requests ==> id < n }

  lemma RealizingFits(k: Key, s: State, e: Event, n: nat)
    requires RequestsDistinct(s) && Unissued(s, n) && |Holding(s.requests, k)| <= s.peak && !e.Unasked?
    ensures var t := Next(false, k, s, Realizing(k, s, e, n));
      Seen(k, t) == Step(false, Seen(k, s), e) && Unissued(t, n + 1)
  {
    var r := Realizing(k, s, e, n);
    NextIsStep(k, s, r);
    if e.Ask? { assert AllowedFor(s.attempts, [k], e.now) <==> !Blocked(Get(s.attempts, k), e.now); }
  }

  ghost predicate Realizable(k: Key, s: State, n: nat) {
    RequestsDistinct(s) && Unissued(s, n) && Inv(false, Seen(k, s))
  }

  lemma RealizingKeeps(k: Key, s: State, e: Event, n: nat)
    requires Realizable(k, s, n) && !e.Unasked?
    ensures var t := Next(false, k, s, Realizing(k, s, e, n));
      Realizable(k, t, n + 1) && Seen(k, t) == Step(false, Seen(k, s), e)
  {
    assert |Holding(s.requests, k)| == Seen(k, s).flying;
    RealizingFits(k, s, e, n);
    NextKeepsDistinct(k, s, Realizing(k, s, e, n));
    StepKeepsInv(false, Seen(k, s), e);
  }

  /** The requests that give the window of `k` the events `es`. */
  ghost function Realization(k: Key, s: State, es: seq<Event>, n: nat): seq<Request>
    decreases |es|
  {
    if es == [] then []
    else
      var r := Realizing(k, s, es[0], n);
      [r] + Realization(k, Next(false, k, s, r), es[1..], n + 1)
  }

  lemma {:induction false} RealizationDistinct(k: Key, s: State, es: seq<Event>, n: nat)
    ensures DistinctKeys(Realization(k, s, es, n))
    decreases |es|
  {
    if es != [] {
      var r := Realizing(k, s, es[0], n);
      RealizationDistinct(k, Next(false, k, s, r), es[1..], n + 1);
      MoreDistinct(r, Realization(k, Next(false, k, s, r), es[1..], n + 1));
    }
  }

  /** Every run of one window whose callers ask is a run of the keyed limiter, so its extremes are too. */
  lemma {:induction false} Realized(k: Key, s: State, es: seq<Event>, n: nat)
    requires Realizable(k, s, n) && AllAsk(es)
    ensures Seen(k, RunAll(false, k, s, Realization(k, s, es, n))) == Run(false, Seen(k, s), es)
    decreases |es|
  {
    if es != [] {
      var r := Realizing(k, s, es[0], n);
      var t := Next(false, k, s, r);
      var rest := Realization(k, t, es[1..], n + 1);
      RealizingKeeps(k, s, es[0], n);
      Realized(k, t, es[1..], n + 1);
      RunAllCons(k, s, r, rest);
    }
  }

  lemma RunAllCons(k: Key, s: State, r: Request, rest: seq<Request>)
    ensures RunAll(false, k, s, [r] + rest) == RunAll(false, k, Next(false, k, s, r), rest)
  {
    assert ([r] + rest)[1..] == rest;
  }

  lemma MoreDistinct(r: Request, rest: seq<Request>)
    requires DistinctKeys(rest) && (r.Asks? ==> NoDuplicates(r.keys))
    ensures DistinctKeys([r] + rest)
  {
  }

  lemma BurstAsks(now: int, n: nat)
    ensures AllAsk(Burst(now, n))
  {
  }

  // --- Crowds and strays -------------------------------------------------------------------

  lemma {:induction false} CrowdAsks(eager: bool, s: Watch, now: int, n: nat)
    requires !Over(s.window, now) && s.window.failed < LIMIT && s.clock == now && s.flying <= s.peak
    ensures Run(eager, s, Repeat(Ask(now), n)) == s.(flying := s.flying + n, peak := Max(s.peak, s.flying + n))
    decreases n
  {
    if n > 0 {
      assert Repeat(Ask(now), n)[1..] == Repeat(Ask(now), n - 1);
      CrowdAsks(eager, Step(eager, s, Ask(now)), now, n - 1);
    }
  }

  lemma {:induction false} CrowdFails(eager: bool, s: Watch, now: int, n: nat)
    requires !Over(s.window, now) && s.clock == now && n <= s.flying && 0 <= now
    ensures Run(eager, s, Repeat(Fail(now), n)) ==
      s.(window := s.window.(failed := s.window.failed + n), flying := s.flying - n, failures := s.failures + Repeat(now, n))
    decreases n
  {
    if n == 0 {
      assert s.failures + Repeat(now, 0) == s.failures;
    } else {
      assert Repeat(Fail(now), n)[1..] == Repeat(Fail(now), n - 1);
      var t := Step(eager, s, Fail(now));
      CrowdFails(eager, t, now, n - 1);
      assert s.failures + Repeat(now, n) == t.failures + Repeat(now, n - 1);
    }
  }

  lemma {:induction false} StraysFail(eager: bool, s: Watch, now: int, n: nat)
    requires !Over(s.window, now) && s.clock == now
    ensures Run(eager, s, Repeat(Unasked(now), n)) ==
      s.(window := s.window.(failed := s.window.failed + n), strays := s.strays + n, failures := s.failures + Repeat(now, n))
    decreases n
  {
    if n == 0 {
      assert s.failures + Repeat(now, 0) == s.failures;
    } else {
      assert Repeat(Unasked(now), n)[1..] == Repeat(Unasked(now), n - 1);
      var t := Step(eager, s, Unasked(now));
      StraysFail(eager, t, now, n - 1);
      assert s.failures + Repeat(now, n) == t.failures + Repeat(now, n - 1);
    }
  }

  /** `b` requests fail, then `c` at once are allowed and fail, and `u` failures come from
      callers that did not ask. */
  function Crowd(now: int, b: nat, c: nat, u: nat): seq<Event> {
    Burst(now, b) + Repeat(Ask(now), c) + Repeat(Fail(now), c) + Repeat(Unasked(now), u)
  }

  lemma CrowdRuns(eager: bool, s: Watch, now: int, b: nat, c: nat, u: nat)
    requires s.flying == 0 && 0 < s.clock <= now && Rolled(s.window, now).failed + b == 4 && 1 <= b && 1 <= c
    ensures var t := Run(eager, s, Crowd(now, b, c, u));
      && t.window == Rolled(s.window, now).(failed := 4 + c + u) && t.flying == 0 && t.peak == Max(s.peak, c)
      && t.strays == s.strays + u && t.failures == s.failures + Repeat(now, b + c + u) && t.clock == now
  {
    BurstFails(eager, s, now, b);
    var s1 := Run(eager, s, Burst(now, b));
    CrowdAsks(eager, s1, now, c);
    var s2 := Run(eager, s1, Repeat(Ask(now), c));
    CrowdFails(eager, s2, now, c);
    var s3 := Run(eager, s2, Repeat(Fail(now), c));
    StraysFail(eager, s3, now, u);
    RunSplits(eager, s, Burst(now, b), Repeat(Ask(now), c));
    RunSplits(eager, s, Burst(now, b) + Repeat(Ask(now), c), Repeat(Fail(now), c));
    RunSplits(eager, s, Burst(now, b) + Repeat(Ask(now), c) + Repeat(Fail(now), c), Repeat(Unasked(now), u));
    assert s.failures + Repeat(now, b) + Repeat(now, c) + Repeat(now, u) == s.failures + Repeat(now, b + c + u);
  }

  lemma CrowdAllAsks(now: int, b: nat, c: nat)
    ensures AllAsk(Crowd(now, b, c, 0))
  {
    BurstAsks(now, b);
  }

  /** Concurrent requests and strays really do get past the limit: `c` in flight and `u`
      strays record 4 + c + u failures in one window, which is the bound. */
  lemma CrowdReachesBound(eager: bool, c: nat, u: nat) returns (es: seq<Event>)
    requires 1 <= c
    ensures var s := Run(eager, Unused, es); s.peak == c && s.strays == u && s.window.failed == 4 + c + u
  {
    var four := LIMIT - 1;
    CrowdRuns(eager, Unused, 1, four, c, u);
    es := Crowd(1, four, c, u);
  }

  /** A crowd ends the window that a question opened, and another one with `u` strays fills
      the next. */
  lemma OpenedCrowds(now: int, b: nat, c: nat, u: nat) returns (es: seq<Event>)
    requires now == MINUTE && b == 4 && 1 <= c
    ensures var s := Run(true, Unused, es);
      s.peak == c && s.strays == u && s.failures == Repeat(now, b + c) + Repeat(now + 1, b + c + u)
  {
    OpeningRuns();
    var s1 := Run(true, Unused, OPENING);
    CrowdRuns(true, s1, now, b, c, 0);
    var s2 := Run(true, s1, Crowd(now, b, c, 0));
    CrowdRuns(true, s2, now + 1, b, c, u);
    RunSplits(true, Unused, OPENING, Crowd(now, b, c, 0));
    RunSplits(true, Unused, OPENING + Crowd(now, b, c, 0), Crowd(now + 1, b, c, u));
    es := OPENING + Crowd(now, b, c, 0) + Crowd(now + 1, b, c, u);
    assert [] + Repeat(now, b + c) == Repeat(now, b + c);
  }

  /** And the bound for a minute is reached too: twice 4 + c failures and `u` more within a
      nanosecond. With c = 1 and no strays these are the ten of `TenFailuresAtOnce`. */
  lemma CrowdReachesMinuteBound(c: nat, u: nat) returns (es: seq<Event>)
    requires 1 <= c
    ensures var s := Run(true, Unused, es);
      && s.peak == c && s.strays == u && |s.failures| == 2 * (4 + c) + u
      && s.failures[|s.failures| - 1] - s.failures[0] == 1
  {
    es := OpenedCrowds(MINUTE, 4, c, u);
  }

  /** One failure opens a window, a crowd ends it and another one fills the next. */
  function KeyedCrowds(now: int, a: nat, b: nat, c: nat): seq<Event> {
    Burst(1, 1) + Crowd(now, a, c, 0) + Crowd(now + 1, b, c, 0)
  }

  lemma KeyedCrowdsRun(now: int, a: nat, b: nat, c: nat)
    requires now == MINUTE && a == 3 && b == 4 && 1 <= c
    ensures var s := Run(false, Unused, KeyedCrowds(now, a, b, c));
      s.peak == c && s.failures == Repeat(1, 1) + Repeat(now, a + c) + Repeat(now + 1, b + c)
  {
    BurstFails(false, Unused, 1, 1);
    var s1 := Run(false, Unused, Burst(1, 1));
    CrowdRuns(false, s1, now, a, c, 0);
    var s2 := Run(false, s1, Crowd(now, a, c, 0));
    CrowdRuns(false, s2, now + 1, b, c, 0);
    RunSplits(false, Unused, Burst(1, 1), Crowd(now, a, c, 0));
    RunSplits(false, Unused, Burst(1, 1) + Crowd(now, a, c, 0), Crowd(now + 1, b, c, 0));
    assert [] + Repeat(1, 1) == Repeat(1, 1);
  }

  lemma KeyedCrowdsAsk(now: int, a: nat, b: nat, c: nat)
    ensures AllAsk(KeyedCrowds(now, a, b, c))
  {
    BurstAsks(1, 1);
    CrowdAllAsks(now, a, c);
    CrowdAllAsks(now + 1, b, c);
  }

  lemma KeyedCrowdsRealized(k: Key, now: int, a: nat, b: nat, c: nat) returns (rs: seq<Request>)
    requires now == MINUTE && a == 3 && b == 4 && 1 <= c
    ensures DistinctKeys(rs)
    ensures var s := RunAll(true, k, Fresh, rs);
      s.peak == c && s.failures == Repeat(1, 1) + Repeat(now, a + c) + Repeat(now + 1, b + c)
  {
    KeyedCrowdsRun(now, a, b, c);
    KeyedCrowdsAsk(now, a, b, c);
    FreshIsUnused(k);
    rs := Realization(k, Fresh, KeyedCrowds(now, a, b, c), 0);
    RealizationDistinct(k, Fresh, KeyedCrowds(now, a, b, c), 0);
    Realized(k, Fresh, KeyedCrowds(now, a, b, c), 0);
    RunsAlike(k, Fresh, Fresh, rs);
  }

  /** The keyed limiter's bound for a minute is reached for every `c`: one failure less than
      twice 4 + c within a nanosecond, because its windows open with a failure. */
  lemma KeyedCrowdReachesMinuteBound(k: Key, c: nat) returns (rs: seq<Request>)
    requires 1 <= c
    ensures DistinctKeys(rs)
    ensures var s := RunAll(true, k, Fresh, rs);
      && s.peak == c && |s.failures| == 2 * (4 + c)
      && s.failures[|s.failures| - 1] - s.failures[1] == 1
  {
    rs := KeyedCrowdsRealized(k, MINUTE, 3, 4, c);
  }

  /** One request at a time these are nine failures of one key. */
  lemma NineKeyedFailuresAtOnce(k: Key) returns (rs: seq<Request>)
    ensures DistinctKeys(rs)
    ensures var s := RunAll(true, k, Fresh, rs);
      s.peak == 1 && |s.failures| == 10 && s.failures[9] - s.failures[1] == 1
  {
    rs := KeyedCrowdReachesMinuteBound(k, 1);
  }
}
