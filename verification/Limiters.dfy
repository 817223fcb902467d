/** The failed-attempt limiters (attemptLimiter in internal/server/http.go and
    keyedAttemptLimiter in internal/server/pairing.go). A time is a positive number of
    nanoseconds; zero is Go's zero time, which marks a window that has not started. */
module Limiters {
  import opened Prelude

  const LIMIT: nat := 5
  const PRUNE_ABOVE: nat := 4096

  datatype Attempt = Attempt(started: int, failed: nat)

  predicate Over(a: Attempt, now: int) { a.started == 0 || now - a.started >= MINUTE }

  function Rolled(a: Attempt, now: int): Attempt { if Over(a, now) then Attempt(now, 0) else a }

  function Counted(a: Attempt, now: int): Attempt {
    var current := Rolled(a, now);
    current.(failed := current.failed + 1)
  }

  predicate Blocked(a: Attempt, now: int) { !Over(a, now) && a.failed >= LIMIT }

  // --- One window shared by every caller ------------------------------------------------

  class AttemptLimiter {
    var start: int
    var failed: nat

    ghost function Window(): Attempt reads this { Attempt(start, failed) }

    constructor () ensures Window() == Attempt(0, 0) { start, failed := 0, 0; }

    /** Asking opens the window; the answer is that of the keyed limiter on the same window. */
    method Allowed(now: int) returns (ok: bool)
      modifies this
      ensures Window() == Rolled(old(Window()), now)
      ensures ok <==> old(start) == 0 || now - old(start) >= 60_000_000_000 || old(failed) < 5
    {
      if start == 0 || now - start >= MINUTE { start, failed := now, 0; }
      return failed < LIMIT;
    }

    method Failure(now: int)
      modifies this
      ensures Window() == Counted(old(Window()), now)
      ensures old(start) == 0 || now - old(start) >= 60_000_000_000 ==> start == now && failed == 1
      ensures old(start) != 0 && now - old(start) < 60_000_000_000 ==> start == old(start) && failed == old(failed) + 1
    {
      if start == 0 || now - start >= MINUTE { start, failed := now, 0; }
      failed := failed + 1;
    }
  }

  // --- One window per key -----------------------------------------------------------------

  type Key = string
  type Attempts = map<Key, Attempt>

  /** Reading an absent key gives the zero value. */
  function Get(m: Attempts, k: Key): Attempt { if k in m then m[k] else Attempt(0, 0) }

  predicate AllowedFor(m: Attempts, keys: seq<Key>, now: int) {
    forall i :: 0 <= i < |keys| ==> !Blocked(Get(m, keys[i]), now)
  }

  function CountAll(m: Attempts, keys: seq<Key>, now: int): Attempts
    decreases |keys|
  {
    if keys == [] then m
    else CountAll(m[keys[0] := Counted(Get(m, keys[0]), now)], keys[1..], now)
  }

  function Pruned(m: Attempts, now: int): Attempts {
    map k | k in m && now - m[k].started < MINUTE :: m[k]
  }

  /** `prunes` is what the source does; without it the map only grows. */
  function AfterFailure(prunes: bool, m: Attempts, keys: seq<Key>, now: int): Attempts {
    var counted := CountAll(m, keys, now);
    if prunes && |counted| > PRUNE_ABOVE then Pruned(counted, now) else counted
  }

  class KeyedAttemptLimiter {
    var attempts: Attempts

    constructor () ensures attempts == map[] { attempts := map[]; }

    method Allowed(keys: seq<Key>, now: int) returns (ok: bool)
      ensures ok <==> AllowedFor(attempts, keys, now)
      ensures ok <==> forall i :: 0 <= i < |keys| && keys[i] in attempts ==>
        var a := attempts[keys[i]]; a.started == 0 || now - a.started >= 60_000_000_000 || a.failed < 5
    {
      for i := 0 to |keys|
        invariant forall j :: 0 <= j < i ==> !Blocked(Get(attempts, keys[j]), now)
      {
        var attempt := Get(attempts, keys[i]);
        if attempt.started != 0 && now - attempt.started < MINUTE && attempt.failed >= LIMIT { return false; }
      }
      return true;
    }

    method Failure(keys: seq<Key>, now: int)
      modifies this
      ensures attempts == AfterFailure(true, old(attempts), keys, now)
    {
      var n := 0;
      assert keys[0..] == keys;
      while n < |keys|
        invariant n <= |keys|
        invariant CountAll(attempts, keys[n..], now) == CountAll(old(attempts), keys, now)
      {
        assert keys[n..][1..] == keys[n + 1..];
        var attempt := Get(attempts, keys[n]);
        if attempt.started == 0 || now - attempt.started >= MINUTE { attempt := Attempt(now, 0); }
        attempt := attempt.(failed := attempt.failed + 1);
        attempts := attempts[keys[n] := attempt];
        n := n + 1;
      }
      if |attempts| > PRUNE_ABOVE { Prune(now); }
    }

    /** The keys are visited in no particular order. */
    method Prune(now: int)
      modifies this
      ensures attempts == Pruned(old(attempts), now)
    {
      var todo := attempts.Keys;
      while todo != {}
        invariant todo <= attempts.Keys <= old(attempts).Keys
        invariant forall k :: k in attempts ==> attempts[k] == old(attempts)[k]
        invariant forall k :: k in old(attempts) && k !in todo ==> (k in attempts <==> now - old(attempts)[k].started < MINUTE)
      {
        var key :| key in todo;
        todo := todo - {key};
        if now - attempts[key].started >= MINUTE { attempts := Without(attempts, key); }
      }
    }
  }

  // --- Pruning is invisible ------------------------------------------------------------------

  /** The unpruned map `u` knows more than `m`, but only windows that are over. */
  ghost predicate Related(m: Attempts, u: Attempts, now: int) {
    && m.Keys <= u.Keys
    && (forall k :: k in u ==> 0 < u[k].started <= now)
    && (forall k :: k in m ==> m[k] == u[k])
    && (forall k :: k in u && k !in m ==> now - u[k].started >= MINUTE)
  }

  lemma {:induction false} CountAllRelated(m: Attempts, u: Attempts, keys: seq<Key>, now: int)
    requires Related(m, u, now) && now > 0
    ensures Related(CountAll(m, keys, now), CountAll(u, keys, now), now)
    decreases |keys|
  {
    if keys != [] {
      var k := keys[0];
      assert Counted(Get(m, k), now) == Counted(Get(u, k), now);
      CountAllRelated(m[k := Counted(Get(m, k), now)], u[k := Counted(Get(u, k), now)], keys[1..], now);
    }
  }

  lemma FailureRelated(m: Attempts, u: Attempts, keys: seq<Key>, before: int, now: int)
    requires Related(m, u, before) && 0 < now && before <= now
    ensures Related(AfterFailure(true, m, keys, now), AfterFailure(false, u, keys, now), now)
  {
    assert Related(m, u, now);
    CountAllRelated(m, u, keys, now);
  }

  lemma RelatedAnswersAgree(m: Attempts, u: Attempts, keys: seq<Key>, before: int, now: int)
    requires Related(m, u, before) && before <= now
    ensures AllowedFor(m, keys, now) == AllowedFor(u, keys, now)
  {
    assert forall k :: Over(Get(m, k), now) == Over(Get(u, k), now);
  }

  datatype Call = CallAllowed(keys: seq<Key>, now: int) | CallFailure(keys: seq<Key>, now: int)

  predicate ClockedFrom(calls: seq<Call>, from: int) {
    calls == [] || (from <= calls[0].now && 0 < calls[0].now && ClockedFrom(calls[1..], calls[0].now))
  }

  function Answers(prunes: bool, m: Attempts, calls: seq<Call>): seq<bool>
    decreases |calls|
  {
    if calls == [] then []
    else match calls[0]
      case CallAllowed(keys, now) => [AllowedFor(m, keys, now)] + Answers(prunes, m, calls[1..])
      case CallFailure(keys, now) => Answers(prunes, AfterFailure(prunes, m, keys, now), calls[1..])
  }

  lemma {:induction false} RelatedRunsAgree(m: Attempts, u: Attempts, calls: seq<Call>, clock: int)
    requires Related(m, u, clock) && ClockedFrom(calls, clock)
    ensures Answers(true, m, calls) == Answers(false, u, calls)
    decreases |calls|
  {
    if calls != [] {
      var now := calls[0].now;
      match calls[0]
      case CallAllowed(keys, _) =>
        RelatedAnswersAgree(m, u, keys, clock, now);
        RelatedRunsAgree(m, u, calls[1..], now);
      case CallFailure(keys, _) =>
        FailureRelated(m, u, keys, clock, now);
        RelatedRunsAgree(AfterFailure(true, m, keys, now), AfterFailure(false, u, keys, now), calls[1..], now);
    }
  }

  /** Whatever calls are made, with whatever keys, the limiter that prunes gives exactly
      the answers of the one that never forgets. */
  lemma PruningIsInvisible(calls: seq<Call>)
    requires ClockedFrom(calls, 0)
    ensures Answers(true, map[], calls) == Answers(false, map[], calls)
  {
    RelatedRunsAgree(map[], map[], calls, 0);
  }

  // --- How many failures a window and a minute can hold ------------------------------------

  /** One window seen over a run of concurrent requests: `flying` requests were allowed
      and have not finished, never more than `peak` at once. A request that is allowed ends
      in one recorded failure or in none. Of the failures recorded by `strays`, callers that
      did not ask first, `prior` came before the current window. */
  datatype Watch = Watch(window: Attempt, flying: nat, peak: nat, strays: nat, prior: nat, failures: seq<int>, clock: int)

  datatype Event = Ask(now: int) | Fail(now: int) | Unasked(now: int) | Pass | Tick(now: int)

  const Unused: Watch := Watch(Attempt(0, 0), 0, 0, 0, 0, [], 1)

  function Max(a: nat, b: nat): nat { if a < b then b else a }

  function Recorded(s: Watch, now: int): Watch {
    s.(window := Counted(s.window, now), prior := if Over(s.window, now) then s.strays else s.prior,
       failures := s.failures + [now], clock := now)
  }

  function Asked(eager: bool, s: Watch, now: int): Watch {
    if eager && Over(s.window, now) then s.(window := Rolled(s.window, now), prior := s.strays, clock := now) else s.(clock := now)
  }

  function LetIn(s: Watch): Watch { s.(flying := s.flying + 1, peak := Max(s.peak, s.flying + 1)) }

  /** `eager`: asking opens a window. Events from a clock that went back do not happen. */
  function Step(eager: bool, s: Watch, e: Event): Watch {
    match e
    case Ask(now) =>
      if now < s.clock then s
      else if Blocked(s.window, now) then Asked(eager, s, now)
      else LetIn(Asked(eager, s, now))
    case Fail(now) => if now < s.clock || s.flying == 0 then s else Recorded(s, now).(flying := s.flying - 1)
    case Unasked(now) => if now < s.clock then s else Recorded(s, now).(strays := s.strays + 1)
    case Pass => if s.flying == 0 then s else s.(flying := s.flying - 1)
    case Tick(now) => if now < s.clock then s else s.(clock := now)
  }

  function Run(eager: bool, s: Watch, es: seq<Event>): Watch
    decreases |es|
  {
    if es == [] then s else Run(eager, Step(eager, s, es[0]), es[1..])
  }

  /** The most failures the current window can hold. */
  function Bound(s: Watch): nat { LIMIT - 1 + s.peak + if s.prior <= s.strays then s.strays - s.prior else 0 }

  /** A window opened by a failure rather than by a question holds one time more. */
  function Slack(eager: bool): nat { if eager then 0 else 1 }

  /** The most failures an earlier window can hold that still reach into the same minute. */
  function Gap(eager: bool, s: Watch): nat { LIMIT - 1 + s.peak + s.prior - Slack(eager) }

  /** Any `span` failures and the one after them take a minute at least. */
  ghost predicate Spread(failures: seq<int>, span: nat) {
    forall i, j :: 0 <= i && i + span <= j < |failures| ==> failures[i] + 60_000_000_000 <= failures[j]
  }

  /** The last `w.failed` failures fell into the current window, the others before it. */
  ghost predicate WindowHolds(w: Attempt, failures: seq<int>, clock: int) {
    && w.failed <= |failures|
    && w.started <= clock
    && (w.started == 0 ==> failures == [])
    && (forall i :: 0 <= i < |failures| ==> 0 < failures[i] <= clock)
    && (forall i :: 0 <= i < |failures| - w.failed ==> failures[i] <= w.started)
    && (forall i :: |failures| - w.failed <= i < |failures| ==> w.started <= failures[i] < w.started + MINUTE)
  }

  /** A window that only failures open starts at its first failure. */
  ghost predicate StartsAtFailure(w: Attempt, failures: seq<int>) {
    w.started != 0 ==> 0 < w.failed <= |failures| && failures[|failures| - w.failed] == w.started
  }

  /** All but the last `gap` failures of earlier windows are a minute older than this one. */
  ghost predicate OldEnough(w: Attempt, failures: seq<int>, gap: nat) {
    forall i :: 0 <= i < |failures| - w.failed - gap ==> failures[i] + MINUTE <= w.started
  }

  ghost predicate Load(s: Watch) {
    && s.flying <= s.peak && s.prior <= s.strays && s.window.failed <= Bound(s)
    && (Over(s.window, s.clock) || s.window.failed + s.flying <= Bound(s))
  }

  ghost predicate Spaced(eager: bool, w: Attempt, failures: seq<int>, clock: int, gap: nat, bound: nat) {
    && WindowHolds(w, failures, clock) && 0 < clock
    && (eager || StartsAtFailure(w, failures))
    && OldEnough(w, failures, gap) && Spread(failures, gap + bound)
  }

  ghost predicate Inv(eager: bool, s: Watch) {
    Load(s) && Spaced(eager, s.window, s.failures, s.clock, Gap(eager, s), Bound(s))
  }

  /** Opening a window a minute after the last one leaves every earlier failure behind,
      and all but the last window's failures a minute behind. */
  lemma RollKeeps(w: Attempt, failures: seq<int>, clock: int, now: int)
    requires WindowHolds(w, failures, clock) && 0 < clock <= now && Over(w, now)
    ensures WindowHolds(Attempt(now, 0), failures, now)
    ensures OldEnough(Attempt(now, 0), failures, w.failed)
    ensures StartsAtFailure(w, failures) ==> failures == [] || (0 < w.failed && OldEnough(Attempt(now, 0), failures, w.failed - 1))
  {
  }

  lemma AppendKeepsWindow(w: Attempt, failures: seq<int>, clock: int, now: int)
    requires WindowHolds(w, failures, clock) && 0 < clock <= now && !Over(w, now)
    ensures WindowHolds(w.(failed := w.failed + 1), failures + [now], now)
  {
  }

  lemma AppendKeepsSpread(w: Attempt, failures: seq<int>, now: int, gap: nat, bound: nat)
    requires w.started <= now && OldEnough(w, failures, gap) && Spread(failures, gap + bound) && w.failed < bound
    ensures OldEnough(w.(failed := w.failed + 1), failures + [now], gap)
    ensures Spread(failures + [now], gap + bound)
  {
    var longer := failures + [now];
    forall i, j | 0 <= i && i + gap + bound <= j < |longer| ensures longer[i] + MINUTE <= longer[j] {
      if j < |failures| {
        assert failures[i] + MINUTE <= failures[j];
      } else {
        assert failures[i] + MINUTE <= w.started;
      }
    }
  }

  lemma FirstStaysFirst(w: Attempt, failures: seq<int>, now: int)
    requires w.failed <= |failures| && (StartsAtFailure(w, failures) || w == Attempt(now, 0))
    ensures StartsAtFailure(w.(failed := w.failed + 1), failures + [now]) || w.started == 0
  {
  }

  /** More requests in flight and more strays only loosen the bounds. */
  lemma LooserBounds(w: Attempt, failures: seq<int>, gap: nat, span: nat, looserGap: nat, looserSpan: nat)
    requires OldEnough(w, failures, gap) && Spread(failures, span) && gap <= looserGap && span <= looserSpan
    ensures OldEnough(w, failures, looserGap) && Spread(failures, looserSpan)
  {
  }

  /** Opening a window, with room for the failures of the one before. */
  lemma RollKeepsSpaced(eager: bool, w: Attempt, failures: seq<int>, clock: int, now: int, gap: nat, bound: nat, nextGap: nat, nextBound: nat)
    requires Spaced(eager, w, failures, clock, gap, bound) && clock <= now && Over(w, now)
    requires w.failed - Slack(eager) <= nextGap && gap + bound <= nextGap + nextBound
    ensures WindowHolds(Attempt(now, 0), failures, now)
    ensures OldEnough(Attempt(now, 0), failures, nextGap) && Spread(failures, nextGap + nextBound)
  {
    RollKeeps(w, failures, clock, now);
    if eager {
      LooserBounds(Attempt(now, 0), failures, w.failed, gap + bound, nextGap, nextGap + nextBound);
    } else if failures != [] {
      LooserBounds(Attempt(now, 0), failures, w.failed - 1, gap + bound, nextGap, nextGap + nextBound);
    }
  }

  lemma RecordKeepsSpaced(eager: bool, w: Attempt, failures: seq<int>, clock: int, now: int, gap: nat, bound: nat, nextGap: nat, nextBound: nat)
    requires Spaced(eager, w, failures, clock, gap, bound) && clock <= now
    requires Rolled(w, now).failed < nextBound && gap + bound <= nextGap + nextBound
    requires if Over(w, now) then w.failed - Slack(eager) <= nextGap else gap <= nextGap
    ensures Spaced(eager, Counted(w, now), failures + [now], now, nextGap, nextBound)
  {
    var rolled := Rolled(w, now);
    if Over(w, now) {
      RollKeepsSpaced(eager, w, failures, clock, now, gap, bound, nextGap, nextBound);
      AppendKeepsWindow(rolled, failures, now, now);
    } else {
      AppendKeepsWindow(w, failures, clock, now);
      LooserBounds(w, failures, gap, gap + bound, nextGap, nextGap + nextBound);
    }
    AppendKeepsSpread(rolled, failures, now, nextGap, nextBound);
    if !eager { FirstStaysFirst(rolled, failures, now); }
  }

  lemma FailKeepsInv(eager: bool, s: Watch, now: int)
    requires Inv(eager, s) && s.clock <= now && 0 < s.flying
    ensures Inv(eager, Step(eager, s, Fail(now)))
  {
    var t := Step(eager, s, Fail(now));
    assert Load(t) && Rolled(s.window, now).failed < Bound(t);
    RecordKeepsSpaced(eager, s.window, s.failures, s.clock, now, Gap(eager, s), Bound(s), Gap(eager, t), Bound(t));
  }

  lemma UnaskedKeepsInv(eager: bool, s: Watch, now: int)
    requires Inv(eager, s) && s.clock <= now
    ensures Inv(eager, Step(eager, s, Unasked(now)))
  {
    var t := Step(eager, s, Unasked(now));
    assert Load(t) && Rolled(s.window, now).failed < Bound(t);
    RecordKeepsSpaced(eager, s.window, s.failures, s.clock, now, Gap(eager, s), Bound(s), Gap(eager, t), Bound(t));
  }

  lemma AskedKeepsInv(eager: bool, s: Watch, now: int)
    requires Inv(eager, s) && s.clock <= now
    ensures Inv(eager, Asked(eager, s, now))
  {
    var t := Asked(eager, s, now);
    if eager && Over(s.window, now) {
      RollKeepsSpaced(eager, s.window, s.failures, s.clock, now, Gap(eager, s), Bound(s), Gap(eager, t), Bound(t));
    } else {
      assert WindowHolds(s.window, s.failures, now);
    }
  }

  /** Letting one more request in. */
  lemma AllowKeepsInv(eager: bool, s: Watch)
    requires Inv(eager, s) && !Blocked(s.window, s.clock)
    ensures Inv(eager, LetIn(s))
  {
    var t := LetIn(s);
    assert Load(t);
    LooserBounds(s.window, s.failures, Gap(eager, s), Gap(eager, s) + Bound(s), Gap(eager, t), Gap(eager, t) + Bound(t));
  }

  lemma StillUnblocked(eager: bool, s: Watch, now: int)
    requires !Blocked(s.window, now)
    ensures !Blocked(Asked(eager, s, now).window, Asked(eager, s, now).clock)
  {
  }

  lemma AskKeepsInv(eager: bool, s: Watch, now: int)
    requires Inv(eager, s) && s.clock <= now
    ensures Inv(eager, Step(eager, s, Ask(now)))
  {
    var asked := Asked(eager, s, now);
    AskedKeepsInv(eager, s, now);
    if !Blocked(s.window, now) {
      StillUnblocked(eager, s, now);
      AllowKeepsInv(eager, asked);
      assert Step(eager, s, Ask(now)) == LetIn(asked);
    } else {
      assert Step(eager, s, Ask(now)) == asked;
    }
  }

  lemma StepKeepsInv(eager: bool, s: Watch, e: Event)
    requires Inv(eager, s)
    ensures Inv(eager, Step(eager, s, e))
  {
    match e
    case Ask(now) => if s.clock <= now { AskKeepsInv(eager, s, now); }
    case Fail(now) => if s.clock <= now && 0 < s.flying { FailKeepsInv(eager, s, now); }
    case Unasked(now) => if s.clock <= now { UnaskedKeepsInv(eager, s, now); }
    case _ =>
  }

  lemma {:induction false} RunKeepsInv(eager: bool, s: Watch, es: seq<Event>)
    requires Inv(eager, s)
    ensures Inv(eager, Run(eager, s, es))
    decreases |es|
  {
    if es != [] {
      StepKeepsInv(eager, s, es[0]);
      RunKeepsInv(eager, Step(eager, s, es[0]), es[1..]);
    }
  }

  /** With at most `peak` requests in flight and `strays` failures of callers that did not
      ask, a window records at most 4 + peak failures and the strays, and so does any span
      below a minute with twice 4 + peak. */
  lemma FailuresAreBounded(es: seq<Event>)
    ensures var s := Run(true, Unused, es);
      WindowHolds(s.window, s.failures, s.clock) && s.window.failed <= 4 + s.peak + s.strays && Spread(s.failures, 2 * (4 + s.peak) + s.strays)
  {
    RunKeepsInv(true, Unused, es);
  }

  /** One request at a time, all of them asking: five failures in a window, ten in any span
      below a minute. */
  lemma SequentialFailuresAreBounded(es: seq<Event>)
    requires Run(true, Unused, es).peak <= 1 && Run(true, Unused, es).strays == 0
    ensures var s := Run(true, Unused, es);
      WindowHolds(s.window, s.failures, s.clock) && s.window.failed <= 5 && Spread(s.failures, 10)
  {
    RunKeepsInv(true, Unused, es);
    var s := Run(true, Unused, es);
    LooserBounds(s.window, s.failures, Gap(true, s), Gap(true, s) + Bound(s), Gap(true, s), 10);
  }

  /** A refusal is earned: five failures were recorded within the last minute. */
  lemma RefusalsAreEarned(es: seq<Event>, now: int)
    requires Blocked(Run(true, Unused, es).window, now)
    ensures var failures := Run(true, Unused, es).failures;
      |failures| >= 5 && forall i :: |failures| - 5 <= i < |failures| ==> now - failures[i] < MINUTE
  {
    RunKeepsInv(true, Unused, es);
  }
}
