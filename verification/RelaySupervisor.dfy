/** Reconnecting to the relay with growing, jittered intervals
    (internal/node/relay_supervisor.go). Durations are nanoseconds; floats are reals. */
module RelaySupervisor {
  import opened Prelude

  const RECONNECT_INITIAL: int := SECOND
  const RECONNECT_MAX: int := 30 * SECOND
  const STABLE_WINDOW: int := 5 * SECOND
  const INT64_MAX: int := 0x7fff_ffff_ffff_ffff

  // --- The interval ---------------------------------------------------------------------

  /** Go's `/` truncates toward zero. */
  function Half(d: int): int { if d >= 0 then d / 2 else -(-d / 2) }

  function NextRelayInterval(current: int, maximum: int): int {
    if current >= Half(maximum) then maximum else current * 2
  }

  function Pow2(k: nat): nat { if k == 0 then 1 else 2 * Pow2(k - 1) }

  function Doubled(initial: int, k: nat): int {
    if k == 0 then initial else 2 * Doubled(initial, k - 1)
  }

  lemma {:induction false} DoubledIsPower(initial: int, k: nat)
    ensures Doubled(initial, k) == initial * Pow2(k)
  {
    if k > 0 {
      DoubledIsPower(initial, k - 1);
      assert initial * (2 * Pow2(k - 1)) == 2 * (initial * Pow2(k - 1));
    }
  }

  /** The interval after `k` unstable attempts in a row, without iterating: doubled `k` times,
      unless the doubling before already came to half the maximum. */
  function Backoff(initial: int, maximum: int, k: nat): int {
    if k > 0 && Doubled(initial, k - 1) >= Half(maximum) then maximum else Doubled(initial, k)
  }

  /** The doubling loop computes the closed form, for every pair of positive settings. */
  lemma NextIsBackoff(initial: int, maximum: int, k: nat)
    requires 0 < initial && 0 < maximum
    ensures NextRelayInterval(Backoff(initial, maximum, k), maximum) == Backoff(initial, maximum, k + 1)
  {
    DoubledIsPositive(initial, k);
    if k > 0 { DoubledIsPositive(initial, k - 1); }
  }

  lemma {:induction false} DoubledIsPositive(initial: int, k: nat)
    requires 0 < initial
    ensures k < Doubled(initial, k)
  {
    if k > 0 { DoubledIsPositive(initial, k - 1); }
  }

  lemma BackoffRange(initial: int, maximum: int, k: nat)
    requires 0 < initial && 0 < maximum
    ensures 0 < Backoff(initial, maximum, k)
    ensures k > 0 || initial <= maximum ==> Backoff(initial, maximum, k) <= maximum
  {
    DoubledIsPositive(initial, k);
  }

  /** The interval stays within the maximum at every attempt exactly when the initial one does. */
  lemma BackoffStaysWithinMaximum(initial: int, maximum: int)
    requires 0 < initial && 0 < maximum
    ensures (forall k: nat :: 0 < Backoff(initial, maximum, k) <= maximum) <==> initial <= maximum
  {
    if initial <= maximum {
      forall k: nat ensures 0 < Backoff(initial, maximum, k) <= maximum { BackoffRange(initial, maximum, k); }
    } else {
      assert Backoff(initial, maximum, 0) > maximum;
    }
  }

  /** Once at the maximum it stays there. */
  lemma {:induction false} MaximumIsKept(initial: int, maximum: int, k: nat, later: nat)
    requires 0 < initial && 0 < maximum && k <= later && Backoff(initial, maximum, k) == maximum
    ensures Backoff(initial, maximum, later) == maximum
    decreases later
  {
    if k < later {
      MaximumIsKept(initial, maximum, k, later - 1);
      NextIsBackoff(initial, maximum, later - 1);
    }
  }

  /** It is there after `k` attempts exactly when `k` doublings come to the maximum, or to
      one nanosecond less. */
  lemma MaximumIsReachedExactlyWhen(initial: int, maximum: int, k: nat)
    requires 0 < initial && 0 < maximum && 0 < k
    ensures Backoff(initial, maximum, k) == maximum <==> initial * Pow2(k) >= maximum - 1
  {
    DoubledIsPower(initial, k);
    DoubledIsPositive(initial, k);
  }

  /** So it is reached, however small the initial interval. */
  lemma MaximumIsReached(initial: int, maximum: int)
    requires 0 < initial && 0 < maximum
    ensures exists k: nat :: 0 < k && Backoff(initial, maximum, k) == maximum
  {
    DoubledIsPower(initial, maximum);
    DoubledIsPositive(initial, maximum);
    MaximumIsReachedExactlyWhen(initial, maximum, maximum);
  }

  /** With the defaults the intervals are 1, 2, 4, 8 and 16 seconds, and 30 from the fifth
      unstable attempt on. */
  lemma DefaultIntervals(k: nat)
    ensures Backoff(RECONNECT_INITIAL, RECONNECT_MAX, k) == if k < 5 then 1_000_000_000 * Pow2(k) else 30_000_000_000
  {
    assert Pow2(1) == 2 && Pow2(2) == 4 && Pow2(3) == 8 && Pow2(4) == 16 && Pow2(5) == 32;
    DoubledIsPower(RECONNECT_INITIAL, k);
    if k < 5 {
      if k > 0 { DoubledIsPower(RECONNECT_INITIAL, k - 1); }
      assert k == 0 || k == 1 || k == 2 || k == 3 || k == 4;
    } else {
      DoubledIsPower(RECONNECT_INITIAL, 5);
      MaximumIsReachedExactlyWhen(RECONNECT_INITIAL, RECONNECT_MAX, 5);
      MaximumIsKept(RECONNECT_INITIAL, RECONNECT_MAX, 5, k);
    }
  }

  /** Never shrinks, and never doubles past 64 bits. */
  lemma BackoffGrows(initial: int, maximum: int, k: nat)
    requires 0 < initial <= maximum <= INT64_MAX
    ensures Backoff(initial, maximum, k) <= Backoff(initial, maximum, k + 1)
    ensures Backoff(initial, maximum, k) < Half(maximum) ==> Backoff(initial, maximum, k) * 2 <= INT64_MAX
  {
    BackoffRange(initial, maximum, k);
    NextIsBackoff(initial, maximum, k);
  }

  // --- Jitter --------------------------------------------------------------------------------

  function Clamped(value: real): real { if value < 0.0 then 0.0 else if value > 1.0 then 1.0 else value }

  /** Go's conversion of a non-negative float cuts the fraction off. */
  function JitteredRelayInterval(interval: int, random: real): int {
    if interval <= 0 then 0 else (interval as real * (0.8 + Clamped(random) * 0.4)).Floor
  }

  /** Whatever the random source returns, also outside its range, the delay is within the
      jitter of four to six fifths of the interval, cut to whole nanoseconds, and the ends of
      the jitter are reached. */
  lemma JitterIsBounded(interval: int, random: real)
    ensures interval > 0 ==> 4 * interval - 5 < 5 * JitteredRelayInterval(interval, random) <= 6 * interval
    ensures interval <= 0 ==> JitteredRelayInterval(interval, random) == 0
    ensures interval > 0 && random <= 0.0 ==> JitteredRelayInterval(interval, random) == 4 * interval / 5
    ensures interval > 0 && random >= 1.0 ==> JitteredRelayInterval(interval, random) == 6 * interval / 5
  {
    if interval > 0 {
      FactorBounds(interval as real, Clamped(random));
      CutBounds(interval, interval as real * (0.8 + Clamped(random) * 0.4));
    }
  }

  lemma FactorBounds(interval: real, value: real)
    requires interval > 0.0 && 0.0 <= value <= 1.0
    ensures 0.8 * interval <= interval * (0.8 + value * 0.4) <= 1.2 * interval
    ensures value == 0.0 ==> interval * (0.8 + value * 0.4) == 0.8 * interval
    ensures value == 1.0 ==> interval * (0.8 + value * 0.4) == 1.2 * interval
  {
    var factor := 0.8 + value * 0.4;
    assert 0.8 <= factor <= 1.2;
  }

  lemma CutBounds(interval: int, x: real)
    requires interval > 0 && 0.8 * (interval as real) <= x <= 1.2 * (interval as real)
    ensures 4 * interval - 5 < 5 * x.Floor <= 6 * interval
    ensures x == 0.8 * (interval as real) ==> x.Floor == 4 * interval / 5
    ensures x == 1.2 * (interval as real) ==> x.Floor == 6 * interval / 5
  {
    var cut := x.Floor;
    assert cut as real <= x < (cut + 1) as real;
    assert (5 * cut) as real <= (6 * interval) as real;
    assert (4 * interval) as real < (5 * cut + 5) as real;
    if x == 0.8 * (interval as real) { assert (5 * cut) as real <= (4 * interval) as real; }
    if x == 1.2 * (interval as real) { assert (6 * interval) as real < (5 * cut + 5) as real; }
  }

  // --- The loop --------------------------------------------------------------------------------

  datatype Connected = Refused | RevokedByServer | Connection

  /** What the world does during one round: how Connect ends, whether the context is done
      afterwards, how long Serve took, whether the context is done after it, the random value,
      and whether the wait ends by timer or wake-up rather than by the context. */
  datatype Round = Round(connected: Connected, doneAfterConnect: bool, served: int, doneAfterServe: bool, random: real, resumed: bool)

  datatype Notice = Connecting | Reconnecting | Online | Revoked

  datatype Wait = Wait(interval: int, delay: int)

  /** The round comes to its wait, and the wait to its end. */
  ghost predicate GoesOn(r: Round) {
    r.connected != RevokedByServer && !r.doneAfterConnect && !(r.connected == Connection && r.doneAfterServe) && r.resumed
  }

  predicate Resets(r: Round, stable: int) { r.connected.Connection? && r.served >= stable }

  /** Round `j` is where the count of unstable attempts starts for round `i`. */
  ghost predicate CountsFrom(rounds: seq<Round>, stable: int, j: nat, i: nat) {
    && j <= i <= |rounds|
    && (j == 0 || (j < |rounds| && rounds[j].connected == Connection && rounds[j].served >= stable))
    && forall k :: j < k <= i && k < |rounds| ==> !(rounds[k].connected == Connection && rounds[k].served >= stable)
  }

  ghost predicate WaitFits(w: Wait, initial: int, maximum: int, k: nat) {
    w.interval == Backoff(initial, maximum, k) && 4 * w.interval - 5 < 5 * w.delay <= 6 * w.interval
  }

  /** After round `i` the wait is the closed-form backoff for the rounds since the last stable one. */
  ghost predicate WaitsFit(waits: seq<Wait>, rounds: seq<Round>, initial: int, maximum: int, stable: int) {
    forall i, j :: 0 <= i < |waits| && CountsFrom(rounds, stable, j, i) ==> WaitFits(waits[i], initial, maximum, i - j)
  }

  /** What is told in a round that connects: one attempt, then its outcome. */
  function Told(first: bool, r: Round): seq<Notice> {
    [if first then Connecting else Reconnecting]
    + if r.doneAfterConnect then [] else match r.connected
        case Refused => []
        case RevokedByServer => [Revoked]
        case Connection => [Online]
  }

  function ToldAll(rounds: seq<Round>): seq<Notice> {
    if rounds == [] then []
    else ToldAll(rounds[..|rounds| - 1]) + Told(|rounds| == 1, rounds[|rounds| - 1])
  }

  class RelaySupervisor {
    const initial: int
    const maximum: int
    const stable: int
    var active: Option<Round>
    var notices: seq<Notice>

    ghost predicate Valid() { 0 < initial && 0 < maximum && 0 < stable }

    constructor (initial: int, maximum: int, stableFor: int)
      ensures Valid() && active == None && notices == []
      ensures this.initial == if initial <= 0 then 1_000_000_000 else initial
      ensures this.maximum == if maximum <= 0 then 30_000_000_000 else maximum
      ensures stable == if stableFor <= 0 then 5_000_000_000 else stableFor
    {
      this.initial := if initial <= 0 then RECONNECT_INITIAL else initial;
      this.maximum := if maximum <= 0 then RECONNECT_MAX else maximum;
      stable := if stableFor <= 0 then STABLE_WINDOW else stableFor;
      active, notices := None, [];
    }

    /** Connects and, if that works, serves the connection; nothing is active afterwards. */
    method Attempt(first: bool, r: Round) returns (ended: bool)
      requires active == None
      modifies this
      ensures active == None
      ensures ended <==> r.doneAfterConnect || r.connected == RevokedByServer || (r.connected == Connection && r.doneAfterServe)
      ensures notices == old(notices) + Told(first, r)
      ensures first ==> old(notices) + [Connecting] <= notices
      ensures !first ==> old(notices) + [Reconnecting] <= notices
      ensures r.doneAfterConnect || r.connected == Refused ==> |notices| == |old(notices)| + 1
      ensures !r.doneAfterConnect && r.connected == RevokedByServer ==> |notices| == |old(notices)| + 2 && notices[|old(notices)| + 1] == Revoked
      ensures !r.doneAfterConnect && r.connected == Connection ==> |notices| == |old(notices)| + 2 && notices[|old(notices)| + 1] == Online
    {
      notices := notices + [if first then Connecting else Reconnecting];
      if r.doneAfterConnect { return true; }
      if r.connected.RevokedByServer? { notices := notices + [Revoked]; return true; }
      if r.connected.Refused? { return false; }
      active := Some(r);
      notices := notices + [Online];
      active := None;
      return r.doneAfterServe;
    }

    method Pause(interval: int, random: real) returns (w: Wait)
      ensures w.interval == interval && (interval > 0 ==> 4 * interval - 5 < 5 * w.delay <= 6 * interval)
      ensures w.delay == JitteredRelayInterval(interval, random)
    {
      JitterIsBounded(interval, random);
      return Wait(interval, JitteredRelayInterval(interval, random));
    }

    /** Runs until a round ends the loop or `rounds`, the part of the future looked at, is
        used up. Connect is called once per round up to the first that ends, and never after
        it; every wait follows the closed form. */
    method Run(rounds: seq<Round>) returns (connects: nat, waits: seq<Wait>)
      requires Valid() && active == None && notices == []
      modifies this
      ensures connects <= |rounds| && active == None
      ensures forall i :: 0 <= i < connects - 1 ==>
        && rounds[i].connected != RevokedByServer && !rounds[i].doneAfterConnect
        && !(rounds[i].connected == Connection && rounds[i].doneAfterServe) && rounds[i].resumed
      ensures connects < |rounds| ==> 0 < connects && var last := rounds[connects - 1];
        last.connected == RevokedByServer || last.doneAfterConnect || (last.connected == Connection && last.doneAfterServe) || !last.resumed
      ensures |waits| == if connects > 0 && var last := rounds[connects - 1];
          last.connected == RevokedByServer || last.doneAfterConnect || (last.connected == Connection && last.doneAfterServe)
        then connects - 1 else connects
      ensures WaitsFit(waits, rounds, initial, maximum, stable)
      ensures notices == ToldAll(rounds[..connects])
    {
      var interval := initial;
      connects, waits := 0, [];
      ghost var since: nat := 0;
      while connects < |rounds|
        invariant connects <= |rounds| && |waits| == connects && active == None
        invariant forall i :: 0 <= i < connects ==> GoesOn(rounds[i])
        invariant since <= connects && (since == 0 || (since < connects && Resets(rounds[since], stable)))
        invariant forall k :: since < k < connects ==> !Resets(rounds[k], stable)
        invariant interval == Backoff(initial, maximum, connects - since)
        invariant WaitsFit(waits, rounds, initial, maximum, stable)
        invariant notices == ToldAll(rounds[..connects])
      {
        var r := rounds[connects];
        assert rounds[..connects + 1][..connects] == rounds[..connects];
        var ended := Attempt(connects == 0, r);
        connects := connects + 1;
        if ended { return; }
        if Resets(r, stable) { interval, since := initial, connects - 1; }
        BackoffRange(initial, maximum, connects - 1 - since);
        var wait := Pause(interval, r.random);
        WaitKeepsFit(waits, wait, rounds, initial, maximum, stable, since);
        waits := waits + [wait];
        if !r.resumed { return; }
        NextIsBackoff(initial, maximum, connects - 1 - since);
        interval := NextRelayInterval(interval, maximum);
      }
    }
  }

  /** The start of the count is unique, so one more wait may be checked against it alone. */
  lemma WaitKeepsFit(waits: seq<Wait>, wait: Wait, rounds: seq<Round>, initial: int, maximum: int, stable: int, since: nat)
    requires WaitsFit(waits, rounds, initial, maximum, stable)
    requires |waits| < |rounds| && CountsFrom(rounds, stable, since, |waits|)
    requires WaitFits(wait, initial, maximum, |waits| - since)
    ensures WaitsFit(waits + [wait], rounds, initial, maximum, stable)
  {
    var longer := waits + [wait];
    forall i, j | 0 <= i < |longer| && CountsFrom(rounds, stable, j, i) ensures WaitFits(longer[i], initial, maximum, i - j) {
      if i == |waits| {
        assert j == since;
      } else {
        assert WaitFits(waits[i], initial, maximum, i - j);
      }
    }
  }
}
