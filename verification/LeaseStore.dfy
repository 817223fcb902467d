/** The in-memory lease store: epochs, expiry, forced takeover and release
    (internal/server/lease_memory.go). */
module LeaseStore {
  import opened Prelude

  const DEFAULT_LEASE_TTL: int := 60 * SECOND

  datatype LeaseScope = LeaseScope(ownerID: string, nodeID: string, workspaceID: string, threadID: string)

  /** `Unset` is the empty state string of a zero record. */
  datatype LeaseState = Unset | NoLease | Held | Expired | Released

  datatype LeaseRecord = LeaseRecord(
    scope: LeaseScope, leaseID: string, holder: string, epoch: int,
    acquiredAt: int, expiresAt: int, updatedAt: int, state: LeaseState)

  datatype LeaseError = Conflict | LeaseExpired

  datatype AcquireRequest = AcquireRequest(
    scope: LeaseScope, clientID: string, leaseID: string, force: bool, expectedEpoch: Option<int>, now: int, ttl: int)

  datatype MutationRequest = MutationRequest(
    scope: LeaseScope, clientID: string, leaseID: string, epoch: int, now: int, ttl: int)

  /** The text that names a scope in the store's map and in the hub's map of mutexes. */
  datatype Key = Key(text: string)

  type Records = map<Key, LeaseRecord>

  datatype Outcome = Outcome(records: Records, record: LeaseRecord, error: Option<LeaseError>)

  const ZERO_RECORD: LeaseRecord := LeaseRecord(LeaseScope("", "", "", ""), "", "", 0, 0, 0, 0, Unset)

  function LeaseKey(scope: LeaseScope): Key {
    Key(scope.ownerID + ['\0'] + scope.nodeID + ['\0'] + scope.workspaceID + ['\0'] + scope.threadID)
  }

  /** No component but the last, the thread ID, contains the separator. */
  ghost predicate Separable(scope: LeaseScope) {
    '\0' !in scope.ownerID && '\0' !in scope.nodeID && '\0' !in scope.workspaceID
  }

  /** A record as a reader at `now` sees it: a held record past its expiry reads as expired. */
  function Aged(record: LeaseRecord, now: int): LeaseRecord {
    if record.state == Held && record.expiresAt <= now then record.(state := Expired) else record
  }

  function Lookup(records: Records, scope: LeaseScope, now: int): LeaseRecord {
    var key := LeaseKey(scope);
    if key in records then Aged(records[key], now) else ZERO_RECORD.(scope := scope, state := NoLease)
  }

  /** The epoch a scope has reached; 0 before its first lease. */
  function EpochOf(records: Records, key: Key): int {
    if key in records then records[key].epoch else 0
  }

  function Acquire(records: Records, request: AcquireRequest): Outcome {
    var current := Lookup(records, request.scope, request.now);
    if request.expectedEpoch.Some? && request.expectedEpoch.value != current.epoch then
      Outcome(records, current, Some(Conflict))
    else if current.state == Held && current.holder != request.clientID && !request.force then
      Outcome(records, current, Some(Conflict))
    else if current.state == Held && current.holder == request.clientID && !request.force then
      Outcome(records, current, None)
    else
      var next := LeaseRecord(request.scope, request.leaseID, request.clientID, current.epoch + 1,
                              request.now, request.now + request.ttl, request.now, Held);
      Outcome(records[LeaseKey(request.scope) := next], next, None)
  }

  function Stored(records: Records, key: Key): LeaseRecord {
    if key in records then records[key] else ZERO_RECORD
  }

  predicate Owns(record: LeaseRecord, request: MutationRequest) {
    record.state == Held && record.leaseID == request.leaseID && record.holder == request.clientID && record.epoch == request.epoch
  }

  function Renew(records: Records, request: MutationRequest): Outcome {
    var key := LeaseKey(request.scope);
    var current := Stored(records, key);
    if !Owns(current, request) then Outcome(records, current, Some(Conflict))
    else if current.expiresAt <= request.now then Outcome(records, current.(state := Expired), Some(LeaseExpired))
    else
      var next := current.(expiresAt := request.now + request.ttl, updatedAt := request.now);
      Outcome(records[key := next], next, None)
  }

  function Release(records: Records, request: MutationRequest): Outcome {
    var key := LeaseKey(request.scope);
    var current := Stored(records, key);
    if !Owns(current, request) then Outcome(records, current, Some(Conflict))
    else
      var next := current.(leaseID := "", holder := "", acquiredAt := 0, expiresAt := 0,
                           epoch := current.epoch + 1, updatedAt := request.now, state := Released);
      Outcome(records[key := next], next, None)
  }

  /** The store object. Every method body is one critical section of the store's mutex. */
  class MemoryLeaseStore {
    var records: Records

    constructor ()
      ensures records == map[]
    {
      records := map[];
    }

    method AcquireLease(request: AcquireRequest) returns (record: LeaseRecord, error: Option<LeaseError>)
      modifies this
      ensures Outcome(records, record, error) == Acquire(old(records), request)
    {
      var key := LeaseKey(request.scope);
      var current := ZERO_RECORD.(scope := request.scope, state := NoLease);
      if key in records {
        current := records[key];
      }
      if current.state == Held && current.expiresAt <= request.now {
        current := current.(state := Expired);
      }
      if request.expectedEpoch.Some? && request.expectedEpoch.value != current.epoch {
        return current, Some(Conflict);
      }
      if current.state == Held && current.holder != request.clientID && !request.force {
        return current, Some(Conflict);
      }
      if current.state == Held && current.holder == request.clientID && !request.force {
        return current, None;
      }
      var next := LeaseRecord(request.scope, request.leaseID, request.clientID, current.epoch + 1,
                              request.now, request.now + request.ttl, request.now, Held);
      records := records[key := next];
      return next, None;
    }

    method RenewLease(request: MutationRequest) returns (record: LeaseRecord, error: Option<LeaseError>)
      modifies this
      ensures Outcome(records, record, error) == Renew(old(records), request)
    {
      var key := LeaseKey(request.scope);
      var current := Stored(records, key);
      if current.state != Held || current.leaseID != request.leaseID || current.holder != request.clientID || current.epoch != request.epoch {
        return current, Some(Conflict);
      }
      if current.expiresAt <= request.now {
        current := current.(state := Expired);
        return current, Some(LeaseExpired);
      }
      current := current.(expiresAt := request.now + request.ttl);
      current := current.(updatedAt := request.now);
      records := records[key := current];
      return current, None;
    }

    method ReleaseLease(request: MutationRequest) returns (record: LeaseRecord, error: Option<LeaseError>)
      modifies this
      ensures Outcome(records, record, error) == Release(old(records), request)
    {
      var key := LeaseKey(request.scope);
      var current := Stored(records, key);
      if current.state != Held || current.leaseID != request.leaseID || current.holder != request.clientID || current.epoch != request.epoch {
        return current, Some(Conflict);
      }
      current := current.(leaseID := "", holder := "");
      current := current.(acquiredAt := 0, expiresAt := 0);
      current := current.(epoch := current.epoch + 1);
      current := current.(updatedAt := request.now);
      current := current.(state := Released);
      records := records[key := current];
      return current, None;
    }

    method Lease(scope: LeaseScope, now: int) returns (record: LeaseRecord)
      ensures record == Lookup(records, scope, now)
    {
      var key := LeaseKey(scope);
      if key !in records {
        return ZERO_RECORD.(scope := scope, state := NoLease);
      }
      record := records[key];
      if record.state == Held && record.expiresAt <= now {
        record := record.(state := Expired);
      }
    }
  }

  // --- Keys ---------------------------------------------------------------

  /** A NUL-free prefix before the first separator is determined by the whole string. */
  lemma {:induction false} SeparatorSplits(x: string, xs: string, y: string, ys: string)
    requires '\0' !in x && '\0' !in y
    requires x + ['\0'] + xs == y + ['\0'] + ys
    ensures x == y && xs == ys
  {
    var s := x + ['\0'] + xs;
    assert s[|x|] == '\0' && s[|y|] == '\0';
    assert |x| >= |y| && |y| >= |x|;
    assert x == s[..|x|] && y == s[..|y|];
    assert xs == s[|x| + 1..] && ys == s[|y| + 1..];
  }

  /** Scopes never share a key; only their thread IDs may contain NUL. */
  lemma LeaseKeyInjective(a: LeaseScope, b: LeaseScope)
    requires Separable(a) && Separable(b) && LeaseKey(a) == LeaseKey(b)
    ensures a == b
  {
    var aw, bw := a.workspaceID + ['\0'] + a.threadID, b.workspaceID + ['\0'] + b.threadID;
    var an, bn := a.nodeID + ['\0'] + aw, b.nodeID + ['\0'] + bw;
    assert LeaseKey(a).text == a.ownerID + ['\0'] + an;
    assert LeaseKey(b).text == b.ownerID + ['\0'] + bn;
    SeparatorSplits(a.ownerID, an, b.ownerID, bn);
    SeparatorSplits(a.nodeID, aw, b.nodeID, bw);
    SeparatorSplits(a.workspaceID, a.threadID, b.workspaceID, b.threadID);
  }

  function Nuls(text: string): nat {
    if text == [] then 0 else (if text[0] == '\0' then 1 else 0) + Nuls(text[1..])
  }

  lemma {:induction false} NulsAdd(x: string, y: string)
    ensures Nuls(x + y) == Nuls(x) + Nuls(y)
    decreases |x|
  {
    if x == [] {
      assert x + y == y;
    } else {
      assert (x + y)[1..] == x[1..] + y;
      NulsAdd(x[1..], y);
    }
  }

  /** Any text with a NUL splits around its first one. */
  lemma {:induction false} FirstNul(text: string) returns (front: string, back: string)
    requires Nuls(text) > 0
    ensures text == front + ['\0'] + back && '\0' !in front && Nuls(back) == Nuls(text) - 1
    decreases |text|
  {
    if text[0] == '\0' {
      return [], text[1..];
    }
    var f, b := FirstNul(text[1..]);
    front, back := [text[0]] + f, b;
  }

  lemma KeyHasThreeNuls(a: LeaseScope)
    ensures Nuls(LeaseKey(a).text) >= 3
  {
    NulsAdd(a.ownerID, ['\0']);
    NulsAdd(a.ownerID + ['\0'], a.nodeID);
    NulsAdd(a.ownerID + ['\0'] + a.nodeID, ['\0']);
    NulsAdd(a.ownerID + ['\0'] + a.nodeID + ['\0'], a.workspaceID);
    NulsAdd(a.ownerID + ['\0'] + a.nodeID + ['\0'] + a.workspaceID, ['\0']);
    NulsAdd(a.ownerID + ['\0'] + a.nodeID + ['\0'] + a.workspaceID + ['\0'], a.threadID);
    assert Nuls(['\0']) == 1;
  }

  /** The condition is exact: a NUL in the owner, node or workspace ID gives some other
      scope the same key, and even one without such a NUL. */
  lemma LeaseKeyCollides(a: LeaseScope) returns (b: LeaseScope)
    requires !Separable(a)
    ensures Separable(b) && b != a && LeaseKey(b) == LeaseKey(a)
  {
    KeyHasThreeNuls(a);
    var owner, r1 := FirstNul(LeaseKey(a).text);
    var node, r2 := FirstNul(r1);
    var workspace, thread := FirstNul(r2);
    b := LeaseScope(owner, node, workspace, thread);
    assert r1 == node + ['\0'] + (workspace + ['\0'] + thread);
    assert LeaseKey(b).text == owner + ['\0'] + r1;
  }

  /** For example, two scopes of one owner that differ in their node and workspace. */
  lemma LeaseKeyNeedsSeparable(ownerID: string, threadID: string)
    ensures LeaseKey(LeaseScope(ownerID, "a\0b", "c", threadID)) == LeaseKey(LeaseScope(ownerID, "a", "b\0c", threadID))
  {
    var x, y := ownerID + ['\0'], ['\0'] + threadID;
    assert LeaseKey(LeaseScope(ownerID, "a\0b", "c", threadID)).text == x + "a\0b\0c" + y;
    assert LeaseKey(LeaseScope(ownerID, "a", "b\0c", threadID)).text == x + "a\0b\0c" + y;
  }

  // --- Who gets a lease, and for how long ------------------------------------

  /** Acquiring succeeds exactly when the epoch is the expected one (if one is given) and
      nobody else holds the lease unexpired (unless forced); then the client holds it from
      `now` on, under a new epoch unless it held it before, and otherwise nothing changes. */
  lemma AcquireGrants(records: Records, request: AcquireRequest)
    requires request.ttl > 0
    ensures var o, seen := Acquire(records, request), Lookup(records, request.scope, request.now);
      && (o.error.None? <==>
            (request.expectedEpoch.Some? ==> request.expectedEpoch.value == EpochOf(records, LeaseKey(request.scope)))
            && (request.force || seen.state != Held || seen.holder == request.clientID))
      && (o.error.Some? ==> o.records == records)
      && (o.error.None? ==>
            && Lookup(o.records, request.scope, request.now) == o.record && o.record.state == Held && o.record.holder == request.clientID
            && (o.record == seen || o.record.epoch == EpochOf(records, LeaseKey(request.scope)) + 1))
  {
  }

  /** A renewed lease is held until `now + ttl` and no longer; a released one is not held again. */
  lemma RenewExtendsReleaseEnds(records: Records, request: MutationRequest, later: int)
    requires request.now <= later
    ensures var o := Renew(records, request);
      o.error.None? ==> (Lookup(o.records, request.scope, later).state == Held <==> later < request.now + request.ttl)
    ensures var o := Release(records, request);
      o.error.None? ==> Lookup(o.records, request.scope, later).state == Released && EpochOf(o.records, LeaseKey(request.scope)) == request.epoch + 1
    ensures Renew(records, request).error.None? ==> Release(records, request).error.None? && request.now < Stored(records, LeaseKey(request.scope)).expiresAt
  {
  }

  // --- What one store operation does to one key ----------------------------

  /** The three ways an operation may change a key's record. A record with an
      unchanged epoch keeps its lease, its holder and, unless it was renewed while
      unexpired, its expiry. */
  ghost predicate Evolves(before: Records, after: Records, key: Key, now: int) {
    || (key in before && key in after && before[key] == after[key])
    || (key !in before && key !in after)
    || (key in after && EpochOf(after, key) == EpochOf(before, key) + 1)
    || (key in before && key in after && before[key].state == Held && before[key].expiresAt > now
        && after[key] == before[key].(expiresAt := after[key].expiresAt, updatedAt := now))
  }

  lemma OperationsEvolve(records: Records, acquire: AcquireRequest, change: MutationRequest, key: Key)
    ensures Evolves(records, Acquire(records, acquire).records, key, acquire.now)
    ensures Evolves(records, Renew(records, change).records, key, change.now)
    ensures Evolves(records, Release(records, change).records, key, change.now)
  {
  }

  /** Operations on one scope leave every other scope's record as it was. */
  lemma OtherScopesUntouched(records: Records, acquire: AcquireRequest, change: MutationRequest, other: LeaseScope)
    requires Separable(acquire.scope) && Separable(change.scope) && Separable(other)
    requires other != acquire.scope && other != change.scope
    ensures forall now :: Lookup(Acquire(records, acquire).records, other, now) == Lookup(records, other, now)
    ensures forall now :: Lookup(Renew(records, change).records, other, now) == Lookup(records, other, now)
    ensures forall now :: Lookup(Release(records, change).records, other, now) == Lookup(records, other, now)
  {
    if LeaseKey(other) == LeaseKey(acquire.scope) { LeaseKeyInjective(other, acquire.scope); }
    if LeaseKey(other) == LeaseKey(change.scope) { LeaseKeyInjective(other, change.scope); }
  }
}
