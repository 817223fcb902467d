/** What each lease operation and each routed frame comes to, in the terms of the frame as it
    came in and of the stored record (internal/server/lease_hub.go, the route loop of
    internal/server/hub.go). */
module LeaseOperations {
  import opened Prelude
  import opened LeaseStore
  import opened LeaseRouting

  // --- What a frame says -------------------------------------------------------------

  /** The fields name a lease: a non-empty ID and a whole epoch from 1 to 2^53 - 1. */
  ghost predicate Names(fields: map<string, Json>, leaseID: string, epoch: int) {
    && "leaseId" in fields && fields["leaseId"] == JString(leaseID) && leaseID != ""
    && "epoch" in fields && fields["epoch"] == JNumber(epoch as real) && 1 <= epoch <= 9007199254740991
  }

  lemma NamedExactly(fields: map<string, Json>, leaseID: string, epoch: int)
    ensures LeaseMutationPayload(fields) == Some(Proof(leaseID, epoch)) <==> Names(fields, leaseID, epoch)
  {
    if Names(fields, leaseID, epoch) {
      assert JsonNumber(fields["epoch"]) == Some(epoch);
    }
  }

  /** The frame names all four parts of the scope. */
  ghost predicate Targets(frame: Envelope, scope: LeaseScope) {
    && frame.ownerID == scope.ownerID != "" && frame.nodeID == scope.nodeID != ""
    && frame.workspaceID == Some(scope.workspaceID) && scope.workspaceID != ""
    && frame.taskID == Some(scope.threadID) && scope.threadID != ""
  }

  lemma TargetedExactly(frame: Envelope, scope: LeaseScope)
    ensures Read(frame).scope == Some(scope) <==> Targets(frame, scope)
  {
  }

  // --- Lease control -------------------------------------------------------------------

  /** The record is a held lease of this client, under this ID and epoch. */
  ghost predicate Belongs(records: Records, key: Key, client: string, leaseID: string, epoch: int) {
    key in records && records[key].state == Held && records[key].holder == client && records[key].leaseID == leaseID && records[key].epoch == epoch
  }

  /** A release by the holder leaves the record released, without lease, holder and times, one
      epoch later, and is confirmed; also after the expiry. Any other release is a conflict
      and changes nothing. */
  lemma ReleaseFrame(records: Records, source: Connection, frame: Envelope, scope: LeaseScope, now: int, random: Option<string>, leaseID: string, epoch: int)
    requires frame.kind == ControlKind.LeaseRelease && Names(frame.payload, leaseID, epoch)
    ensures var key := LeaseKey(scope);
      var (after, reply) := HandleLease(records, source, Read(frame), scope, now, random);
      if Belongs(records, key, source.subjectID, leaseID, epoch) then
        var released := LeaseRecord(records[key].scope, "", "", epoch + 1, 0, 0, now, Released);
        after == records[key := released] && reply == Confirmed(released)
      else after == records && reply == Rejected(ConflictCode)
  {
    NamedExactly(frame.payload, leaseID, epoch);
  }

  /** A renewal by the holder of an unexpired lease moves its expiry to a minute from now and
      nothing else but the update time; an expired one stays stored as it is. */
  lemma RenewFrame(records: Records, source: Connection, frame: Envelope, scope: LeaseScope, now: int, random: Option<string>, leaseID: string, epoch: int)
    requires frame.kind == ControlKind.LeaseRenew && Names(frame.payload, leaseID, epoch)
    ensures var key := LeaseKey(scope);
      var (after, reply) := HandleLease(records, source, Read(frame), scope, now, random);
      if !Belongs(records, key, source.subjectID, leaseID, epoch) then after == records && reply == Rejected(ConflictCode)
      else if records[key].expiresAt <= now then after == records && reply == Rejected(ExpiredCode)
      else
        var renewed := records[key].(expiresAt := now + 60_000_000_000, updatedAt := now);
        after == records[key := renewed] && reply == Confirmed(renewed)
  {
    NamedExactly(frame.payload, leaseID, epoch);
  }

  /** A renewal or release that names no lease is invalid and changes nothing. */
  lemma UnreadableChange(records: Records, source: Connection, frame: Envelope, scope: LeaseScope, now: int, random: Option<string>)
    requires frame.kind == ControlKind.LeaseRenew || frame.kind == ControlKind.LeaseRelease
    requires forall leaseID, epoch :: !Names(frame.payload, leaseID, epoch)
    ensures HandleLease(records, source, Read(frame), scope, now, random) == (records, Rejected(InvalidMessage))
  {
    var change := LeaseMutationPayload(frame.payload);
    if change.Some? { NamedExactly(frame.payload, change.value.leaseID, change.value.epoch); }
  }

  /** Whether the payload forces the takeover, if its `force` is a boolean or absent. */
  ghost predicate Forces(payload: map<string, Json>, force: bool) {
    if "force" in payload then payload["force"] == JBool(force) else !force
  }

  /** The epoch the payload expects, if any: a whole number from 0 to 2^53 - 1. */
  ghost predicate Expects(payload: map<string, Json>, expected: Option<int>) {
    if "expectedEpoch" in payload
    then expected.Some? && payload["expectedEpoch"] == JNumber(expected.value as real) && 0 <= expected.value <= 9007199254740991
    else expected.None?
  }

  lemma AcquirePayloadExactly(payload: map<string, Json>, force: bool, expected: Option<int>)
    ensures LeaseAcquirePayload(payload) == Some((force, expected)) <==> Forces(payload, force) && Expects(payload, expected)
  {
    if Forces(payload, force) && Expects(payload, expected) && expected.Some? {
      assert JsonNumber(payload["expectedEpoch"]) == expected;
    }
  }

  /** Somebody holds the lease unexpired. */
  ghost predicate HeldBy(records: Records, key: Key, now: int, client: string) {
    key in records && records[key].state == Held && now < records[key].expiresAt && records[key].holder == client
  }

  /** An acquire with another epoch than the expected one, or of a lease that another client
      holds unexpired, is a conflict unless that takeover is forced. The holder itself gets its
      lease back as it is, unless it forces a new one. Everything else makes the sender the
      holder for a minute under the next epoch; a failing random source leaves all as it is. */
  lemma AcquireFrame(records: Records, source: Connection, frame: Envelope, scope: LeaseScope, now: int, random: Option<string>, force: bool, expected: Option<int>)
    requires frame.kind == ControlKind.LeaseAcquire && Forces(frame.payload, force) && Expects(frame.payload, expected)
    ensures var key := LeaseKey(scope);
      var epoch := if key in records then records[key].epoch else 0;
      var (after, reply) := HandleLease(records, source, Read(frame), scope, now, random);
      if random.None? then after == records && reply == NoReply
      else if expected.Some? && expected.value != epoch then after == records && reply == Rejected(ConflictCode)
      else if !force && HeldBy(records, key, now, source.subjectID) then after == records && reply == Confirmed(records[key])
      else if !force && key in records && HeldBy(records, key, now, records[key].holder) then after == records && reply == Rejected(ConflictCode)
      else
        var granted := LeaseRecord(scope, random.value, source.subjectID, epoch + 1, now, now + 60_000_000_000, now, Held);
        after == records[key := granted] && reply == Confirmed(granted)
  {
    AcquirePayloadExactly(frame.payload, force, expected);
  }

  lemma UnreadableAcquire(records: Records, source: Connection, frame: Envelope, scope: LeaseScope, now: int, random: Option<string>)
    requires frame.kind == ControlKind.LeaseAcquire
    requires forall force, expected :: !(Forces(frame.payload, force) && Expects(frame.payload, expected))
    ensures HandleLease(records, source, Read(frame), scope, now, random) == (records, Rejected(InvalidMessage))
  {
    var parsed := LeaseAcquirePayload(frame.payload);
    if parsed.Some? { AcquirePayloadExactly(frame.payload, parsed.value.0, parsed.value.1); }
  }

  /** A status request changes nothing and shows the record, as expired if its time is over. */
  lemma StatusFrame(records: Records, source: Connection, frame: Envelope, scope: LeaseScope, now: int, random: Option<string>)
    requires frame.kind == ControlKind.LeaseStatus
    ensures var key := LeaseKey(scope);
      var (after, reply) := HandleLease(records, source, Read(frame), scope, now, random);
      && after == records && reply.Confirmed?
      && if key !in records then reply.record == LeaseRecord(scope, "", "", 0, 0, 0, 0, NoLease)
         else if records[key].state == Held && records[key].expiresAt <= now then reply.record == records[key].(state := Expired)
         else reply.record == records[key]
  {
  }

  // --- Routing -----------------------------------------------------------------------------

  /** Nobody is past the scope's lock. */
  ghost predicate Unlocked(s: State, key: Key) {
    && (forall l :: l in s.owners ==> l < s.nextLock)
    && (key in s.locks ==> s.locks[key] !in s.owners)
  }

  /** The connection is between frames, and the frame is its owner's. */
  ghost predicate Receives(s: State, c: Connection, frame: Envelope) {
    (c in s.phases ==> s.phases[c] == Idle) && frame.ownerID == c.ownerID
  }

  /** The sender holds the scope's lease unexpired, and the payload's `lease` names it. */
  ghost predicate Licenses(records: Records, key: Key, now: int, c: Connection, frame: Envelope) {
    && HeldBy(records, key, now, c.subjectID)
    && "lease" in frame.payload && frame.payload["lease"].JObject?
    && Names(frame.payload["lease"].fields, records[key].leaseID, records[key].epoch)
  }

  lemma AdmittedExactly(records: Records, key: Key, now: int, c: Connection, frame: Envelope)
    requires key in records
    ensures Admits(records[key], c, Read(frame), now) <==> Licenses(records, key, now, c, frame)
  {
    if "lease" in frame.payload && frame.payload["lease"].JObject? {
      NamedExactly(frame.payload["lease"].fields, records[key].leaseID, records[key].epoch);
    }
  }

  /** The connection has the lock of its frame's scope, and nothing else is different. */
  ghost predicate HasLock(s: State, inside: State, c: Connection, m: Control, key: Key) {
    && c in inside.phases && inside.phases[c].Inside? && inside.phases[c].m == m && inside.phases[c].key == key
    && inside.phases == s.phases[c := inside.phases[c]]
    && inside.phases[c].lock !in s.owners && inside.owners == s.owners[inside.phases[c].lock := c]
    && inside.records == s.records && inside.turns == s.turns && inside.clock == s.clock && inside.sent == s.sent
  }

  lemma EnterLock(s: State, c: Connection, m: Control, key: Key)
    requires Unlocked(s, key)
    ensures HasLock(s, LockStep(Enqueue(s, c, m, key), c), c, m, key)
  {
  }

  /** The connection is about to free its lock and go on to the next frame. */
  lemma FreeLock(s: State, inside: State, leaving: State, c: Connection, m: Control, key: Key)
    requires HasLock(s, inside, c, m, key)
    requires leaving.owners == inside.owners && leaving.phases == inside.phases[c := Leaving(key, inside.phases[c].lock)]
    ensures var t := UnlockStep(leaving, c);
      t.owners == s.owners && t.phases == s.phases[c := Idle] && t.records == leaving.records && t.sent == leaving.sent
  {
    assert s.owners[inside.phases[c].lock := c] - {inside.phases[c].lock} == s.owners;
  }

  lemma CheckInside(s: State, inside: State, c: Connection, frame: Envelope, key: Key)
    requires LeaseRequired(frame.kind) && HasLock(s, inside, c, Read(frame), key)
    ensures var t := CheckStep(inside, c);
      && t == inside.(phases := t.phases)
      && t.phases == inside.phases[c :=
           if Licenses(s.records, key, s.clock, c, frame)
           then Cleared(Read(frame), key, inside.phases[c].lock, s.records[key], s.clock, TurnOf(inside.turns, key))
           else Leaving(key, inside.phases[c].lock)]
  {
    if key in s.records { AdmittedExactly(s.records, key, s.clock, c, frame); }
  }

  lemma SendCleared(s: State, c: Connection)
    requires c in s.phases && (s.phases[c].Cleared? || s.phases[c].Leaving?)
    ensures var p, t := s.phases[c], SendStep(s, c, true);
      && t == s.(phases := s.phases[c := Leaving(p.key, p.lock)], sent := t.sent)
      && if p.Cleared? then |t.sent| == |s.sent| + 1 && s.sent == t.sent[..|s.sent|] && t.sent[|s.sent|].source == c && t.sent[|s.sent|].m == p.m
         else t.sent == s.sent
  {
  }

  /** The check and the send inside the lock. */
  lemma CheckAndSend(s: State, inside: State, c: Connection, frame: Envelope, key: Key)
    requires LeaseRequired(frame.kind) && HasLock(s, inside, c, Read(frame), key)
    ensures var t := SendStep(CheckStep(inside, c), c, true);
      && t.records == s.records && t.owners == inside.owners && t.phases == inside.phases[c := Leaving(key, inside.phases[c].lock)]
      && if Licenses(s.records, key, s.clock, c, frame) then Delivers(s.sent, t.sent, c, frame) else t.sent == s.sent
  {
    CheckInside(s, inside, c, frame, key);
    SendCleared(CheckStep(inside, c), c);
  }

  /** One more frame was sent: this one. */
  ghost predicate Delivers(before: seq<Sent>, after: seq<Sent>, c: Connection, frame: Envelope) {
    |after| == |before| + 1 && before == after[..|before|] && after[|before|].source == c && after[|before|].m == Read(frame)
  }

  lemma BeginMutating(s: State, c: Connection, frame: Envelope, scope: LeaseScope)
    requires LeaseRequired(frame.kind) && Targets(frame, scope) && Receives(s, c, frame)
    ensures Step(s, Begin(c, frame, true)) == Enqueue(s, c, Read(frame), LeaseKey(scope))
  {
    TargetedExactly(frame, scope);
  }

  /** A frame of one of the nine mutating types, on a scope nobody is working on: it reaches
      the node exactly if its scope's record is held, unexpired, the sender's, and named by
      the `lease` of its payload; the records stay as they are and the lock is free again. */
  lemma MutatingFrame(s: State, c: Connection, frame: Envelope, scope: LeaseScope)
    requires var kind := frame.kind;
      kind.TurnStart? || kind.TurnSteer? || kind.TurnInterrupt? || kind.ApprovalResolve? || kind.TaskResume?
      || kind.RunStart? || kind.RunSteer? || kind.RunInterrupt? || kind.InteractionResolve?
    requires Targets(frame, scope) && Receives(s, c, frame) && Unlocked(s, LeaseKey(scope))
    ensures var t := Step(Step(Step(Step(Step(s, Begin(c, frame, true)), Lock(c)), Check(c)), Send(c, true)), Unlock(c));
      && t.records == s.records && t.owners == s.owners && t.phases == s.phases[c := Idle]
      && if Licenses(s.records, LeaseKey(scope), s.clock, c, frame) then Delivers(s.sent, t.sent, c, frame) else t.sent == s.sent
  {
    var key := LeaseKey(scope);
    BeginMutating(s, c, frame, scope);
    EnterLock(s, c, Read(frame), key);
    var inside := LockStep(Enqueue(s, c, Read(frame), key), c);
    CheckAndSend(s, inside, c, frame, key);
    FreeLock(s, inside, SendStep(CheckStep(inside, c), c, true), c, Read(frame), key);
  }

  /** Such a frame goes nowhere if it does not name its scope completely, if its node is not
      online, or if it is not its owner's. */
  lemma MutatingFrameRefused(s: State, c: Connection, frame: Envelope, online: bool)
    requires var kind := frame.kind;
      kind.TurnStart? || kind.TurnSteer? || kind.TurnInterrupt? || kind.ApprovalResolve? || kind.TaskResume?
      || kind.RunStart? || kind.RunSteer? || kind.RunInterrupt? || kind.InteractionResolve?
    requires frame.ownerID != c.ownerID || !online || forall scope :: !Targets(frame, scope)
    ensures Step(s, Begin(c, frame, online)) == s
  {
    var scope := Read(frame).scope;
    if scope.Some? { TargetedExactly(frame, scope.value); }
  }

  /** Every other frame that the server does not handle itself goes straight to its node, if
      that is online, without a lock or a lease. */
  lemma PlainFrame(s: State, c: Connection, frame: Envelope, online: bool)
    requires var kind := frame.kind;
      !(kind.TurnStart? || kind.TurnSteer? || kind.TurnInterrupt? || kind.ApprovalResolve? || kind.TaskResume?
        || kind.RunStart? || kind.RunSteer? || kind.RunInterrupt? || kind.InteractionResolve?
        || kind.LeaseAcquire? || kind.LeaseRenew? || kind.LeaseRelease? || kind.LeaseStatus?
        || kind.NotificationsList? || kind.NotificationsRead?)
    requires Receives(s, c, frame)
    ensures Step(s, Begin(c, frame, online)) == if online then s.(sent := s.sent + [Sent(c, Read(frame), None)]) else s
  {
  }

  lemma BeginLease(s: State, c: Connection, frame: Envelope, scope: LeaseScope, online: bool)
    requires LeaseControl(frame.kind) && Targets(frame, scope) && Receives(s, c, frame)
    ensures Step(s, Begin(c, frame, online)) == Enqueue(s, c, Read(frame), LeaseKey(scope))
  {
    TargetedExactly(frame, scope);
  }

  lemma OperateInside(s: State, inside: State, c: Connection, frame: Envelope, scope: LeaseScope, random: Option<string>)
    requires LeaseControl(frame.kind) && Targets(frame, scope) && HasLock(s, inside, c, Read(frame), LeaseKey(scope))
    ensures var t := OperateStep(inside, c, random);
      && t.records == HandleLease(s.records, c, Read(frame), scope, s.clock, random).0
      && t.turns == s.turns[LeaseKey(scope) := TurnOf(s.turns, LeaseKey(scope)) + 1]
      && t.owners == inside.owners && t.sent == s.sent && t.phases == inside.phases[c := Leaving(LeaseKey(scope), inside.phases[c].lock)]
  {
    TargetedExactly(frame, scope);
  }

  /** A lease message reaches no node, online or not. On a scope nobody is working on it is
      handled under the lock as the lemmas above say, and counted as an operation on its
      scope; the lock is free again. */
  lemma LeaseFrame(s: State, c: Connection, frame: Envelope, scope: LeaseScope, online: bool, random: Option<string>)
    requires var kind := frame.kind; kind.LeaseAcquire? || kind.LeaseRenew? || kind.LeaseRelease? || kind.LeaseStatus?
    requires Targets(frame, scope) && Receives(s, c, frame) && Unlocked(s, LeaseKey(scope))
    ensures var t := Step(Step(Step(Step(s, Begin(c, frame, online)), Lock(c)), Operate(c, random)), Unlock(c));
      && t.records == HandleLease(s.records, c, Read(frame), scope, s.clock, random).0
      && t.turns == s.turns[LeaseKey(scope) := TurnOf(s.turns, LeaseKey(scope)) + 1]
      && t.owners == s.owners && t.phases == s.phases[c := Idle] && t.sent == s.sent
  {
    var key, m := LeaseKey(scope), Read(frame);
    BeginLease(s, c, frame, scope, online);
    EnterLock(s, c, m, key);
    var inside := LockStep(Enqueue(s, c, m, key), c);
    OperateInside(s, inside, c, frame, scope, random);
    FreeLock(s, inside, OperateStep(inside, c, random), c, m, key);
    UnlockKeepsTurns(OperateStep(inside, c, random), c);
  }

  lemma UnlockKeepsTurns(s: State, c: Connection)
    ensures UnlockStep(s, c).turns == s.turns
  {
  }

  /** Notification messages, and lease messages without a complete scope, change nothing here. */
  lemma OtherServerFrame(s: State, c: Connection, frame: Envelope, online: bool)
    requires var kind := frame.kind;
      kind.NotificationsList? || kind.NotificationsRead?
      || ((kind.LeaseAcquire? || kind.LeaseRenew? || kind.LeaseRelease? || kind.LeaseStatus?) && forall scope :: !Targets(frame, scope))
    ensures Step(s, Begin(c, frame, online)) == s
  {
    var scope := Read(frame).scope;
    if scope.Some? { TargetedExactly(frame, scope.value); }
  }

  /** Over every run, in the terms of the wire: a frame of the nine types that reached its node
      names a complete scope, and its payload's `lease` is exactly the lease and epoch of the
      record it was checked against. */
  lemma ForwardedPayloadNamesLease(es: seq<Event>, i: nat, frame: Envelope)
    requires i < |Run(INIT, es).sent| && Run(INIT, es).sent[i].m == Read(frame)
    requires var kind := frame.kind;
      kind.TurnStart? || kind.TurnSteer? || kind.TurnInterrupt? || kind.ApprovalResolve? || kind.TaskResume?
      || kind.RunStart? || kind.RunSteer? || kind.RunInterrupt? || kind.InteractionResolve?
    ensures var x := Run(INIT, es).sent[i];
      && x.evidence.Some? && frame.workspaceID.Some? && frame.taskID.Some?
      && var scope := LeaseScope(frame.ownerID, frame.nodeID, frame.workspaceID.value, frame.taskID.value);
         && Targets(frame, scope) && x.evidence.value.key == LeaseKey(scope)
         && "lease" in frame.payload && frame.payload["lease"].JObject?
         && Names(frame.payload["lease"].fields, x.evidence.value.record.leaseID, x.evidence.value.record.epoch)
  {
    ForwardedFramesWereFenced(es, i);
    var x := Run(INIT, es).sent[i];
    TargetedExactly(frame, x.m.scope.value);
    if "lease" in frame.payload && frame.payload["lease"].JObject? {
      NamedExactly(frame.payload["lease"].fields, x.evidence.value.record.leaseID, x.evidence.value.record.epoch);
    }
  }
}
