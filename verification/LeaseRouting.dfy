/** Control connections routed under per-scope locks and lease checks
    (internal/server/lease_hub.go and the route loop of internal/server/hub.go).

    Each mutex-protected section is one event; a run is any list of events, so every
    interleaving of any number of connections is covered. An event whose guard does
    not hold leaves the state as it is. */
module LeaseRouting {
  import opened Prelude
  import opened LeaseStore

  // --- Frames -------------------------------------------------------------

  datatype Connection = Connection(id: nat, ownerID: string, subjectID: string)

  /** The control types the hub tells apart; every other type is `Other`. */
  datatype ControlKind =
    | TurnStart | TurnSteer | TurnInterrupt | ApprovalResolve
    | TaskResume | RunStart | RunSteer | RunInterrupt | InteractionResolve
    | LeaseAcquire | LeaseRenew | LeaseRelease | LeaseStatus
    | NotificationsList | NotificationsRead
    | Other(name: string)

  /** The lease a payload names. */
  datatype Proof = Proof(leaseID: string, epoch: int)

  /** A control frame as the hub reads it: its scope, if it names a complete one, and
      what its payload says as an acquire, as a renew or release, and as a proof. */
  datatype Control = Control(
    kind: ControlKind, ownerID: string, nodeID: string, scope: Option<LeaseScope>,
    acquire: Option<(bool, Option<int>)>, change: Option<Proof>, proof: Option<Proof>)

  predicate LeaseRequired(kind: ControlKind) {
    kind.TurnStart? || kind.TurnSteer? || kind.TurnInterrupt? || kind.ApprovalResolve? || kind.TaskResume?
    || kind.RunStart? || kind.RunSteer? || kind.RunInterrupt? || kind.InteractionResolve?
  }

  predicate LeaseControl(kind: ControlKind) {
    kind.LeaseAcquire? || kind.LeaseRenew? || kind.LeaseRelease? || kind.LeaseStatus?
  }

  predicate ServerControl(kind: ControlKind) {
    LeaseControl(kind) || kind.NotificationsList? || kind.NotificationsRead?
  }

  /** The routed envelope before the hub reads it. */
  datatype Envelope = Envelope(
    kind: ControlKind, ownerID: string, nodeID: string,
    workspaceID: Option<string>, taskID: Option<string>, payload: map<string, Json>)

  function MessageLeaseScope(m: Envelope): Option<LeaseScope> {
    if m.workspaceID.None? || m.taskID.None? || m.workspaceID.value == "" || m.taskID.value == "" || m.ownerID == "" || m.nodeID == "" then None
    else Some(LeaseScope(m.ownerID, m.nodeID, m.workspaceID.value, m.taskID.value))
  }

  const MAX_SAFE_INTEGER: real := 9007199254740991.0

  function Field(fields: map<string, Json>, name: string): Json {
    if name in fields then fields[name] else JNull
  }

  /** Accepts exactly the integral numbers a float64 represents exactly. */
  function JsonNumber(value: Json): (r: Option<int>)
    ensures r.Some? <==> value.JNumber? && 0.0 <= value.number <= MAX_SAFE_INTEGER && value.number == value.number.Floor as real
    ensures r.Some? ==> value == JNumber(r.value as real) && 0 <= r.value <= 9007199254740991
  {
    if !value.JNumber? || value.number < 0.0 || value.number > MAX_SAFE_INTEGER || value.number != value.number.Floor as real then None
    else Some(value.number.Floor)
  }

  function LeaseMutationPayload(fields: map<string, Json>): (r: Option<Proof>)
    ensures r.Some? ==> r.value.leaseID != "" && 1 <= r.value.epoch <= 9007199254740991
  {
    var leaseID := Field(fields, "leaseId");
    if !leaseID.JString? || leaseID.text == "" then None
    else
      var epoch := JsonNumber(Field(fields, "epoch"));
      if epoch.None? || epoch.value < 1 then None else Some(Proof(leaseID.text, epoch.value))
  }

  function LeaseProof(payload: map<string, Json>): Option<Proof> {
    var lease := Field(payload, "lease");
    if lease.JObject? then LeaseMutationPayload(lease.fields) else None
  }

  function LeaseAcquirePayload(payload: map<string, Json>): Option<(bool, Option<int>)> {
    if "force" in payload && !payload["force"].JBool? then None
    else
      var force := "force" in payload && payload["force"].flag;
      if "expectedEpoch" !in payload then Some((force, None))
      else
        var epoch := JsonNumber(payload["expectedEpoch"]);
        if epoch.None? then None else Some((force, epoch))
  }

  function Read(m: Envelope): Control {
    Control(m.kind, m.ownerID, m.nodeID, MessageLeaseScope(m),
            LeaseAcquirePayload(m.payload), LeaseMutationPayload(m.payload), LeaseProof(m.payload))
  }

  /** `checkLease`: the proof in the frame names the held, unexpired lease of the sender. */
  predicate Admits(record: LeaseRecord, source: Connection, m: Control, now: int) {
    && m.proof.Some? && Aged(record, now).state == Held && record.holder == source.subjectID
    && record.leaseID == m.proof.value.leaseID && record.epoch == m.proof.value.epoch
  }

  // --- The hub's lease operations ------------------------------------------

  /** `NoReply`: the random source failed, and the connection ends without an answer. */
  datatype Reply = Rejected(code: Code) | Confirmed(record: LeaseRecord) | NoReply
  datatype Code = InvalidMessage | ConflictCode | ExpiredCode

  function ReplyTo(outcome: Outcome): Reply {
    match outcome.error
    case None => Confirmed(outcome.record)
    case Some(Conflict) => Rejected(ConflictCode)
    case Some(LeaseExpired) => Rejected(ExpiredCode)
  }

  /** The locked body of `handleServerControl` for a lease message. Only an acquire with a
      readable payload draws a random lease ID. */
  function HandleLease(records: Records, source: Connection, m: Control, scope: LeaseScope, now: int, random: Option<string>): (Records, Reply) {
    if m.kind.LeaseAcquire? then
      var parsed := m.acquire;
      if parsed.None? then (records, Rejected(InvalidMessage))
      else if random.None? then (records, NoReply)
      else
        var o := Acquire(records, AcquireRequest(scope, source.subjectID, random.value, parsed.value.0, parsed.value.1, now, DEFAULT_LEASE_TTL));
        (o.records, ReplyTo(o))
    else if m.kind.LeaseRenew? || m.kind.LeaseRelease? then
      var parsed := m.change;
      if parsed.None? then (records, Rejected(InvalidMessage))
      else
        var request := MutationRequest(scope, source.subjectID, parsed.value.leaseID, parsed.value.epoch, now, DEFAULT_LEASE_TTL);
        var o := if m.kind.LeaseRenew? then Renew(records, request) else Release(records, request);
        (o.records, ReplyTo(o))
    else (records, Confirmed(Lookup(records, scope, now)))
  }

  /** A Go mutex; only its identity matters. */
  class Mutex {
    constructor () {}
  }

  /** The hub's lease side: the store and the map of per-scope mutexes. */
  class LeaseHub {
    const leases: MemoryLeaseStore
    var leaseLocks: map<Key, Mutex>

    constructor ()
      ensures leaseLocks == map[] && fresh(leases) && leases.records == map[]
    {
      leases := new MemoryLeaseStore();
      leaseLocks := map[];
    }

    /** A scope keeps the mutex it was first given, and a new scope gets a new mutex. */
    method LeaseLock(scope: LeaseScope) returns (lock: Mutex)
      modifies this
      ensures leaseLocks == old(leaseLocks)[LeaseKey(scope) := lock]
      ensures LeaseKey(scope) in old(leaseLocks) ==> lock == old(leaseLocks)[LeaseKey(scope)]
      ensures LeaseKey(scope) !in old(leaseLocks) ==> fresh(lock)
    {
      var key := LeaseKey(scope);
      if key in leaseLocks {
        lock := leaseLocks[key];
      } else {
        lock := new Mutex();
        leaseLocks := leaseLocks[key := lock];
      }
    }

    /** The body of the lock, on the frame as it came in. */
    method HandleServerControl(source: Connection, frame: Envelope, scope: LeaseScope, now: int, random: Option<string>) returns (reply: Reply)
      requires LeaseControl(frame.kind)
      modifies leases
      ensures (leases.records, reply) == HandleLease(old(leases.records), source, Read(frame), scope, now, random)
    {
      var m := Read(frame);
      var record: LeaseRecord;
      var error: Option<LeaseError> := None;
      if m.kind.LeaseAcquire? {
        var parsed := m.acquire;
        if parsed.None? { return Rejected(InvalidMessage); }
        if random.None? { return NoReply; }
        var (force, expected) := parsed.value;
        record, error := leases.AcquireLease(AcquireRequest(scope, source.subjectID, random.value, force, expected, now, DEFAULT_LEASE_TTL));
      } else if m.kind.LeaseRenew? || m.kind.LeaseRelease? {
        var parsed := m.change;
        if parsed.None? { return Rejected(InvalidMessage); }
        var request := MutationRequest(scope, source.subjectID, parsed.value.leaseID, parsed.value.epoch, now, DEFAULT_LEASE_TTL);
        if m.kind.LeaseRenew? {
          record, error := leases.RenewLease(request);
        } else {
          record, error := leases.ReleaseLease(request);
        }
      } else {
        record := leases.Lease(scope, now);
      }
      if error.Some? {
        return Rejected(if error.value == LeaseExpired then ExpiredCode else ConflictCode);
      }
      return Confirmed(record);
    }

    /** `None` is success; a failed check reports whether the lease had expired. */
    method CheckLease(source: Connection, frame: Envelope, now: int) returns (failure: Option<Code>)
      ensures var m := Read(frame); failure.None? <==>
        && m.scope.Some?
        && LeaseKey(m.scope.value) in leases.records
        && Admits(leases.records[LeaseKey(m.scope.value)], source, m, now)
      ensures var m := Read(frame); failure == Some(ExpiredCode) <==>
        && m.scope.Some? && m.proof.Some?
        && Lookup(leases.records, m.scope.value, now).state == Expired
    {
      var m := Read(frame);
      var scope := m.scope;
      if scope.None? { return Some(ConflictCode); }
      var proof := m.proof;
      if proof.None? { return Some(ConflictCode); }
      var record := leases.Lease(scope.value, now);
      if record.state != Held || record.leaseID != proof.value.leaseID || record.epoch != proof.value.epoch || record.holder != source.subjectID {
        if record.state == Expired { return Some(ExpiredCode); }
        return Some(ConflictCode);
      }
      return None;
    }
  }

  // --- The interleaved system ----------------------------------------------

  /** Where a connection's route loop stands: the frame, its scope's key, and the
      scope's mutex. Mutexes are named by numbers. */
  datatype Phase =
    | Idle
    | Waiting(m: Control, key: Key, lock: nat)
    | Inside(m: Control, key: Key, lock: nat)
    | Cleared(m: Control, key: Key, lock: nat, record: LeaseRecord, checkedAt: int, turn: nat)
    | Leaving(key: Key, lock: nat)

  /** What the hub knew when it let a frame through; `turnAtCheck` and `turnAtSend`
      count the lease operations run on the scope so far. */
  datatype Evidence = Evidence(key: Key, record: LeaseRecord, checkedAt: int, turnAtCheck: nat, turnAtSend: nat)
  datatype Sent = Sent(source: Connection, m: Control, evidence: Option<Evidence>)

  datatype State = State(
    records: Records, locks: map<Key, nat>, nextLock: nat, owners: map<nat, Connection>,
    phases: map<Connection, Phase>, turns: map<Key, nat>, clock: int, sent: seq<Sent>)

  datatype Event =
    | Tick(now: int)
    | Begin(c: Connection, frame: Envelope, online: bool)
    | Lock(c: Connection)
    | Operate(c: Connection, random: Option<string>)
    | Check(c: Connection)
    | Send(c: Connection, delivered: bool)
    | Unlock(c: Connection)

  const INIT: State := State(map[], map[], 0, map[], map[], map[], 0, [])

  function PhaseOf(s: State, c: Connection): Phase {
    if c in s.phases then s.phases[c] else Idle
  }

  function TurnOf(turns: map<Key, nat>, key: Key): nat {
    if key in turns then turns[key] else 0
  }

  /** The key of the scope a message names, if it names one. */
  function MessageKey(m: Control): Option<Key> {
    if m.scope.Some? then Some(LeaseKey(m.scope.value)) else None
  }

  /** `leaseLock`: find or create the scope's mutex, then queue for it. */
  function Enqueue(s: State, c: Connection, m: Control, key: Key): State {
    if key in s.locks then s.(phases := s.phases[c := Waiting(m, key, s.locks[key])])
    else s.(locks := s.locks[key := s.nextLock], nextLock := s.nextLock + 1, phases := s.phases[c := Waiting(m, key, s.nextLock)])
  }

  function BeginStep(s: State, c: Connection, m: Control, online: bool): State {
    var key := MessageKey(m);
    if !PhaseOf(s, c).Idle? || m.ownerID != c.ownerID then s
    else if ServerControl(m.kind) then
      if LeaseControl(m.kind) && key.Some? then Enqueue(s, c, m, key.value) else s
    else if !online then s
    else if LeaseRequired(m.kind) then
      if key.Some? then Enqueue(s, c, m, key.value) else s
    else s.(sent := s.sent + [Sent(c, m, None)])
  }

  function LockStep(s: State, c: Connection): State {
    match PhaseOf(s, c)
    case Waiting(m, key, lock) =>
      if lock in s.owners then s
      else s.(owners := s.owners[lock := c], phases := s.phases[c := Inside(m, key, lock)])
    case _ => s
  }

  /** The records after connection `c` handled lease message `m`. */
  function Handled(s: State, c: Connection, m: Control, random: Option<string>): Records {
    var scope := m.scope;
    if scope.None? then s.records else HandleLease(s.records, c, m, scope.value, s.clock, random).0
  }

  function OperateStep(s: State, c: Connection, random: Option<string>): State {
    match PhaseOf(s, c)
    case Inside(m, key, lock) =>
      if !LeaseControl(m.kind) then s
      else s.(records := Handled(s, c, m, random), turns := s.turns[key := TurnOf(s.turns, key) + 1], phases := s.phases[c := Leaving(key, lock)])
    case _ => s
  }

  function CheckStep(s: State, c: Connection): State {
    match PhaseOf(s, c)
    case Inside(m, key, lock) =>
      if !LeaseRequired(m.kind) then s
      else if key in s.records && Admits(s.records[key], c, m, s.clock) then
        s.(phases := s.phases[c := Cleared(m, key, lock, s.records[key], s.clock, TurnOf(s.turns, key))])
      else s.(phases := s.phases[c := Leaving(key, lock)])
    case _ => s
  }

  function SendStep(s: State, c: Connection, delivered: bool): State {
    match PhaseOf(s, c)
    case Cleared(m, key, lock, record, checkedAt, turn) =>
      var evidence := Evidence(key, record, checkedAt, turn, TurnOf(s.turns, key));
      s.(phases := s.phases[c := Leaving(key, lock)],
         sent := if delivered then s.sent + [Sent(c, m, Some(evidence))] else s.sent)
    case _ => s
  }

  function UnlockStep(s: State, c: Connection): State {
    match PhaseOf(s, c)
    case Leaving(key, lock) => s.(owners := Without(s.owners, lock), phases := s.phases[c := Idle])
    case _ => s
  }

  function Step(s: State, e: Event): State {
    match e
    case Tick(now) => s.(clock := now)
    case Begin(c, frame, online) => BeginStep(s, c, Read(frame), online)
    case Lock(c) => LockStep(s, c)
    case Operate(c, random) => OperateStep(s, c, random)
    case Check(c) => CheckStep(s, c)
    case Send(c, delivered) => SendStep(s, c, delivered)
    case Unlock(c) => UnlockStep(s, c)
  }

  function Run(s: State, es: seq<Event>): State
    decreases |es|
  {
    if es == [] then s else Run(Step(s, es[0]), es[1..])
  }

  // --- What every step keeps ------------------------------------------------

  ghost predicate LocksOk(locks: map<Key, nat>, nextLock: nat, owners: map<nat, Connection>) {
    && (forall k :: k in locks ==> locks[k] < nextLock)
    && (forall l :: l in owners ==> l < nextLock)
    && (forall j, k :: j in locks && k in locks && locks[j] == locks[k] ==> j == k)
  }

  ghost predicate Guards(locks: map<Key, nat>, key: Key, lock: nat) {
    key in locks && locks[key] == lock
  }

  ghost predicate Holds(locks: map<Key, nat>, owners: map<nat, Connection>, c: Connection, key: Key, lock: nat) {
    Guards(locks, key, lock) && lock in owners && owners[lock] == c
  }

  ghost predicate PhaseOk(c: Connection, p: Phase, locks: map<Key, nat>, owners: map<nat, Connection>, records: Records, turns: map<Key, nat>) {
    match p
    case Idle => true
    case Waiting(m, key, lock) => Guards(locks, key, lock) && MessageKey(m) == Some(key)
    case Inside(m, key, lock) => Holds(locks, owners, c, key, lock) && MessageKey(m) == Some(key)
    case Cleared(m, key, lock, record, checkedAt, turn) =>
      && Holds(locks, owners, c, key, lock) && MessageKey(m) == Some(key)
      && key in records && records[key] == record && Admits(record, c, m, checkedAt)
      && turn == TurnOf(turns, key)
    case Leaving(key, lock) => Holds(locks, owners, c, key, lock)
  }

  /** The frame passed its check as the unexpired holder at the epoch it carries, and
      no lease operation ran on its scope between the check and the send. */
  ghost predicate Fenced(x: Sent) {
    LeaseRequired(x.m.kind) ==>
      && x.evidence.Some?
      && MessageKey(x.m) == Some(x.evidence.value.key)
      && Admits(x.evidence.value.record, x.source, x.m, x.evidence.value.checkedAt)
      && x.evidence.value.turnAtCheck == x.evidence.value.turnAtSend
  }

  /** The scope has reached the evidence's epoch and, if it is still there, still names
      the evidence's lease and the sender as its holder. */
  ghost predicate Reached(records: Records, x: Sent) {
    x.evidence.Some? ==>
      var key, record := x.evidence.value.key, x.evidence.value.record;
      && key in records && record.epoch <= records[key].epoch
      && (records[key].epoch == record.epoch ==> records[key].leaseID == record.leaseID && records[key].holder == record.holder)
      && record.holder == x.source.subjectID
  }

  ghost predicate InOrder(x: Sent, y: Sent) {
    x.evidence.Some? && y.evidence.Some? && x.evidence.value.key == y.evidence.value.key ==>
      && x.evidence.value.record.epoch <= y.evidence.value.record.epoch
      && (x.evidence.value.record.epoch == y.evidence.value.record.epoch ==>
            x.source.subjectID == y.source.subjectID && x.evidence.value.record.leaseID == y.evidence.value.record.leaseID)
  }

  ghost predicate SentOk(records: Records, sent: seq<Sent>) {
    && (forall i :: 0 <= i < |sent| ==> Fenced(sent[i]) && Reached(records, sent[i]))
    && (forall i, j :: 0 <= i < j < |sent| ==> InOrder(sent[i], sent[j]))
  }

  ghost predicate PhasesOk(phases: map<Connection, Phase>, locks: map<Key, nat>, owners: map<nat, Connection>, records: Records, turns: map<Key, nat>) {
    forall c :: c in phases ==> PhaseOk(c, phases[c], locks, owners, records, turns)
  }

  ghost predicate Inv(s: State) {
    && LocksOk(s.locks, s.nextLock, s.owners) && SentOk(s.records, s.sent)
    && PhasesOk(s.phases, s.locks, s.owners, s.records, s.turns)
  }

  lemma HandleLeaseEvolves(records: Records, source: Connection, m: Control, scope: LeaseScope, now: int, random: Option<string>, key: Key)
    ensures Evolves(records, HandleLease(records, source, m, scope, now, random).0, key, now)
    ensures key != LeaseKey(scope) ==>
      var after := HandleLease(records, source, m, scope, now, random).0;
      (key in after <==> key in records) && (key in records ==> after[key] == records[key])
  {
  }

  lemma HandledEvolves(s: State, c: Connection, m: Control, random: Option<string>, key: Key)
    ensures Evolves(s.records, Handled(s, c, m, random), key, s.clock)
    ensures Some(key) != MessageKey(m) && key in s.records ==> key in Handled(s, c, m, random) && Handled(s, c, m, random)[key] == s.records[key]
  {
    var scope := m.scope;
    if scope.Some? {
      HandleLeaseEvolves(s.records, c, m, scope.value, s.clock, random, key);
    }
  }

  /** One step moves every key along `Evolves`. */
  lemma StepEvolves(s: State, e: Event, key: Key)
    ensures Evolves(s.records, Step(s, e).records, key, s.clock)
  {
    if e.Operate? && PhaseOf(s, e.c).Inside? {
      HandledEvolves(s, e.c, PhaseOf(s, e.c).m, e.random, key);
    }
  }

  /** A connection that is past the lock of its scope. */
  predicate Locked(p: Phase) { p.Inside? || p.Cleared? || p.Leaving? }

  lemma EnqueueKeepsLocks(s: State, c: Connection, m: Control, key: Key)
    requires LocksOk(s.locks, s.nextLock, s.owners)
    ensures var t := Enqueue(s, c, m, key); LocksOk(t.locks, t.nextLock, t.owners)
  {
  }

  lemma EnqueueKeepsPhases(s: State, c: Connection, m: Control, key: Key)
    requires PhasesOk(s.phases, s.locks, s.owners, s.records, s.turns) && MessageKey(m) == Some(key)
    ensures var t := Enqueue(s, c, m, key); PhasesOk(t.phases, t.locks, s.owners, s.records, s.turns)
  {
    var t := Enqueue(s, c, m, key);
    forall d | d in t.phases && d != c ensures PhaseOk(d, t.phases[d], t.locks, s.owners, s.records, s.turns) {
      assert PhaseOk(d, s.phases[d], s.locks, s.owners, s.records, s.turns);
    }
  }

  lemma EnqueueKeepsInv(s: State, c: Connection, m: Control, key: Key)
    requires Inv(s) && MessageKey(m) == Some(key)
    ensures Inv(Enqueue(s, c, m, key))
  {
    EnqueueKeepsLocks(s, c, m, key);
    EnqueueKeepsPhases(s, c, m, key);
  }

  lemma BeginKeepsInv(s: State, c: Connection, m: Control, online: bool)
    requires Inv(s)
    ensures Inv(BeginStep(s, c, m, online))
  {
    var key := MessageKey(m);
    if key.Some? { EnqueueKeepsInv(s, c, m, key.value); }
    if !LeaseRequired(m.kind) { AppendKeepsSent(s.records, s.sent, Sent(c, m, None)); }
  }

  lemma AppendKeepsSent(records: Records, sent: seq<Sent>, x: Sent)
    requires SentOk(records, sent) && Fenced(x) && Reached(records, x)
    requires x.evidence.Some? ==> x.evidence.value.key in records && records[x.evidence.value.key] == x.evidence.value.record
    ensures SentOk(records, sent + [x])
  {
    forall i | 0 <= i < |sent| ensures InOrder(sent[i], x) { assert Reached(records, sent[i]); }
  }

  /** Moving one connection on, with a lock it may take, leaves the others as they were. */
  lemma LockKeepsInv(s: State, c: Connection)
    requires Inv(s)
    ensures Inv(LockStep(s, c))
  {
    var t := LockStep(s, c);
    if PhaseOf(s, c).Waiting? && PhaseOf(s, c).lock !in s.owners {
      assert PhaseOk(c, s.phases[c], s.locks, s.owners, s.records, s.turns);
      forall d | d in t.phases ensures PhaseOk(d, t.phases[d], t.locks, t.owners, t.records, t.turns) {
        if d != c { assert PhaseOk(d, s.phases[d], s.locks, s.owners, s.records, s.turns); }
      }
    }
  }

  lemma UnlockKeepsInv(s: State, c: Connection)
    requires Inv(s)
    ensures Inv(UnlockStep(s, c))
  {
    var t := UnlockStep(s, c);
    if PhaseOf(s, c).Leaving? {
      assert PhaseOk(c, s.phases[c], s.locks, s.owners, s.records, s.turns);
      forall d | d in t.phases ensures PhaseOk(d, t.phases[d], t.locks, t.owners, t.records, t.turns) {
        if d != c { assert PhaseOk(d, s.phases[d], s.locks, s.owners, s.records, s.turns); }
      }
    }
  }

  lemma OperateKeepsInv(s: State, c: Connection, random: Option<string>)
    requires Inv(s) && PhaseOf(s, c).Inside? && LeaseControl(PhaseOf(s, c).m.kind)
    ensures Inv(OperateStep(s, c, random))
  {
    var t, m := OperateStep(s, c, random), PhaseOf(s, c).m;
    assert PhaseOk(c, s.phases[c], s.locks, s.owners, s.records, s.turns);
    forall d | d in t.phases && d != c ensures PhaseOk(d, t.phases[d], t.locks, t.owners, t.records, t.turns) {
      assert PhaseOk(d, s.phases[d], s.locks, s.owners, s.records, s.turns);
      if s.phases[d].Cleared? { HandledEvolves(s, c, m, random, s.phases[d].key); }
    }
    forall i | 0 <= i < |s.sent| ensures Reached(t.records, s.sent[i]) {
      if s.sent[i].evidence.Some? {
        HandledEvolves(s, c, m, random, s.sent[i].evidence.value.key);
      }
    }
  }

  lemma CheckKeepsInv(s: State, c: Connection)
    requires Inv(s)
    ensures Inv(CheckStep(s, c))
  {
    if PhaseOf(s, c).Inside? { assert PhaseOk(c, s.phases[c], s.locks, s.owners, s.records, s.turns); }
  }

  lemma SendKeepsInv(s: State, c: Connection, delivered: bool)
    requires Inv(s)
    ensures Inv(SendStep(s, c, delivered))
  {
    var p := PhaseOf(s, c);
    if p.Cleared? {
      assert PhaseOk(c, p, s.locks, s.owners, s.records, s.turns);
      AppendKeepsSent(s.records, s.sent, Sent(c, p.m, Some(Evidence(p.key, p.record, p.checkedAt, p.turn, TurnOf(s.turns, p.key)))));
    }
  }

  lemma StepKeepsInv(s: State, e: Event)
    requires Inv(s)
    ensures Inv(Step(s, e))
  {
    match e
    case Tick(now) =>
    case Begin(c, frame, online) => BeginKeepsInv(s, c, Read(frame), online);
    case Lock(c) => LockKeepsInv(s, c);
    case Operate(c, random) =>
      if PhaseOf(s, c).Inside? && LeaseControl(PhaseOf(s, c).m.kind) { OperateKeepsInv(s, c, random); }
    case Check(c) => CheckKeepsInv(s, c);
    case Send(c, delivered) => SendKeepsInv(s, c, delivered);
    case Unlock(c) => UnlockKeepsInv(s, c);
  }

  lemma {:induction false} RunKeepsInv(s: State, es: seq<Event>)
    requires Inv(s)
    ensures Inv(Run(s, es))
    decreases |es|
  {
    if es != [] {
      StepKeepsInv(s, es[0]);
      RunKeepsInv(Step(s, es[0]), es[1..]);
    }
  }

  // --- Main results ----------------------------------------------------------

  /** In every interleaving, two connections are never both past the lock of one scope. */
  lemma ScopesAreExclusive(es: seq<Event>, c: Connection, d: Connection)
    ensures var s := Run(INIT, es);
      var p, q := PhaseOf(s, c), PhaseOf(s, d);
      Locked(p) && Locked(q) && p.key == q.key ==> c == d
  {
    RunKeepsInv(INIT, es);
    var s := Run(INIT, es);
    assert c in s.phases ==> PhaseOk(c, s.phases[c], s.locks, s.owners, s.records, s.turns);
    assert d in s.phases ==> PhaseOk(d, s.phases[d], s.locks, s.owners, s.records, s.turns);
  }

  /** In every interleaving, a frame of one of the nine mutating types reaches a node only
      with evidence: its scope was complete, and the scope's record was held, unexpired, the
      sender's, and named by its proof when it was checked, with no lease operation on the
      scope between the check and the send. */
  lemma ForwardedFramesWereFenced(es: seq<Event>, i: nat)
    requires i < |Run(INIT, es).sent|
    requires var kind := Run(INIT, es).sent[i].m.kind;
      kind.TurnStart? || kind.TurnSteer? || kind.TurnInterrupt? || kind.ApprovalResolve? || kind.TaskResume?
      || kind.RunStart? || kind.RunSteer? || kind.RunInterrupt? || kind.InteractionResolve?
    ensures var x := Run(INIT, es).sent[i];
      && x.evidence.Some? && x.m.scope.Some? && x.m.proof.Some?
      && var e := x.evidence.value;
         && e.key == LeaseKey(x.m.scope.value) && e.turnAtCheck == e.turnAtSend
         && e.record.state == Held && e.checkedAt < e.record.expiresAt && e.record.holder == x.source.subjectID
         && e.record.leaseID == x.m.proof.value.leaseID && e.record.epoch == x.m.proof.value.epoch
  {
    RunKeepsInv(INIT, es);
    assert Fenced(Run(INIT, es).sent[i]);
  }

  /** Per scope, the epochs carried by forwarded frames of the nine types never decrease, and
      frames carrying one epoch come from one client under one lease. */
  lemma ForwardedEpochsNeverGoBack(es: seq<Event>, i: nat, j: nat)
    requires i < j < |Run(INIT, es).sent|
    requires var kind := Run(INIT, es).sent[i].m.kind;
      kind.TurnStart? || kind.TurnSteer? || kind.TurnInterrupt? || kind.ApprovalResolve? || kind.TaskResume?
      || kind.RunStart? || kind.RunSteer? || kind.RunInterrupt? || kind.InteractionResolve?
    requires var kind := Run(INIT, es).sent[j].m.kind;
      kind.TurnStart? || kind.TurnSteer? || kind.TurnInterrupt? || kind.ApprovalResolve? || kind.TaskResume?
      || kind.RunStart? || kind.RunSteer? || kind.RunInterrupt? || kind.InteractionResolve?
    requires Run(INIT, es).sent[i].m.scope == Run(INIT, es).sent[j].m.scope
    ensures var x, y := Run(INIT, es).sent[i], Run(INIT, es).sent[j];
      var p, q := x.m.proof, y.m.proof;
      && p.Some? && q.Some? && p.value.epoch <= q.value.epoch
      && (p.value.epoch == q.value.epoch ==> p.value.leaseID == q.value.leaseID && x.source.subjectID == y.source.subjectID)
  {
    RunKeepsInv(INIT, es);
    var s := Run(INIT, es);
    assert Fenced(s.sent[i]) && Fenced(s.sent[j]) && InOrder(s.sent[i], s.sent[j]);
  }

  /** Whatever happens next, a scope's epoch never decreases, and an epoch that is
      still current still belongs to the same lease, holder and state. */
  lemma {:induction false} EpochsAreFencing(s: State, es: seq<Event>, key: Key)
    ensures EpochOf(s.records, key) <= EpochOf(Run(s, es).records, key)
    ensures key in s.records ==> key in Run(s, es).records
    ensures key in s.records && EpochOf(s.records, key) == EpochOf(Run(s, es).records, key) ==>
      var a, b := s.records[key], Run(s, es).records[key];
      a.leaseID == b.leaseID && a.holder == b.holder && a.state == b.state
    decreases |es|
  {
    if es != [] {
      StepEvolves(s, es[0], key);
      EpochsAreFencing(Step(s, es[0]), es[1..], key);
    }
  }

  /** The three ways a holder can lose its lease in one step: a forced takeover, an acquire
      after the expiry, or a release by the holder itself with its proof. */
  ghost predicate EndsLease(s: State, e: Event, key: Key) {
    && e.Operate? && PhaseOf(s, e.c).Inside? && MessageKey(PhaseOf(s, e.c).m) == Some(key) && key in s.records
    && var m, record := PhaseOf(s, e.c).m, s.records[key];
       || (m.kind.LeaseAcquire? && m.acquire.Some? && m.acquire.value.0)
       || (m.kind.LeaseAcquire? && record.expiresAt <= s.clock)
       || (m.kind.LeaseRelease? && m.change == Some(Proof(record.leaseID, record.epoch)) && record.holder == e.c.subjectID)
  }

  ghost predicate SameLease(a: LeaseRecord, b: LeaseRecord) {
    a.leaseID == b.leaseID && a.holder == b.holder && a.epoch == b.epoch && a.state == b.state
  }

  lemma StepKeepsLease(s: State, e: Event, key: Key)
    requires key in s.records && s.records[key].state == Held && !EndsLease(s, e, key)
    ensures key in Step(s, e).records && SameLease(s.records[key], Step(s, e).records[key])
  {
    if e.Operate? && PhaseOf(s, e.c).Inside? {
      HandledEvolves(s, e.c, PhaseOf(s, e.c).m, e.random, key);
    }
  }

  /** In every run, a held lease stays with its holder unless some step of the run ended
      it in one of those three ways. */
  lemma {:induction false} LeaseIsLostOnlyFor(s: State, es: seq<Event>, key: Key)
    requires key in s.records && s.records[key].state == Held
    ensures (key in Run(s, es).records && SameLease(s.records[key], Run(s, es).records[key]))
      || exists i :: 0 <= i < |es| && EndsLease(Run(s, es[..i]), es[i], key)
    decreases |es|
  {
    if es != [] {
      if EndsLease(s, es[0], key) {
        assert Run(s, es[..0]) == s;
      } else {
        StepKeepsLease(s, es[0], key);
        var next, rest := Step(s, es[0]), es[1..];
        LeaseIsLostOnlyFor(next, rest, key);
        if i :| 0 <= i < |rest| && EndsLease(Run(next, rest[..i]), rest[i], key) {
          assert es[..i + 1][1..] == rest[..i];
          assert EndsLease(Run(s, es[..i + 1]), es[i + 1], key);
        }
      }
    }
  }

  /** Would `checkLease` accept this frame from this connection in state `s`? */
  predicate Passes(s: State, source: Connection, m: Control) {
    var scope := m.scope;
    scope.Some? && LeaseKey(scope.value) in s.records && Admits(s.records[LeaseKey(scope.value)], source, m, s.clock)
  }

  /** The proof's epoch has been reached and the scope's record is not (or no longer)
      that proof's held lease. */
  ghost predicate Superseded(s: State, source: Connection, m: Control) {
    var scope, proof := m.scope, m.proof;
    scope.Some? && proof.Some? && LeaseKey(scope.value) in s.records &&
    var record := s.records[LeaseKey(scope.value)];
    && proof.value.epoch <= record.epoch
    && !(record.state == Held && record.epoch == proof.value.epoch && record.leaseID == proof.value.leaseID && record.holder == source.subjectID)
  }

  /** A superseded proof never passes again, whatever the clock does. */
  lemma SupersededProofNeverPasses(s: State, es: seq<Event>, source: Connection, m: Control)
    requires Superseded(s, source, m)
    ensures !Passes(Run(s, es), source, m)
  {
    EpochsAreFencing(s, es, LeaseKey(m.scope.value));
  }

  /** The clock never moves back in the run. */
  ghost predicate NonDecreasing(es: seq<Event>, clock: int) {
    es == [] || if es[0].Tick? then clock <= es[0].now && NonDecreasing(es[1..], es[0].now) else NonDecreasing(es[1..], clock)
  }

  /** The clock never falls below `floor` in the run. */
  ghost predicate TicksFrom(es: seq<Event>, floor: int) {
    forall i :: 0 <= i < |es| && es[i].Tick? ==> floor <= es[i].now
  }

  /** The proof's lease is over for good at `floor`: it was superseded, or expired by then. */
  ghost predicate DeadFrom(records: Records, key: Key, epoch: int, floor: int) {
    && key in records && epoch <= records[key].epoch
    && (epoch == records[key].epoch ==> records[key].state != Held || records[key].expiresAt <= floor)
  }

  lemma StepKeepsDead(s: State, e: Event, key: Key, epoch: int, floor: int)
    requires DeadFrom(s.records, key, epoch, floor) && floor <= s.clock
    ensures DeadFrom(Step(s, e).records, key, epoch, floor)
  {
    StepEvolves(s, e, key);
  }

  lemma {:induction false} RunKeepsDead(s: State, es: seq<Event>, key: Key, epoch: int, floor: int)
    requires DeadFrom(s.records, key, epoch, floor) && floor <= s.clock && TicksFrom(es, floor)
    ensures DeadFrom(Run(s, es).records, key, epoch, floor) && floor <= Run(s, es).clock
    decreases |es|
  {
    if es != [] {
      StepKeepsDead(s, es[0], key, epoch, floor);
      RunKeepsDead(Step(s, es[0]), es[1..], key, epoch, floor);
    }
  }

  /** The proof never passes in any run whose clock stays at or above `floor`. */
  ghost predicate NeverPassesFrom(s: State, source: Connection, m: Control, floor: int) {
    forall es :: TicksFrom(es, floor) ==> !PassesAfter(s, es, source, m)
  }

  ghost predicate PassesAfter(s: State, es: seq<Event>, source: Connection, m: Control) {
    Passes(Run(s, es), source, m)
  }

  /** For a proof that names the held record of its scope: it never passes again, whatever
      comes, under a clock that stays at or above `floor`, if and only if the lease expires by
      then. The clock may go back as long as it does not fall below the expiry. "Now" is a
      moment under the scope's lock: a lease operation reads the clock and changes the store
      as one event, so none is under way that read the clock earlier. */
  lemma ProofIsDeadExactlyWhen(s: State, source: Connection, m: Control, floor: int)
    requires m.scope.Some? && LeaseKey(m.scope.value) in s.records && floor <= s.clock
    requires var record := s.records[LeaseKey(m.scope.value)];
      record.state == Held && m.proof == Some(Proof(record.leaseID, record.epoch)) && record.holder == source.subjectID
    ensures NeverPassesFrom(s, source, m, floor) <==> s.records[LeaseKey(m.scope.value)].expiresAt <= floor
  {
    var key := LeaseKey(m.scope.value);
    var record := s.records[key];
    if record.expiresAt <= floor {
      forall es | TicksFrom(es, floor) ensures !PassesAfter(s, es, source, m) {
        RunKeepsDead(s, es, key, record.epoch, floor);
      }
    } else {
      var es := [Tick(floor)];
      assert Run(s, es) == Run(Step(s, Tick(floor)), []) == s.(clock := floor);
      assert TicksFrom(es, floor) && PassesAfter(s, es, source, m);
    }
  }

  lemma {:induction false} NonDecreasingTicks(es: seq<Event>, clock: int)
    requires NonDecreasing(es, clock)
    ensures TicksFrom(es, clock)
    decreases |es|
  {
    if es != [] {
      if es[0].Tick? {
        NonDecreasingTicks(es[1..], es[0].now);
      } else {
        NonDecreasingTicks(es[1..], clock);
      }
      assert forall i :: 0 < i < |es| ==> es[i] == es[1..][i - 1];
    }
  }

  /** In particular with a non-decreasing clock, once seen expired. */
  lemma ExpiredProofNeverPasses(s: State, es: seq<Event>, source: Connection, m: Control)
    requires NonDecreasing(es, s.clock)
    requires m.scope.Some? && m.proof.Some?
    requires var scope := m.scope.value;
      && LeaseKey(scope) in s.records && m.proof.value.epoch <= s.records[LeaseKey(scope)].epoch
      && (m.proof.value.epoch == s.records[LeaseKey(scope)].epoch ==> Lookup(s.records, scope, s.clock).state != Held)
    ensures !Passes(Run(s, es), source, m)
  {
    NonDecreasingTicks(es, s.clock);
    RunKeepsDead(s, es, LeaseKey(m.scope.value), m.proof.value.epoch, s.clock);
  }

  /** For example, setting the clock on and back again makes a proof pass that was just seen expired. */
  lemma ClockSetBackRevivesProof(s: State, source: Connection, m: Control, late: int)
    requires Passes(s, source, m) && s.records[LeaseKey(m.scope.value)].expiresAt <= late
    ensures !Passes(Run(s, [Tick(late)]), source, m)
    ensures Passes(Run(s, [Tick(late), Tick(s.clock)]), source, m)
  {
    var t := Step(s, Tick(late));
    assert Run(s, [Tick(late)]) == Run(t, []) == t;
    assert Run(s, [Tick(late), Tick(s.clock)]) == Run(t, [Tick(s.clock)]);
    assert Run(t, [Tick(s.clock)]) == Run(s, []) == s;
  }

  /** An epoch grows by at most one per event, so int64 epochs do not wrap within 2^63 - 1 events. */
  lemma {:induction false} EpochsGrowByOne(s: State, es: seq<Event>, key: Key)
    ensures EpochOf(Run(s, es).records, key) <= EpochOf(s.records, key) + |es|
    decreases |es|
  {
    if es != [] {
      StepEvolves(s, es[0], key);
      EpochsGrowByOne(Step(s, es[0]), es[1..], key);
    }
  }
}
