/** The configuration controller over whole runs: parking, approval, rejection and saving
    (nodeConfigController in internal/node/config_controller.go).

    The controller has no lock of its own. A call loads the file, decides, and saves or
    records in separate steps, and any other call may act in between. */
module ConfigRuns {
  import opened Prelude
  import opened NodeConfig
  import opened ConfigController

  const CONFIG_CHANGE_TTL: int := 24 * 60 * MINUTE

  datatype ChangeState = Pending | Approved | Rejected

  datatype Record = Record(baseRevision: string, changes: Changes, state: ChangeState, createdAt: int)

  type Records = map<nat, Record>

  /** What a call is about to do: park a change, save a merged configuration (for the change
      `id`, when it approves one), load the file for a change it has read, move a change. */
  datatype Plan =
    | Nothing
    | Park(base: Config, next: Config, baseRevision: string, changes: Changes)
    | Save(base: Config, next: Config, changes: Changes, id: Option<nat>)
    | Load(change: nat, record: Record)
    | Move(moving: nat, state: ChangeState)

  /** `Update` up to its first write, on the configuration it loaded; `fits` is the size of the encoded change. */
  function PlanUpdate(rules: Rules, loaded: Config, baseRevision: string, ch: Changes, fits: bool): Plan {
    if baseRevision == "" || baseRevision != rules.revision(loaded) then Nothing
    else
      match ApplyRemoteChanges(rules, loaded, ch)
      case Refused(_) => Nothing
      case Merge(next) =>
        if !fits then Nothing else if Sensitive(ch) then Park(loaded, next, baseRevision, ch) else Save(loaded, next, ch, None)
  }

  /** `Approve` on the change record it read. */
  function PlanApproval(records: Records, id: nat, now: int): Plan {
    if id !in records then Nothing
    else if records[id].createdAt + CONFIG_CHANGE_TTL <= now then Move(id, Rejected)
    else if records[id].state != Pending then Nothing
    else Load(id, records[id])
  }

  /** `Approve` on the configuration it loaded. */
  function PlanMerge(rules: Rules, loaded: Config, id: nat, record: Record): Plan {
    if rules.revision(loaded) != record.baseRevision then Move(id, Rejected)
    else
      match ApplyRemoteChanges(rules, loaded, record.changes)
      case Refused(_) => Move(id, Rejected)
      case Merge(next) => Save(loaded, next, record.changes, Some(id))
  }

  /** After a save, an approval moves its change. */
  function PlanMove(saved: Plan, reported: bool): Plan
    requires saved.Save?
  {
    if saved.id.Some? && reported then Move(saved.id.value, Approved) else Nothing
  }

  /** `TransitionConfigChange` moves only pending records. */
  function Moved(records: Records, id: nat, state: ChangeState, moved: bool): Records {
    if moved && id in records && records[id].state == Pending then records[id := records[id].(state := state)] else records
  }

  // --- Every interleaving of calls ----------------------------------------------------------

  /** What the history remembers of a parked change, and of a save: for which change, from
      which loaded configuration, over which one in place. */
  datatype Parked = Parked(base: Config, next: Config)
  datatype Saved = Saved(id: Option<nat>, base: Config, before: Config, saved: Config)

  datatype State = State(config: Config, records: Records, clock: int, calls: map<nat, Plan>, parked: map<nat, Parked>, saves: seq<Saved>)

  /** `written`: the file store put the new configuration in place; `reported`: it said so;
      `stored` and `moved`: the change store inserted or moved the record. */
  datatype Event =
    | Tick(now: int)
    | LoadUpdate(call: nat, baseRevision: string, ch: Changes, fits: bool)
    | ParkChange(call: nat, id: nat, stored: bool)
    | ReadChange(call: nat, id: nat)
    | LoadApprove(call: nat)
    | SaveConfig(call: nat, written: bool, reported: bool)
    | MoveChange(call: nat, moved: bool)
    | Reject(id: nat, moved: bool)
    | LocalEdit(config: Config)

  function PlanOf(s: State, call: nat): Plan { if call in s.calls then s.calls[call] else Nothing }

  function Goes(s: State, call: nat, plan: Plan): State { s.(calls := s.calls[call := plan]) }

  function ParkStep(s: State, call: nat, id: nat, stored: bool): State {
    match PlanOf(s, call)
    case Park(base, next, baseRevision, ch) =>
      if !stored || id in s.records then Goes(s, call, Nothing)
      else
        Goes(s, call, Nothing).(records := s.records[id := Record(baseRevision, ch, Pending, s.clock)],
                                parked := s.parked[id := Parked(base, next)])
    case _ => s
  }

  function SaveStep(s: State, call: nat, written: bool, reported: bool): State {
    var plan := PlanOf(s, call);
    if !plan.Save? then s
    else if !written then Goes(s, call, Nothing)
    else Goes(s, call, PlanMove(plan, reported)).(config := plan.next, saves := s.saves + [Saved(plan.id, plan.base, s.config, plan.next)])
  }

  function Step(rules: Rules, s: State, e: Event): State {
    match e
    case Tick(now) => s.(clock := now)
    case LoadUpdate(call, baseRevision, ch, fits) =>
      if call in s.calls then s else Goes(s, call, PlanUpdate(rules, s.config, baseRevision, ch, fits))
    case ParkChange(call, id, stored) => ParkStep(s, call, id, stored)
    case ReadChange(call, id) => if call in s.calls then s else Goes(s, call, PlanApproval(s.records, id, s.clock))
    case LoadApprove(call) =>
      if PlanOf(s, call).Load? then Goes(s, call, PlanMerge(rules, s.config, PlanOf(s, call).change, PlanOf(s, call).record)) else s
    case SaveConfig(call, written, reported) => SaveStep(s, call, written, reported)
    case MoveChange(call, moved) =>
      if PlanOf(s, call).Move? then Goes(s, call, Nothing).(records := Moved(s.records, PlanOf(s, call).moving, PlanOf(s, call).state, moved)) else s
    case Reject(id, moved) => s.(records := Moved(s.records, id, Rejected, moved))
    case LocalEdit(config) => if rules.valid(config) then s.(config := config) else s
  }

  function Run(rules: Rules, s: State, es: seq<Event>): State
    decreases |es|
  {
    if es == [] then s else Run(rules, Step(rules, s, es[0]), es[1..])
  }

  function Start(config: Config): State {
    State(config, map[], 0, map[], map[], [])
  }

  // --- The controller object --------------------------------------------------------------------

  /** The outcome of `Update`; `shown` are the workspaces in the configuration view of the response. */
  datatype UpdateResult = NotUpdated | ParkedChange(shown: seq<Workspace>) | AppliedChange(next: Config)

  /** The controller in front of the configuration file and the change store. Each of the
      first methods is one step of a call; `Update` and `Approve` are whole calls that
      nothing else disturbs. */
  class NodeConfigController {
    const rules: Rules
    var config: Config
    var records: Records

    constructor (rules: Rules, config: Config)
      ensures this.rules == rules && this.config == config && records == map[]
    {
      this.rules, this.config, records := rules, config, map[];
    }

    ghost function View(now: int): State
      reads this
    {
      State(config, records, now, map[], map[], [])
    }

    /** Load, compare and merge, in place in the loaded slice: `shown` is what the loaded
        configuration shows afterwards. */
    method PrepareUpdate(baseRevision: string, changes: map<string, Json>, fits: bool) returns (plan: Plan, shown: seq<Workspace>)
      ensures plan == PlanUpdate(rules, config, baseRevision, ReadChanges(changes), fits)
      ensures plan.Park? || plan.Save? ==> shown == plan.next.workspaces
    {
      var ch := ReadChanges(changes);
      if baseRevision == "" || baseRevision != rules.revision(config) { return Nothing, config.workspaces; }
      var slice := new Workspace[|config.workspaces|](i requires 0 <= i < |config.workspaces| reads this => config.workspaces[i]);
      assert slice[..] == config.workspaces;
      var merged, sensitive := ApplyInPlace(rules, config, slice, ch);
      if merged.Refused? || !fits { return Nothing, slice[..]; }
      plan := if sensitive then Park(config, merged.value, baseRevision, ch) else Save(config, merged.value, ch, None);
      shown := slice[..];
    }

    method PrepareApproval(id: nat, now: int) returns (plan: Plan)
      ensures plan == PlanApproval(records, id, now)
    {
      if id !in records { return Nothing; }
      var change := records[id];
      if change.createdAt + CONFIG_CHANGE_TTL <= now { return Move(id, Rejected); }
      if change.state != Pending { return Nothing; }
      return Load(id, change);
    }

    method PrepareMerge(id: nat, record: Record) returns (plan: Plan)
      ensures plan == PlanMerge(rules, config, id, record)
    {
      if rules.revision(config) != record.baseRevision { return Move(id, Rejected); }
      var slice := new Workspace[|config.workspaces|](i requires 0 <= i < |config.workspaces| reads this => config.workspaces[i]);
      assert slice[..] == config.workspaces;
      var merged, _ := ApplyInPlace(rules, config, slice, record.changes);
      if merged.Refused? { return Move(id, Rejected); }
      return Save(config, merged.value, record.changes, Some(id));
    }

    method Transition(id: nat, next: ChangeState, moved: bool) returns (ok: bool)
      modifies this`records
      ensures records == Moved(old(records), id, next, moved)
      ensures ok <==> moved && id in old(records) && old(records)[id].state == Pending
      ensures records == if ok then old(records)[id := old(records)[id].(state := next)] else old(records)
    {
      ok := moved && id in records && records[id].state == Pending;
      if ok { records := records[id := records[id].(state := next)]; }
    }

    method Reject(id: nat, now: int, moved: bool) returns (ok: bool)
      modifies this`records
      ensures records == Step(rules, old(View(now)), Event.Reject(id, moved)).records
      ensures ok <==> moved && id in old(records) && old(records)[id].state == Pending
      ensures records == if ok then old(records)[id := old(records)[id].(state := Rejected)] else old(records)
    {
      ok := Transition(id, Rejected, moved);
    }

    /** A parked change leaves the file alone, yet the response shows the workspaces as
        if the change were in force: the merge wrote them into the loaded slice. */
    method Update(baseRevision: string, changes: map<string, Json>, fits: bool, id: nat, now: int, stored: bool, written: bool, reported: bool) returns (result: UpdateResult)
      modifies this
      ensures var s := Step(rules, old(View(now)), LoadUpdate(0, baseRevision, ReadChanges(changes), fits));
        var t := Step(rules, Step(rules, s, ParkChange(0, id, stored)), SaveConfig(0, written, reported));
        config == t.config && records == t.records
      ensures var merged := ApplyRemoteChanges(rules, old(config), ReadChanges(changes));
        if baseRevision == "" || baseRevision != rules.revision(old(config)) || merged.Refused? || !fits then
          result == NotUpdated && config == old(config) && records == old(records)
        else if "relayUrl" in changes || "proxyUrl" in changes || "workspaces" in changes then
          && config == old(config)
          && (if stored && id !in old(records)
              then result == ParkedChange(merged.value.workspaces) && records == old(records)[id := Record(baseRevision, ReadChanges(changes), Pending, now)]
              else result == NotUpdated && records == old(records))
        else
          && records == old(records) && config == (if written then merged.value else old(config))
          && result == (if written && reported then AppliedChange(merged.value) else NotUpdated)
    {
      var plan, shown := PrepareUpdate(baseRevision, changes, fits);
      if plan.Park? {
        if !stored || id in records { return NotUpdated; }
        records := records[id := Record(baseRevision, plan.changes, Pending, now)];
        return ParkedChange(shown);
      }
      if !plan.Save? || !written { return NotUpdated; }
      config := plan.next;
      return if reported then AppliedChange(config) else NotUpdated;
    }

    method Approve(id: nat, now: int, written: bool, reported: bool, moved: bool) returns (ok: bool)
      modifies this
      ensures var s := Step(rules, Step(rules, old(View(now)), ReadChange(0, id)), LoadApprove(0));
        var t := Step(rules, Step(rules, s, SaveConfig(0, written, reported)), MoveChange(0, moved));
        config == t.config && records == t.records
      ensures id !in old(records) ==> !ok && config == old(config) && records == old(records)
      ensures id in old(records) ==>
        var change := old(records)[id];
        var merged := ApplyRemoteChanges(rules, old(config), change.changes);
        var pending := change.state == Pending;
        if change.createdAt + 86_400_000_000_000 <= now || (pending && (rules.revision(old(config)) != change.baseRevision || merged.Refused?)) then
          && !ok && config == old(config)
          && records == if pending && moved then old(records)[id := change.(state := Rejected)] else old(records)
        else if !pending then !ok && config == old(config) && records == old(records)
        else
          && config == (if written then merged.value else old(config)) && (ok <==> written && reported && moved)
          && records == if ok then old(records)[id := change.(state := Approved)] else old(records)
    {
      var plan := PrepareApproval(id, now);
      if plan.Load? { plan := PrepareMerge(id, plan.record); }
      if plan.Move? {
        var _ := Transition(plan.moving, plan.state, moved);
        return false;
      }
      if !plan.Save? || !written { return false; }
      config := plan.next;
      if !reported { return false; }
      ok := Transition(id, Approved, moved);
    }
  }

  // --- What every step keeps -------------------------------------------------------------------

  /** Revisions are digests of the encoded configuration, taken to be injective. */
  ghost predicate InjectiveRevision(rules: Rules) {
    forall a, b :: rules.revision(a) == rules.revision(b) ==> a == b
  }

  /** A record still belongs to what was computed when it was parked. */
  ghost predicate ParkedAs(rules: Rules, p: Parked, baseRevision: string, changes: Changes) {
    rules.revision(p.base) == baseRevision && ApplyRemoteChanges(rules, p.base, changes) == Merge(p.next)
  }

  ghost predicate RecordsOk(rules: Rules, records: Records, parked: map<nat, Parked>) {
    forall id :: id in records ==> id in parked && ParkedAs(rules, parked[id], records[id].baseRevision, records[id].changes)
  }

  ghost predicate PlanOk(rules: Rules, plan: Plan, parked: map<nat, Parked>) {
    match plan
    case Park(base, next, baseRevision, ch) => ParkedAs(rules, Parked(base, next), baseRevision, ch)
    case Save(base, next, ch, id) =>
      && ApplyRemoteChanges(rules, base, ch) == Merge(next)
      && (id.Some? ==> id.value in parked && parked[id.value] == Parked(base, next))
    case Load(id, record) => id in parked && ParkedAs(rules, parked[id], record.baseRevision, record.changes)
    case _ => true
  }

  ghost predicate PlansOk(rules: Rules, calls: map<nat, Plan>, parked: map<nat, Parked>) {
    forall call :: call in calls ==> PlanOk(rules, calls[call], parked)
  }

  ghost predicate SaveOk(rules: Rules, x: Saved, parked: map<nat, Parked>) {
    && rules.valid(x.saved) && SameBoundary(x.base, x.saved) && NoGain(x.base.workspaces, x.saved.workspaces)
    && (x.id.Some? ==> x.id.value in parked && parked[x.id.value] == Parked(x.base, x.saved))
  }

  ghost predicate SavesOk(rules: Rules, saves: seq<Saved>, parked: map<nat, Parked>) {
    forall i :: 0 <= i < |saves| ==> SaveOk(rules, saves[i], parked)
  }

  ghost predicate Inv(rules: Rules, s: State) {
    && s.parked.Keys == s.records.Keys
    && RecordsOk(rules, s.records, s.parked) && PlansOk(rules, s.calls, s.parked) && SavesOk(rules, s.saves, s.parked)
  }

  lemma ParkKeepsInv(rules: Rules, s: State, call: nat, id: nat, stored: bool)
    requires Inv(rules, s)
    ensures Inv(rules, ParkStep(s, call, id, stored))
  {
    if PlanOf(s, call).Park? && stored && id !in s.records {
      var t := ParkStep(s, call, id, stored);
      assert PlanOk(rules, s.calls[call], s.parked);
      forall c | c in t.calls ensures PlanOk(rules, t.calls[c], t.parked) {
        if c != call { assert PlanOk(rules, s.calls[c], s.parked); }
      }
      forall i | 0 <= i < |s.saves| ensures SaveOk(rules, s.saves[i], t.parked) { assert SaveOk(rules, s.saves[i], s.parked); }
    }
  }

  lemma SaveKeepsInv(rules: Rules, s: State, call: nat, written: bool, reported: bool)
    requires Inv(rules, s)
    ensures Inv(rules, SaveStep(s, call, written, reported))
  {
    if PlanOf(s, call).Save? {
      var plan := s.calls[call];
      assert PlanOk(rules, plan, s.parked);
      AcceptedChangesAreHarmless(rules, plan.base, plan.changes);
    }
  }

  lemma GoesKeepsInv(rules: Rules, s: State, call: nat, plan: Plan)
    requires Inv(rules, s) && PlanOk(rules, plan, s.parked)
    ensures Inv(rules, Goes(s, call, plan))
  {
  }

  lemma MovedKeepsRecords(rules: Rules, records: Records, parked: map<nat, Parked>, id: nat, state: ChangeState, moved: bool)
    requires RecordsOk(rules, records, parked)
    ensures RecordsOk(rules, Moved(records, id, state, moved), parked) && Moved(records, id, state, moved).Keys == records.Keys
  {
  }

  lemma LoadKeepsInv(rules: Rules, s: State, call: nat)
    requires InjectiveRevision(rules) && Inv(rules, s) && PlanOf(s, call).Load?
    ensures Inv(rules, Step(rules, s, LoadApprove(call)))
  {
    var plan := s.calls[call];
    assert PlanOk(rules, plan, s.parked);
    GoesKeepsInv(rules, s, call, PlanMerge(rules, s.config, plan.change, plan.record));
  }

  lemma StepKeepsInv(rules: Rules, s: State, e: Event)
    requires InjectiveRevision(rules) && Inv(rules, s)
    ensures Inv(rules, Step(rules, s, e))
  {
    match e
    case LoadUpdate(call, baseRevision, ch, fits) =>
      if call !in s.calls { GoesKeepsInv(rules, s, call, PlanUpdate(rules, s.config, baseRevision, ch, fits)); }
    case ParkChange(call, id, stored) => ParkKeepsInv(rules, s, call, id, stored);
    case ReadChange(call, id) => if call !in s.calls { GoesKeepsInv(rules, s, call, PlanApproval(s.records, id, s.clock)); }
    case LoadApprove(call) => if PlanOf(s, call).Load? { LoadKeepsInv(rules, s, call); }
    case SaveConfig(call, written, reported) => SaveKeepsInv(rules, s, call, written, reported);
    case MoveChange(call, moved) =>
      if PlanOf(s, call).Move? {
        GoesKeepsInv(rules, s, call, Nothing);
        MovedKeepsRecords(rules, s.records, s.parked, PlanOf(s, call).moving, PlanOf(s, call).state, moved);
      }
    case Reject(id, moved) => MovedKeepsRecords(rules, s.records, s.parked, id, Rejected, moved);
    case _ =>
  }

  lemma {:induction false} RunKeepsInv(rules: Rules, s: State, es: seq<Event>)
    requires InjectiveRevision(rules) && Inv(rules, s)
    ensures Inv(rules, Run(rules, s, es))
    decreases |es|
  {
    if es != [] {
      StepKeepsInv(rules, s, es[0]);
      RunKeepsInv(rules, Step(rules, s, es[0]), es[1..]);
    }
  }

  // --- What is saved ---------------------------------------------------------------------------

  /** In every interleaving, local edits included, whatever an approval saves is exactly the
      configuration that was computed and validated when the change was parked. */
  lemma ApproveSavesWhatWasParked(rules: Rules, config: Config, es: seq<Event>, i: nat)
    requires InjectiveRevision(rules) && i < |Run(rules, Start(config), es).saves| && Run(rules, Start(config), es).saves[i].id.Some?
    ensures var s := Run(rules, Start(config), es);
      var x, id := s.saves[i], s.saves[i].id.value;
      && id in s.parked && id in s.records && x.base == s.parked[id].base && x.saved == s.parked[id].next && rules.valid(x.saved)
      && ApplyRemoteChanges(rules, s.parked[id].base, s.records[id].changes) == Merge(x.saved)
  {
    RunKeepsInv(rules, Start(config), es);
    var s := Run(rules, Start(config), es);
    assert SaveOk(rules, s.saves[i], s.parked);
  }

  /** So approving one change again, after its status failed to move, or twice at once, saves the same thing again. */
  lemma RepeatedApprovalsDoNotCompound(rules: Rules, config: Config, es: seq<Event>, i: nat, j: nat)
    requires InjectiveRevision(rules)
    requires i < |Run(rules, Start(config), es).saves| && j < |Run(rules, Start(config), es).saves|
    requires Run(rules, Start(config), es).saves[i].id.Some? && Run(rules, Start(config), es).saves[i].id == Run(rules, Start(config), es).saves[j].id
    ensures Run(rules, Start(config), es).saves[i].saved == Run(rules, Start(config), es).saves[j].saved
  {
    ApproveSavesWhatWasParked(rules, config, es, i);
    ApproveSavesWhatWasParked(rules, config, es, j);
  }

  /** In every interleaving, every save is valid, within the hot-reload boundary of the
      configuration it loaded, and gains no permission over that one. */
  lemma SavesAreHarmlessToTheirBase(rules: Rules, config: Config, es: seq<Event>, i: nat)
    requires InjectiveRevision(rules) && i < |Run(rules, Start(config), es).saves|
    ensures var x := Run(rules, Start(config), es).saves[i];
      rules.valid(x.saved) && SameBoundary(x.base, x.saved) && NoGain(x.base.workspaces, x.saved.workspaces)
  {
    RunKeepsInv(rules, Start(config), es);
    assert SaveOk(rules, Run(rules, Start(config), es).saves[i], Run(rules, Start(config), es).parked);
  }

  // --- No permission that was not there at the start -----------------------------------------------

  ghost predicate RemoteOnly(es: seq<Event>) {
    forall i :: 0 <= i < |es| ==> !es[i].LocalEdit?
  }

  /** Nothing outside the hot-reload boundary and no permission beyond `start`. */
  ghost predicate Within(start: Config, c: Config) {
    SameBoundary(start, c) && NoGain(start.workspaces, c.workspaces)
  }

  ghost predicate AllWithin(start: Config, s: State) {
    && Within(start, s.config)
    && forall call :: call in s.calls && s.calls[call].Save? ==> Within(start, s.calls[call].next)
  }

  lemma MergeStaysWithin(rules: Rules, start: Config, c: Config, ch: Changes)
    requires Within(start, c) && ApplyRemoteChanges(rules, c, ch).Merge?
    ensures Within(start, ApplyRemoteChanges(rules, c, ch).value)
  {
    AcceptedChangesAreHarmless(rules, c, ch);
  }

  lemma StepStaysWithin(rules: Rules, start: Config, s: State, e: Event)
    requires AllWithin(start, s) && !e.LocalEdit?
    ensures AllWithin(start, Step(rules, s, e))
  {
    match e
    case LoadUpdate(call, baseRevision, ch, fits) =>
      if ApplyRemoteChanges(rules, s.config, ch).Merge? { MergeStaysWithin(rules, start, s.config, ch); }
    case LoadApprove(call) =>
      if PlanOf(s, call).Load? && ApplyRemoteChanges(rules, s.config, PlanOf(s, call).record.changes).Merge? {
        MergeStaysWithin(rules, start, s.config, PlanOf(s, call).record.changes);
      }
    case _ =>
  }

  lemma {:induction false} RunStaysWithin(rules: Rules, start: Config, s: State, es: seq<Event>)
    requires AllWithin(start, s) && RemoteOnly(es)
    ensures AllWithin(start, Run(rules, s, es))
    decreases |es|
  {
    if es != [] {
      StepStaysWithin(rules, start, s, es[0]);
      RunStaysWithin(rules, start, Step(rules, s, es[0]), es[1..]);
    }
  }

  /** In every interleaving of remote updates, approvals and rejections, stale saves
      included: beginning with no call under way, the configuration never holds a permission
      that the first one did not, and never leaves the hot-reload boundary. */
  lemma RemoteRunsEscalateNothing(rules: Rules, s: State, es: seq<Event>)
    requires s.calls == map[] && RemoteOnly(es)
    ensures SameBoundary(s.config, Run(rules, s, es).config)
    ensures NoGain(s.config.workspaces, Run(rules, s, es).config.workspaces)
  {
    RunStaysWithin(rules, s.config, s, es);
  }

  /** In terms of the profiles: a workspace that may write at the end could at the start. */
  lemma NoWorkspaceGainsWrite(rules: Rules, s: State, es: seq<Event>, i: nat)
    requires s.calls == map[] && RemoteOnly(es) && KnownProfiles(s.config.workspaces) && i < |s.config.workspaces|
    ensures var end := Run(rules, s, es).config.workspaces;
      && |end| == |s.config.workspaces| && end[i].id == s.config.workspaces[i].id
      && (end[i].permissionProfile == WorkspaceWrite ==> s.config.workspaces[i].permissionProfile == WorkspaceWrite)
      && (end[i].allowNetwork ==> s.config.workspaces[i].allowNetwork)
  {
    RemoteRunsEscalateNothing(rules, s, es);
  }

  // --- A permission that was taken away can come back ---------------------------------------------

  /** Saving the change over `now` brings nothing back: every permission that its base has and
      the change does not take away is still there. A caller can check it before the save. */
  ghost predicate UpToDate(plan: Plan, now: Config)
    requires plan.Save?
  {
    |now.workspaces| == |plan.base.workspaces| && forall j :: 0 <= j < |now.workspaces| ==>
      var w := plan.base.workspaces[j];
      && (w.permissionProfile != ReadOnly && !LowersWrite(Items(plan.changes), w.id) ==> now.workspaces[j].permissionProfile != ReadOnly)
      && (w.allowNetwork && !LowersNetwork(Items(plan.changes), w.id) ==> now.workspaces[j].allowNetwork)
  }

  /** A save gains nothing over the configuration in place exactly when it is up to date with it. */
  lemma SaveGainsNothingExactlyWhen(rules: Rules, plan: Plan, now: Config)
    requires plan.Save? && ApplyRemoteChanges(rules, plan.base, plan.changes) == Merge(plan.next)
    ensures NoGain(now.workspaces, plan.next.workspaces) <==> UpToDate(plan, now)
  {
    AcceptedChangesAreHarmless(rules, plan.base, plan.changes);
    forall j | 0 <= j < |plan.base.workspaces|
      ensures var w, n := plan.base.workspaces[j], plan.next.workspaces[j];
        && (n.permissionProfile != ReadOnly <==> w.permissionProfile != ReadOnly && !LowersWrite(Items(plan.changes), w.id))
        && (n.allowNetwork <==> w.allowNetwork && !LowersNetwork(Items(plan.changes), w.id))
    {
      PermissionsOfAccepted(rules, plan.base, plan.changes, j);
    }
  }

  /** In particular when the file still holds what the call loaded. */
  lemma UndisturbedSaveIsUpToDate(plan: Plan, now: Config)
    requires plan.Save? && now == plan.base
    ensures UpToDate(plan, now)
  {
  }

  ghost predicate StaleSave(s: State, e: Event) {
    e.SaveConfig? && e.written && PlanOf(s, e.call).Save? && !UpToDate(PlanOf(s, e.call), s.config)
  }

  ghost predicate NoStaleSave(rules: Rules, s: State, es: seq<Event>)
    decreases |es|
  {
    es == [] || (!StaleSave(s, es[0]) && NoStaleSave(rules, Step(rules, s, es[0]), es[1..]))
  }

  /** No step of the run gives a workspace a permission that it lacked just before. */
  ghost predicate OnlyShrinks(rules: Rules, s: State, es: seq<Event>)
    decreases |es|
  {
    es == [] || (NoGain(s.config.workspaces, Step(rules, s, es[0]).config.workspaces) && OnlyShrinks(rules, Step(rules, s, es[0]), es[1..]))
  }

  lemma StepGainsExactlyWhen(rules: Rules, s: State, e: Event)
    requires Inv(rules, s) && !e.LocalEdit?
    ensures NoGain(s.config.workspaces, Step(rules, s, e).config.workspaces) <==> !StaleSave(s, e)
  {
    if e.SaveConfig? && PlanOf(s, e.call).Save? {
      assert PlanOk(rules, s.calls[e.call], s.parked);
      SaveGainsNothingExactlyWhen(rules, PlanOf(s, e.call), s.config);
    }
  }

  /** For every remote run: its permissions only ever shrink, step by step, exactly when none
      of its saves is stale. */
  lemma {:induction false} PermissionsOnlyShrinkExactlyWhen(rules: Rules, s: State, es: seq<Event>)
    requires InjectiveRevision(rules) && Inv(rules, s) && RemoteOnly(es)
    ensures OnlyShrinks(rules, s, es) <==> NoStaleSave(rules, s, es)
    decreases |es|
  {
    if es != [] {
      StepGainsExactlyWhen(rules, s, es[0]);
      StepKeepsInv(rules, s, es[0]);
      PermissionsOnlyShrinkExactlyWhen(rules, Step(rules, s, es[0]), es[1..]);
    }
  }

  lemma {:induction false} RunSplits(rules: Rules, s: State, front: seq<Event>, back: seq<Event>)
    ensures Run(rules, s, front + back) == Run(rules, Run(rules, s, front), back)
    decreases |front|
  {
    if front == [] {
      assert front + back == back;
    } else {
      assert (front + back)[1..] == front[1..] + back;
      RunSplits(rules, Step(rules, s, front[0]), front[1..], back);
    }
  }

  lemma RunOfOne(rules: Rules, s: State, e: Event)
    ensures Run(rules, s, [e]) == Step(rules, s, e)
  {
    assert Run(rules, Step(rules, s, e), []) == Step(rules, s, e);
  }

  /** A change is parked, and an update loads the file. */
  function Parking(revision: string, parked: Changes, update: Changes): seq<Event> {
    [LoadUpdate(0, revision, parked, true)] + [ParkChange(0, 0, true)] + [LoadUpdate(1, revision, update, true)]
  }

  /** Then the change is approved. */
  function Approval(revision: string, parked: Changes, update: Changes): seq<Event> {
    Parking(revision, parked, update) + ([ReadChange(2, 0)] + [LoadApprove(2)] + [SaveConfig(2, true, true)])
  }

  /** Both changes are accepted; only the first needs an approval. */
  predicate BothAccepted(rules: Rules, c: Config, parked: Changes, update: Changes) {
    && rules.revision(c) != "" && Sensitive(parked) && !Sensitive(update)
    && ApplyRemoteChanges(rules, c, parked).Merge? && ApplyRemoteChanges(rules, c, update).Merge?
  }

  lemma ParkingRuns(rules: Rules, c: Config, parked: Changes, update: Changes)
    requires BothAccepted(rules, c, parked, update)
    ensures var s := Run(rules, Start(c), Parking(rules.revision(c), parked, update));
      && s.config == c && s.records == map[0 := Record(rules.revision(c), parked, Pending, 0)] && s.clock == 0
      && s.calls == map[0 := Nothing, 1 := Save(c, ApplyRemoteChanges(rules, c, update).value, update, None)]
  {
    var revision := rules.revision(c);
    var e0, e1, e2 := LoadUpdate(0, revision, parked, true), ParkChange(0, 0, true), LoadUpdate(1, revision, update, true);
    var s0 := Step(rules, Start(c), e0);
    assert s0.calls == map[0 := Park(c, ApplyRemoteChanges(rules, c, parked).value, revision, parked)];
    var s1 := Step(rules, s0, e1);
    assert s1.records == map[0 := Record(revision, parked, Pending, 0)] && s1.config == c && s1.calls == map[0 := Nothing] && s1.clock == 0;
    RunOfOne(rules, Start(c), e0);
    RunSplits(rules, Start(c), [e0], [e1]);
    RunOfOne(rules, s0, e1);
    RunSplits(rules, Start(c), [e0] + [e1], [e2]);
    RunOfOne(rules, s1, e2);
  }

  lemma ApprovalRuns(rules: Rules, c: Config, parked: Changes, update: Changes)
    requires BothAccepted(rules, c, parked, update)
    ensures var s := Run(rules, Start(c), Approval(rules.revision(c), parked, update));
      && s.config == ApplyRemoteChanges(rules, c, parked).value
      && PlanOf(s, 1) == Save(c, ApplyRemoteChanges(rules, c, update).value, update, None)
  {
    var revision, less := rules.revision(c), ApplyRemoteChanges(rules, c, parked).value;
    var e3, e4, e5 := ReadChange(2, 0), LoadApprove(2), SaveConfig(2, true, true);
    ParkingRuns(rules, c, parked, update);
    var s2 := Run(rules, Start(c), Parking(revision, parked, update));
    var s3 := Step(rules, s2, e3);
    assert s3 == s2.(calls := s2.calls[2 := Load(0, s2.records[0])]);
    var s4 := Step(rules, s3, e4);
    assert s4 == s3.(calls := s3.calls[2 := Save(c, less, parked, Some(0))]);
    RunOfOne(rules, s2, e3);
    RunSplits(rules, s2, [e3], [e4]);
    RunOfOne(rules, s3, e4);
    RunSplits(rules, s2, [e3] + [e4], [e5]);
    RunOfOne(rules, s4, e5);
    RunSplits(rules, Start(c), Parking(revision, parked, update), [e3] + [e4] + [e5]);
  }

  /** Whatever the two changes are: the update saves over the approved change, which is lost. */
  lemma StaleUpdateUndoesApproval(rules: Rules, c: Config, parked: Changes, update: Changes)
    requires BothAccepted(rules, c, parked, update)
    ensures var approved := Run(rules, Start(c), Approval(rules.revision(c), parked, update));
      && approved.config == ApplyRemoteChanges(rules, c, parked).value
      && Step(rules, approved, SaveConfig(1, true, true)).config == ApplyRemoteChanges(rules, c, update).value
  {
    ApprovalRuns(rules, c, parked, update);
  }

  const NO_CHANGE: Changes := Changes(1, ConfigController.Missing, ConfigController.Missing, ConfigController.Missing,
    ConfigController.Missing, ConfigController.Missing, ConfigController.Missing, ConfigController.Missing)

  /** A writable workspace; the parked change makes it read-only, the update renames the
      host. After the approval the workspace is read-only, and after the update it may write again. */
  lemma StaleUpdateRestoresWrite(rules: Rules, c: Config, w: Workspace, name: string)
    requires rules.revision(c) != "" && c.workspaces == [w] && w.permissionProfile == WorkspaceWrite
    requires rules.valid(c.(host := c.host.(name := name))) && rules.valid(c.(workspaces := [w.(permissionProfile := ReadOnly)]))
    ensures var update := NO_CHANGE.(hostName := Given(name));
      var parked := NO_CHANGE.(workspaces := Given([WorkspaceChange(w.id, None, Some(ToReadOnly), None)]));
      var approved := Run(rules, Start(c), Approval(rules.revision(c), parked, update));
      var after := Step(rules, approved, SaveConfig(1, true, true));
      && approved.config.workspaces == [w.(permissionProfile := ReadOnly)] && after.config.workspaces == [w]
      && !NoGain(approved.config.workspaces, after.config.workspaces) && StaleSave(approved, SaveConfig(1, true, true))
  {
    var item := WorkspaceChange(w.id, None, Some(ToReadOnly), None);
    var update, parked := NO_CHANGE.(hostName := Given(name)), NO_CHANGE.(workspaces := Given([item]));
    ApplyItemPointwise([w], item);
    assert [w][0].id == item.id;
    assert ApplyItem([w], item).Merge? && ApplyItem([w], item).value == [w.(permissionProfile := ReadOnly)];
    assert ApplyItems([w], [item]) == ApplyItems(ApplyItem([w], item).value, []);
    assert Scalars(c, update).(workspaces := c.workspaces) == c.(host := c.host.(name := name));
    assert Scalars(c, parked).(workspaces := [w.(permissionProfile := ReadOnly)]) == c.(workspaces := [w.(permissionProfile := ReadOnly)]);
    ApprovalRuns(rules, c, parked, update);
    var approved := Run(rules, Start(c), Approval(rules.revision(c), parked, update));
    assert approved.config.workspaces[0].permissionProfile == ReadOnly;
    SaveGainsNothingExactlyWhen(rules, PlanOf(approved, 1), approved.config);
  }
}
