/** Remote configuration changes: reading a change set and merging it
    (internal/node/config_controller.go) and the hot-reload boundary
    (sameRuntimeBoundary in internal/node/host.go). */
module ConfigController {
  import opened Prelude
  import opened NodeConfig

  // --- Reading change sets ------------------------------------------------------

  /** A field of a change set: not there, of the wrong kind, or given. */
  datatype Field<+T> = Missing | Malformed | Given(value: T)

  datatype ProfileChange = ToReadOnly | ToWorkspaceWrite

  datatype WorkspaceChange = WorkspaceChange(
    id: string, displayName: Option<string>, permissionProfile: Option<ProfileChange>, allowNetwork: Option<bool>)

  /** `count` is the number of keys, known or not. */
  datatype Changes = Changes(
    count: nat, hostName: Field<string>, relayUrl: Field<string>, proxyUrl: Field<string>, connectTimeoutSeconds: Field<int>,
    eventsMaxAgeHours: Field<int>, eventsMaxSizeMiB: Field<int>, workspaces: Field<seq<WorkspaceChange>>)

  predicate Blank(text: string) {
    forall i :: 0 <= i < |text| ==> text[i] in {' ', '\t', '\n', '\r'}
  }

  function StringChange(value: Json): Field<string> {
    if value.JString? && !Blank(value.text) && |value.text| <= 4096 then Given(value.text) else Malformed
  }

  function OptionalStringChange(value: Json): Field<string> {
    if value.JNull? then Given("") else if value.JString? && |value.text| <= 4096 then Given(value.text) else Malformed
  }

  function IntChange(value: Json): Field<int> {
    if value.JNumber? && value.number == value.number.Floor as real && -0x8000_0000_0000_0000 <= value.number.Floor < 0x8000_0000_0000_0000
    then Given(value.number.Floor) else Malformed
  }

  function Optional(item: map<string, Json>, name: string, read: Json -> Field<string>): Field<string> {
    if name in item then read(item[name]) else Missing
  }

  function ReadProfile(item: map<string, Json>): Field<ProfileChange> {
    if "permissionProfile" !in item then Missing
    else
      match StringChange(item["permissionProfile"])
      case Given(text) => if text == "read-only" then Given(ToReadOnly) else if text == "workspace-write" then Given(ToWorkspaceWrite) else Malformed
      case _ => Malformed
  }

  function Opt<T>(f: Field<T>): Option<T> { if f.Given? then Some(f.value) else None }

  function ReadWorkspaceChange(raw: Json): Option<WorkspaceChange> {
    if !raw.JObject? || "id" !in raw.fields then None
    else
      var item := raw.fields;
      var id := StringChange(item["id"]);
      var name := Optional(item, "displayName", StringChange);
      var profile := ReadProfile(item);
      var network := if "allowNetwork" !in item then Missing else if item["allowNetwork"].JBool? then Given(item["allowNetwork"].flag) else Malformed;
      if id.Malformed? || name.Malformed? || profile.Malformed? || network.Malformed? then None
      else if id.Missing? || (name.Missing? && profile.Missing? && network.Missing?) then None
      else Some(WorkspaceChange(id.value, Opt(name), Opt(profile), Opt(network)))
  }

  function ReadWorkspaceItems(items: seq<Json>): (r: Option<seq<WorkspaceChange>>)
    ensures r.Some? ==> |r.value| == |items|
    ensures r.Some? ==> forall i :: 0 <= i < |items| ==> ReadWorkspaceChange(items[i]) == Some(r.value[i])
    ensures r.None? <==> exists i :: 0 <= i < |items| && ReadWorkspaceChange(items[i]).None?
  {
    if items == [] then Some([])
    else
      var first, rest := ReadWorkspaceChange(items[0]), ReadWorkspaceItems(items[1..]);
      if first.None? || rest.None? then None else Some([first.value] + rest.value)
  }

  function WorkspaceChanges(value: Json): Field<seq<WorkspaceChange>> {
    if !value.JArray? || value.items == [] then Malformed
    else
      var items := ReadWorkspaceItems(value.items);
      if items.None? then Malformed else Given(items.value)
  }

  function ReadChanges(changes: map<string, Json>): Changes {
    var number := (name: string) => if name in changes then IntChange(changes[name]) else Missing;
    Changes(|changes|, Optional(changes, "hostName", StringChange), Optional(changes, "relayUrl", StringChange),
            Optional(changes, "proxyUrl", OptionalStringChange), number("connectTimeoutSeconds"),
            number("eventsMaxAgeHours"), number("eventsMaxSizeMiB"),
            if "workspaces" in changes then WorkspaceChanges(changes["workspaces"]) else Missing)
  }

  // --- The merge ------------------------------------------------------------------

  datatype ChangeError = InvalidChange | PermissionEscalation | NetworkEscalation | UnknownWorkspace | InvalidConfig

  datatype Merged<+T> = Merge(value: T) | Refused(error: ChangeError)

  /** One item applied to the workspace it names. */
  function UpdateWorkspace(w: Workspace, item: WorkspaceChange): Merged<Workspace> {
    var named := if item.displayName.Some? then w.(displayName := item.displayName.value) else w;
    if item.permissionProfile == Some(ToWorkspaceWrite) && w.permissionProfile == ReadOnly then Refused(PermissionEscalation)
    else
      var profiled := match item.permissionProfile
        case None => named
        case Some(ToReadOnly) => named.(permissionProfile := ReadOnly)
        case Some(ToWorkspaceWrite) => named.(permissionProfile := WorkspaceWrite);
      match item.allowNetwork
      case None => Merge(profiled)
      case Some(true) => Refused(NetworkEscalation)
      case Some(false) => Merge(profiled.(allowNetwork := false))
  }

  function Named(ws: seq<Workspace>, id: string): bool {
    exists i :: 0 <= i < |ws| && ws[i].id == id
  }

  /** One item applied to every workspace from index `i` on that it names. */
  function UpdateFrom(ws: seq<Workspace>, item: WorkspaceChange, i: nat): Merged<seq<Workspace>>
    requires i <= |ws|
    decreases |ws| - i
  {
    if i == |ws| then Merge(ws)
    else if ws[i].id != item.id then UpdateFrom(ws, item, i + 1)
    else
      match UpdateWorkspace(ws[i], item)
      case Refused(error) => Refused(error)
      case Merge(w) => UpdateFrom(ws[i := w], item, i + 1)
  }

  function ApplyItem(ws: seq<Workspace>, item: WorkspaceChange): Merged<seq<Workspace>> {
    match UpdateFrom(ws, item, 0)
    case Refused(error) => Refused(error)
    case Merge(next) => if Named(ws, item.id) then Merge(next) else Refused(UnknownWorkspace)
  }

  function ApplyItems(ws: seq<Workspace>, items: seq<WorkspaceChange>): Merged<seq<Workspace>>
    decreases |items|
  {
    if items == [] then Merge(ws)
    else
      match ApplyItem(ws, items[0])
      case Refused(error) => Refused(error)
      case Merge(next) => ApplyItems(next, items[1..])
  }

  function Or<T>(f: Field<T>, old_: T): T { if f.Given? then f.value else old_ }

  predicate WellFormed(ch: Changes) {
    ch.count > 0 && ScalarsWellFormed(ch) && !ch.workspaces.Malformed?
  }

  predicate Sensitive(ch: Changes) {
    ch.relayUrl.Given? || ch.proxyUrl.Given? || ch.workspaces.Given?
  }

  /** The scalar fields of the result. */
  function Scalars(c: Config, ch: Changes): Config {
    c.(host := c.host.(name := Or(ch.hostName, c.host.name)),
       relay := c.relay.(url := Or(ch.relayUrl, c.relay.url), proxyURL := Or(ch.proxyUrl, c.relay.proxyURL),
                         connectTimeoutSeconds := Or(ch.connectTimeoutSeconds, c.relay.connectTimeoutSeconds)),
       events := Events(Or(ch.eventsMaxAgeHours, c.events.maxAgeHours), Or(ch.eventsMaxSizeMiB, c.events.maxSizeMiB)))
  }

  /** The validator `config.Validate`, and the digest `configRevision` takes of a configuration. */
  datatype Rules = Rules(valid: Config -> bool, revision: Config -> string)

  function ApplyRemoteChanges(rules: Rules, current: Config, ch: Changes): Merged<Config> {
    if !WellFormed(ch) then Refused(InvalidChange)
    else
      match ApplyItems(current.workspaces, Items(ch))
      case Refused(error) => Refused(error)
      case Merge(ws) =>
        var next := Scalars(current, ch).(workspaces := ws);
        if rules.valid(next) then Merge(next) else Refused(InvalidConfig)
  }

  // --- The merge as the source runs it: in place, on the caller's slice ------------------

  /** The body of the inner loop. A refused change may already have renamed the workspace
      or lowered its profile in the slice. */
  method UpdateInPlace(ws: array<Workspace>, index: nat, item: WorkspaceChange) returns (error: Option<ChangeError>)
    requires index < ws.Length
    modifies ws
    ensures error == match UpdateWorkspace(old(ws[index]), item) case Merge(_) => None case Refused(e) => Some(e)
    ensures error.None? ==> ws[..] == old(ws[..])[index := UpdateWorkspace(old(ws[index]), item).value]
    ensures Harmless(old(ws[..]), ws[..])
  {
    if item.displayName.Some? {
      ws[index] := ws[index].(displayName := item.displayName.value);
    }
    if item.permissionProfile.Some? {
      if ws[index].permissionProfile == ReadOnly && item.permissionProfile.value == ToWorkspaceWrite {
        return Some(PermissionEscalation);
      }
      ws[index] := ws[index].(permissionProfile := if item.permissionProfile.value == ToReadOnly then ReadOnly else WorkspaceWrite);
    }
    if item.allowNetwork.Some? {
      if item.allowNetwork.value {
        return Some(NetworkEscalation);
      }
      ws[index] := ws[index].(allowNetwork := false);
    }
    return None;
  }

  method ApplyItemInPlace(ws: array<Workspace>, item: WorkspaceChange) returns (error: Option<ChangeError>)
    modifies ws
    ensures error == match ApplyItem(old(ws[..]), item) case Merge(_) => None case Refused(e) => Some(e)
    ensures error.None? ==> ws[..] == ApplyItem(old(ws[..]), item).value
    ensures Harmless(old(ws[..]), ws[..])
  {
    ghost var start := ws[..];
    var found := false;
    var index := 0;
    while index < ws.Length
      invariant index <= ws.Length
      invariant UpdateFrom(ws[..], item, index) == UpdateFrom(start, item, 0)
      invariant Harmless(start, ws[..])
      invariant found <==> exists i :: 0 <= i < index && start[i].id == item.id
    {
      ghost var now := ws[..];
      if ws[index].id == item.id {
        found := true;
        assert start[index].id == item.id;
        error := UpdateInPlace(ws, index, item);
        if error.Some? { return; }
      }
      index := index + 1;
    }
    if !found { return Some(UnknownWorkspace); }
    return None;
  }

  predicate ScalarsWellFormed(ch: Changes) {
    && !ch.hostName.Malformed? && !ch.relayUrl.Malformed? && !ch.proxyUrl.Malformed? && !ch.connectTimeoutSeconds.Malformed?
    && !ch.eventsMaxAgeHours.Malformed? && !ch.eventsMaxSizeMiB.Malformed?
  }

  /** The scalar fields, one after the other, up to the first malformed one. */
  method ApplyScalars(current: Config, ch: Changes) returns (next: Option<Config>, sensitive: bool)
    ensures next == if ScalarsWellFormed(ch) then Some(Scalars(current, ch)) else None
    ensures next.Some? ==> sensitive == (ch.relayUrl.Given? || ch.proxyUrl.Given?)
  {
    sensitive := false;
    var host, relay, events := current.host, current.relay, current.events;
    if !ch.hostName.Missing? {
      if ch.hostName.Malformed? { return None, false; }
      host := host.(name := ch.hostName.value);
    }
    if !ch.relayUrl.Missing? {
      if ch.relayUrl.Malformed? { return None, false; }
      relay := relay.(url := ch.relayUrl.value);
      sensitive := true;
    }
    if !ch.proxyUrl.Missing? {
      if ch.proxyUrl.Malformed? { return None, false; }
      relay := relay.(proxyURL := ch.proxyUrl.value);
      sensitive := true;
    }
    if !ch.connectTimeoutSeconds.Missing? {
      if ch.connectTimeoutSeconds.Malformed? { return None, false; }
      relay := relay.(connectTimeoutSeconds := ch.connectTimeoutSeconds.value);
    }
    if !ch.eventsMaxAgeHours.Missing? {
      if ch.eventsMaxAgeHours.Malformed? { return None, false; }
      events := events.(maxAgeHours := ch.eventsMaxAgeHours.value);
    }
    if !ch.eventsMaxSizeMiB.Missing? {
      if ch.eventsMaxSizeMiB.Malformed? { return None, false; }
      events := events.(maxSizeMiB := ch.eventsMaxSizeMiB.value);
    }
    next := Some(current.(host := host, relay := relay, events := events));
  }

  /** The whole merge. `ws` is the slice that `current` and the result share: after a
      success it holds the new workspaces, so the caller's loaded configuration now shows
      them too, and after a refusal it may hold part of the change. */
  method ApplyInPlace(rules: Rules, current: Config, ws: array<Workspace>, ch: Changes) returns (r: Merged<Config>, sensitive: bool)
    requires ws[..] == current.workspaces
    modifies ws
    ensures r == ApplyRemoteChanges(rules, current, ch)
    ensures r.Merge? ==> sensitive == Sensitive(ch) && ws[..] == r.value.workspaces
    ensures Harmless(current.workspaces, ws[..])
  {
    if ch.count == 0 { return Refused(InvalidChange), false; }
    var scalars;
    scalars, sensitive := ApplyScalars(current, ch);
    if scalars.None? { return Refused(InvalidChange), false; }
    if !ch.workspaces.Missing? {
      if ch.workspaces.Malformed? { return Refused(InvalidChange), false; }
      var error := ApplyItemsInPlace(ws, ch.workspaces.value);
      if error.Some? { return Refused(error.value), false; }
      sensitive := true;
    }
    var next := scalars.value.(workspaces := ws[..]);
    if !rules.valid(next) { return Refused(InvalidConfig), false; }
    return Merge(next), sensitive;
  }

  method ApplyItemsInPlace(ws: array<Workspace>, items: seq<WorkspaceChange>) returns (error: Option<ChangeError>)
    modifies ws
    ensures error == match ApplyItems(old(ws[..]), items) case Merge(_) => None case Refused(e) => Some(e)
    ensures error.None? ==> ws[..] == ApplyItems(old(ws[..]), items).value
    ensures Harmless(old(ws[..]), ws[..])
  {
    ghost var start := ws[..];
    var k := 0;
    while k < |items|
      invariant k <= |items|
      invariant ApplyItems(ws[..], items[k..]) == ApplyItems(start, items)
      invariant Harmless(start, ws[..])
    {
      assert items[k..][1..] == items[k + 1..];
      error := ApplyItemInPlace(ws, items[k]);
      if error.Some? { return; }
      k := k + 1;
    }
    return None;
  }

  // --- No escalation -----------------------------------------------------------------------

  ghost predicate KnownProfiles(ws: seq<Workspace>) {
    forall i :: 0 <= i < |ws| ==> ws[i].permissionProfile == ReadOnly || ws[i].permissionProfile == WorkspaceWrite
  }

  /** No workspace has a permission in `after` that it lacked in `before`. */
  ghost predicate NoGain(before: seq<Workspace>, after: seq<Workspace>) {
    |before| == |after| && forall i :: 0 <= i < |before| ==>
      && (after[i].permissionProfile != ReadOnly ==> before[i].permissionProfile != ReadOnly)
      && (after[i].allowNetwork ==> before[i].allowNetwork)
  }

  /** Everything a remote change must leave alone in the workspaces. */
  ghost predicate SameIdentities(before: seq<Workspace>, after: seq<Workspace>) {
    |before| == |after| && forall i :: 0 <= i < |before| ==>
      && after[i].id == before[i].id && after[i].path == before[i].path
      && after[i].allowedAgentInstances == before[i].allowedAgentInstances && after[i].defaultAgentInstance == before[i].defaultAgentInstance
  }

  ghost predicate Harmless(before: seq<Workspace>, after: seq<Workspace>) {
    NoGain(before, after) && SameIdentities(before, after)
  }

  lemma {:induction false} UpdateFromIsHarmless(ws: seq<Workspace>, item: WorkspaceChange, i: nat)
    requires i <= |ws| && UpdateFrom(ws, item, i).Merge?
    ensures Harmless(ws, UpdateFrom(ws, item, i).value)
    decreases |ws| - i
  {
    if i < |ws| {
      if ws[i].id != item.id {
        UpdateFromIsHarmless(ws, item, i + 1);
      } else {
        UpdateFromIsHarmless(ws[i := UpdateWorkspace(ws[i], item).value], item, i + 1);
      }
    }
  }

  /** However often a list names a workspace, the merged list gains nothing. */
  lemma {:induction false} ApplyItemsIsHarmless(ws: seq<Workspace>, items: seq<WorkspaceChange>)
    requires ApplyItems(ws, items).Merge?
    ensures Harmless(ws, ApplyItems(ws, items).value)
    decreases |items|
  {
    if items != [] {
      UpdateFromIsHarmless(ws, items[0], 0);
      ApplyItemsIsHarmless(ApplyItem(ws, items[0]).value, items[1..]);
    }
  }

  // --- Item lists, workspace by workspace --------------------------------------------------------

  /** What an item sets on the workspace it names, if it is let through. */
  function Touched(w: Workspace, item: WorkspaceChange): Workspace {
    if w.id != item.id then w
    else w.(displayName := if item.displayName.Some? then item.displayName.value else w.displayName,
            permissionProfile := match item.permissionProfile case None => w.permissionProfile case Some(ToReadOnly) => ReadOnly case Some(ToWorkspaceWrite) => WorkspaceWrite,
            allowNetwork := if item.allowNetwork.Some? then false else w.allowNetwork)
  }

  /** What the items together make of one workspace: later ones override earlier ones. */
  function Effect(w: Workspace, items: seq<WorkspaceChange>): Workspace
    decreases |items|
  {
    if items == [] then w else Effect(Touched(w, items[0]), items[1..])
  }

  predicate AsksWrite(item: WorkspaceChange) { item.permissionProfile == Some(ToWorkspaceWrite) }

  predicate Permits(w: Workspace, item: WorkspaceChange) {
    w.id == item.id ==> !(AsksWrite(item) && w.permissionProfile == ReadOnly) && item.allowNetwork != Some(true)
  }

  lemma {:induction false} UpdateFromPointwise(ws: seq<Workspace>, item: WorkspaceChange, i: nat)
    requires i <= |ws|
    ensures UpdateFrom(ws, item, i).Merge? <==> forall j :: i <= j < |ws| ==> Permits(ws[j], item)
    ensures UpdateFrom(ws, item, i).Merge? ==>
      var next := UpdateFrom(ws, item, i).value;
      |next| == |ws| && forall j :: 0 <= j < |ws| ==> next[j] == if i <= j then Touched(ws[j], item) else ws[j]
    decreases |ws| - i
  {
    if i < |ws| {
      if ws[i].id != item.id {
        UpdateFromPointwise(ws, item, i + 1);
      } else if Permits(ws[i], item) {
        assert UpdateWorkspace(ws[i], item) == Merge(Touched(ws[i], item));
        var t := ws[i := Touched(ws[i], item)];
        UpdateFromPointwise(t, item, i + 1);
        assert forall j :: i + 1 <= j < |ws| ==> Permits(t[j], item) == Permits(ws[j], item);
      }
    }
  }

  lemma ApplyItemPointwise(ws: seq<Workspace>, item: WorkspaceChange)
    ensures ApplyItem(ws, item).Merge? <==> Named(ws, item.id) && forall j :: 0 <= j < |ws| ==> Permits(ws[j], item)
    ensures ApplyItem(ws, item).Merge? ==>
      var next := ApplyItem(ws, item).value;
      |next| == |ws| && forall j :: 0 <= j < |ws| ==> next[j] == Touched(ws[j], item)
  {
    UpdateFromPointwise(ws, item, 0);
  }

  /** The nested loops over items and workspaces, with their writes into one slice, come to
      the same as treating every workspace by itself. */
  lemma {:induction false} ItemsActPointwise(ws: seq<Workspace>, items: seq<WorkspaceChange>)
    requires ApplyItems(ws, items).Merge?
    ensures var next := ApplyItems(ws, items).value;
      |next| == |ws| && forall j :: 0 <= j < |ws| ==> next[j] == Effect(ws[j], items)
    decreases |items|
  {
    if items != [] {
      ApplyItemPointwise(ws, items[0]);
      ItemsActPointwise(ApplyItem(ws, items[0]).value, items[1..]);
    }
  }

  /** Item `k` names a workspace, does not ask for the network, and asks for write only where
      the items before it left write in place. */
  ghost predicate ItemAllowed(ws: seq<Workspace>, items: seq<WorkspaceChange>, k: nat)
    requires k < |items|
  {
    && Named(ws, items[k].id) && items[k].allowNetwork != Some(true)
    && (AsksWrite(items[k]) ==> forall j :: 0 <= j < |ws| && ws[j].id == items[k].id ==> Effect(ws[j], items[..k]).permissionProfile != ReadOnly)
  }

  lemma LaterItemAllowed(ws: seq<Workspace>, next: seq<Workspace>, items: seq<WorkspaceChange>, k: nat)
    requires k + 1 < |items| && |next| == |ws| && forall j :: 0 <= j < |ws| ==> next[j] == Touched(ws[j], items[0])
    ensures ItemAllowed(next, items[1..], k) <==> ItemAllowed(ws, items, k + 1)
  {
    assert items[..k + 1][1..] == items[1..][..k];
    assert forall j :: 0 <= j < |ws| ==> next[j].id == ws[j].id && Effect(next[j], items[1..][..k]) == Effect(ws[j], items[..k + 1]);
    assert Named(next, items[k + 1].id) <==> Named(ws, items[k + 1].id) by {
      if i :| 0 <= i < |ws| && ws[i].id == items[k + 1].id { assert next[i].id == items[k + 1].id; }
      if i :| 0 <= i < |next| && next[i].id == items[k + 1].id { assert ws[i].id == items[k + 1].id; }
    }
  }

  lemma FirstItemAllowed(ws: seq<Workspace>, items: seq<WorkspaceChange>)
    requires items != []
    ensures ItemAllowed(ws, items, 0) <==> ApplyItem(ws, items[0]).Merge?
  {
    ApplyItemPointwise(ws, items[0]);
    assert forall j :: 0 <= j < |ws| ==> Effect(ws[j], items[..0]) == ws[j];
    if Named(ws, items[0].id) {
      var i :| 0 <= i < |ws| && ws[i].id == items[0].id;
      assert items[0].allowNetwork == Some(true) ==> !Permits(ws[i], items[0]);
    }
  }

  /** A list is accepted exactly when each of its items is. */
  lemma {:induction false} AcceptedExactlyWhen(ws: seq<Workspace>, items: seq<WorkspaceChange>)
    ensures ApplyItems(ws, items).Merge? <==> forall k :: 0 <= k < |items| ==> ItemAllowed(ws, items, k)
    decreases |items|
  {
    if items != [] {
      FirstItemAllowed(ws, items);
      if ItemAllowed(ws, items, 0) {
        var next, rest := ApplyItem(ws, items[0]).value, items[1..];
        ApplyItemPointwise(ws, items[0]);
        AcceptedExactlyWhen(next, rest);
        forall k | 0 <= k < |rest| ensures ItemAllowed(next, rest, k) <==> ItemAllowed(ws, items, k + 1) {
          LaterItemAllowed(ws, next, items, k);
        }
        if forall k :: 0 <= k < |rest| ==> ItemAllowed(next, rest, k) {
          forall k | 0 <= k < |items| ensures ItemAllowed(ws, items, k) {
            if k > 0 { assert ItemAllowed(next, rest, k - 1); }
          }
        } else {
          var k :| 0 <= k < |rest| && !ItemAllowed(next, rest, k);
          assert !ItemAllowed(ws, items, k + 1);
        }
      }
    }
  }

  /** Some item takes write from the workspace of this ID, or rules on its network flag
      (which an accepted item can only clear). */
  predicate LowersWrite(items: seq<WorkspaceChange>, id: string) {
    exists k :: 0 <= k < |items| && items[k].id == id && items[k].permissionProfile == Some(ToReadOnly)
  }

  predicate LowersNetwork(items: seq<WorkspaceChange>, id: string) {
    exists k :: 0 <= k < |items| && items[k].id == id && items[k].allowNetwork.Some?
  }

  predicate PermitsAll(w: Workspace, items: seq<WorkspaceChange>)
    decreases |items|
  {
    items == [] || (Permits(w, items[0]) && PermitsAll(Touched(w, items[0]), items[1..]))
  }

  lemma {:induction false} AcceptedPermitsAll(ws: seq<Workspace>, items: seq<WorkspaceChange>, j: nat)
    requires ApplyItems(ws, items).Merge? && j < |ws|
    ensures PermitsAll(ws[j], items)
    decreases |items|
  {
    if items != [] {
      ApplyItemPointwise(ws, items[0]);
      AcceptedPermitsAll(ApplyItem(ws, items[0]).value, items[1..], j);
    }
  }

  lemma LowersSplit(items: seq<WorkspaceChange>, id: string)
    requires items != []
    ensures LowersWrite(items, id) <==> LowersWrite(items[1..], id) || (items[0].id == id && items[0].permissionProfile == Some(ToReadOnly))
    ensures LowersNetwork(items, id) <==> LowersNetwork(items[1..], id) || (items[0].id == id && items[0].allowNetwork.Some?)
  {
    var rest := items[1..];
    if k :| 0 <= k < |rest| && rest[k].id == id && rest[k].permissionProfile == Some(ToReadOnly) { assert items[k + 1] == rest[k]; }
    if k :| 0 <= k < |items| && items[k].id == id && items[k].permissionProfile == Some(ToReadOnly) { assert k > 0 ==> rest[k - 1] == items[k]; }
    if k :| 0 <= k < |rest| && rest[k].id == id && rest[k].allowNetwork.Some? { assert items[k + 1] == rest[k]; }
    if k :| 0 <= k < |items| && items[k].id == id && items[k].allowNetwork.Some? { assert k > 0 ==> rest[k - 1] == items[k]; }
  }

  /** A workspace keeps a permission through accepted items exactly when it had it and no
      item takes it away. */
  lemma {:induction false} PermissionsAfter(w: Workspace, items: seq<WorkspaceChange>)
    requires PermitsAll(w, items)
    ensures Effect(w, items).permissionProfile != ReadOnly <==> w.permissionProfile != ReadOnly && !LowersWrite(items, w.id)
    ensures Effect(w, items).allowNetwork <==> w.allowNetwork && !LowersNetwork(items, w.id)
    decreases |items|
  {
    if items != [] {
      PermissionsAfter(Touched(w, items[0]), items[1..]);
      LowersSplit(items, w.id);
    }
  }

  function Items(ch: Changes): seq<WorkspaceChange> {
    if ch.workspaces.Given? then ch.workspaces.value else []
  }

  // --- The hot-reload boundary ------------------------------------------------------------------

  /** Equal outside host, relay, events and each workspace's name, profile and network flag. */
  ghost predicate SameBoundary(left: Config, right: Config) {
    && left.configVersion == right.configVersion && left.mode == right.mode && left.identity == right.identity
    && left.agentInstances == right.agentInstances && SameIdentities(left.workspaces, right.workspaces)
  }

  const NO_HOST: Host := Host("", "")
  const NO_RELAY: RelayConfig := RelayConfig("", "", "", 0, "", "")
  const NO_EVENTS: Events := Events(0, 0)

  function Masked(w: Workspace): Workspace {
    w.(displayName := "", permissionProfile := OtherProfile(""), allowNetwork := false)
  }

  lemma MaskingKeepsIdentities(left: seq<Workspace>, right: seq<Workspace>, l: seq<Workspace>, r: seq<Workspace>)
    requires |left| == |right| == |l| == |r|
    requires forall i :: 0 <= i < |left| ==> l[i] == Masked(left[i]) && r[i] == Masked(right[i])
    ensures SameIdentities(left, right) <==> l == r
  {
    if l == r {
      forall i | 0 <= i < |left| ensures Masked(left[i]) == Masked(right[i]) { assert l[i] == r[i]; }
    }
  }

  /** Masks copies of both configurations field by field and compares what is left. */
  method SameRuntimeBoundary(left: Config, right: Config) returns (same: bool)
    ensures same <==> SameBoundary(left, right)
    ensures same <==>
      && left.configVersion == right.configVersion && left.mode == right.mode && left.identity == right.identity
      && left.agentInstances == right.agentInstances && |left.workspaces| == |right.workspaces|
      && forall i :: 0 <= i < |left.workspaces| ==>
           var l, r := left.workspaces[i], right.workspaces[i];
           && l.id == r.id && l.path == r.path
           && l.allowedAgentInstances == r.allowedAgentInstances && l.defaultAgentInstance == r.defaultAgentInstance
  {
    var l, r := left.(host := NO_HOST, relay := NO_RELAY, events := NO_EVENTS), right.(host := NO_HOST, relay := NO_RELAY, events := NO_EVENTS);
    if |l.workspaces| != |r.workspaces| { return false; }
    var index := 0;
    while index < |l.workspaces|
      invariant index <= |l.workspaces| == |left.workspaces| == |r.workspaces| == |right.workspaces|
      invariant l == left.(host := NO_HOST, relay := NO_RELAY, events := NO_EVENTS, workspaces := l.workspaces)
      invariant r == right.(host := NO_HOST, relay := NO_RELAY, events := NO_EVENTS, workspaces := r.workspaces)
      invariant forall i :: 0 <= i < index ==> l.workspaces[i] == Masked(left.workspaces[i]) && r.workspaces[i] == Masked(right.workspaces[i])
      invariant forall i :: index <= i < |l.workspaces| ==> l.workspaces[i] == left.workspaces[i] && r.workspaces[i] == right.workspaces[i]
    {
      l := l.(workspaces := l.workspaces[index := l.workspaces[index].(displayName := "", permissionProfile := OtherProfile(""), allowNetwork := false)]);
      r := r.(workspaces := r.workspaces[index := r.workspaces[index].(displayName := "", permissionProfile := OtherProfile(""), allowNetwork := false)]);
      index := index + 1;
    }
    assert SameIdentities(left.workspaces, right.workspaces) <==> l.workspaces == r.workspaces by {
      MaskingKeepsIdentities(left.workspaces, right.workspaces, l.workspaces, r.workspaces);
    }
    return l == r;
  }

  /** Every accepted change stays within the hot-reload boundary and escalates nothing. */
  lemma AcceptedChangesAreHarmless(rules: Rules, current: Config, ch: Changes)
    requires ApplyRemoteChanges(rules, current, ch).Merge?
    ensures var next := ApplyRemoteChanges(rules, current, ch).value;
      rules.valid(next) && SameBoundary(current, next) && NoGain(current.workspaces, next.workspaces)
  {
    ApplyItemsIsHarmless(current.workspaces, Items(ch));
  }

  /** The workspaces of an accepted change have exactly the permissions they had, less those
      its items take away. */
  lemma PermissionsOfAccepted(rules: Rules, current: Config, ch: Changes, j: nat)
    requires ApplyRemoteChanges(rules, current, ch).Merge? && j < |current.workspaces|
    ensures var w, next := current.workspaces[j], ApplyRemoteChanges(rules, current, ch).value.workspaces;
      && |next| == |current.workspaces|
      && (next[j].permissionProfile != ReadOnly <==> w.permissionProfile != ReadOnly && !LowersWrite(Items(ch), w.id))
      && (next[j].allowNetwork <==> w.allowNetwork && !LowersNetwork(Items(ch), w.id))
  {
    ItemsActPointwise(current.workspaces, Items(ch));
    AcceptedPermitsAll(current.workspaces, Items(ch), j);
    PermissionsAfter(current.workspaces[j], Items(ch));
  }
}
