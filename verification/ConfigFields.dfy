/** What the keys of a change set do to the configuration, key by key
    (applyRemoteChanges and the readers below it in internal/node/config_controller.go). */
module ConfigFields {
  import opened Prelude
  import opened NodeConfig
  import opened ConfigController

  type Object = map<string, Json>

  // --- Which values are accepted ---------------------------------------------------------

  /** A string with a character that is not white space, at most 4096 long. */
  ghost predicate IsText(value: Json, text: string) {
    && value == JString(text) && |text| <= 4096
    && exists i :: 0 <= i < |text| && text[i] != ' ' && text[i] != '\t' && text[i] != '\n' && text[i] != '\r'
  }

  lemma TextRead(value: Json, text: string)
    ensures StringChange(value) == Given(text) <==> IsText(value, text)
    ensures !StringChange(value).Missing?
  {
  }

  /** A key that is absent, or holds a text. */
  ghost predicate TextOrAbsent(o: Object, name: string) {
    name !in o || (o[name].JString? && IsText(o[name], o[name].text))
  }

  /** A key that is absent, null, or holds any string of at most 4096. */
  ghost predicate StringOrAbsent(o: Object, name: string) {
    name !in o || o[name] == JNull || (o[name].JString? && |o[name].text| <= 4096)
  }

  /** A whole number of 64 bits. */
  ghost predicate IsInt(value: Json, n: int) {
    value == JNumber(n as real) && -0x8000_0000_0000_0000 <= n < 0x8000_0000_0000_0000
  }

  ghost predicate IntOrAbsent(o: Object, name: string) {
    name in o ==> exists n :: IsInt(o[name], n)
  }

  lemma IntRead(value: Json, n: int)
    ensures IntChange(value) == Given(n) <==> IsInt(value, n)
    ensures !IntChange(value).Missing?
  {
  }

  /** The readers of one key, in one place. */
  lemma KeysRead(o: Object)
    ensures !ReadChanges(o).hostName.Malformed? <==> TextOrAbsent(o, "hostName")
    ensures !ReadChanges(o).relayUrl.Malformed? <==> TextOrAbsent(o, "relayUrl")
    ensures !ReadChanges(o).proxyUrl.Malformed? <==> StringOrAbsent(o, "proxyUrl")
    ensures !ReadChanges(o).connectTimeoutSeconds.Malformed? <==> IntOrAbsent(o, "connectTimeoutSeconds")
    ensures !ReadChanges(o).eventsMaxAgeHours.Malformed? <==> IntOrAbsent(o, "eventsMaxAgeHours")
    ensures !ReadChanges(o).eventsMaxSizeMiB.Malformed? <==> IntOrAbsent(o, "eventsMaxSizeMiB")
    ensures ReadChanges(o).workspaces.Given? ==> "workspaces" in o
  {
    TextKey(o, "hostName");
    TextKey(o, "relayUrl");
    IntKey(o, "connectTimeoutSeconds");
    IntKey(o, "eventsMaxAgeHours");
    IntKey(o, "eventsMaxSizeMiB");
  }

  lemma TextKey(o: Object, name: string)
    ensures !Optional(o, name, StringChange).Malformed? <==> TextOrAbsent(o, name)
  {
    if name in o && o[name].JString? { TextRead(o[name], o[name].text); }
  }

  lemma IntKey(o: Object, name: string)
    ensures name in o ==> (IntChange(o[name]).Given? <==> IntOrAbsent(o, name))
  {
    if name in o && o[name].JNumber? { IntRead(o[name], o[name].number.Floor); }
  }

  // --- The configuration after the change -----------------------------------------------------

  /** Each given key is in its own field, as given; a null proxy is the empty one. Each absent
      key leaves its field, and nothing else outside the workspaces differs. */
  ghost predicate Carries(current: Config, o: Object, next: Config) {
    && (if "hostName" in o then o["hostName"] == JString(next.host.name) else next.host.name == current.host.name)
    && (if "relayUrl" in o then o["relayUrl"] == JString(next.relay.url) else next.relay.url == current.relay.url)
    && (if "proxyUrl" !in o then next.relay.proxyURL == current.relay.proxyURL
        else if o["proxyUrl"] == JNull then next.relay.proxyURL == "" else o["proxyUrl"] == JString(next.relay.proxyURL))
    && (if "connectTimeoutSeconds" in o then o["connectTimeoutSeconds"] == JNumber(next.relay.connectTimeoutSeconds as real)
        else next.relay.connectTimeoutSeconds == current.relay.connectTimeoutSeconds)
    && (if "eventsMaxAgeHours" in o then o["eventsMaxAgeHours"] == JNumber(next.events.maxAgeHours as real)
        else next.events.maxAgeHours == current.events.maxAgeHours)
    && (if "eventsMaxSizeMiB" in o then o["eventsMaxSizeMiB"] == JNumber(next.events.maxSizeMiB as real)
        else next.events.maxSizeMiB == current.events.maxSizeMiB)
    && next.host.locale == current.host.locale
    && next.relay.caBundleFile == current.relay.caBundleFile && next.relay.credentialRef == current.relay.credentialRef
    && next.relay.proxyCredentialRef == current.relay.proxyCredentialRef
    && next.configVersion == current.configVersion && next.mode == current.mode && next.identity == current.identity
    && next.agentInstances == current.agentInstances
    && ("workspaces" !in o ==> next.workspaces == current.workspaces)
  }

  /** Every accepted change set does exactly that, and the result is valid. */
  lemma AcceptedChangeCarriesItsKeys(rules: Rules, current: Config, o: Object)
    requires ApplyRemoteChanges(rules, current, ReadChanges(o)).Merge?
    ensures Carries(current, o, ApplyRemoteChanges(rules, current, ReadChanges(o)).value)
    ensures rules.valid(ApplyRemoteChanges(rules, current, ReadChanges(o)).value)
  {
  }

  /** A change set is accepted exactly when it is not empty, each key that is there has a value
      of its kind, the workspace items are readable and accepted, and the result is valid. */
  lemma AcceptedExactlyWhenKeysAre(rules: Rules, current: Config, o: Object)
    ensures var items := if "workspaces" in o then WorkspaceChanges(o["workspaces"]) else Given([]);
      ApplyRemoteChanges(rules, current, ReadChanges(o)).Merge? <==>
        && o != map[] && TextOrAbsent(o, "hostName") && TextOrAbsent(o, "relayUrl") && StringOrAbsent(o, "proxyUrl")
        && IntOrAbsent(o, "connectTimeoutSeconds") && IntOrAbsent(o, "eventsMaxAgeHours") && IntOrAbsent(o, "eventsMaxSizeMiB")
        && items.Given? && ApplyItems(current.workspaces, items.value).Merge?
        && exists next :: Carries(current, o, next) && next.workspaces == ApplyItems(current.workspaces, items.value).value && rules.valid(next)
  {
    var ch := ReadChanges(o);
    var items := if "workspaces" in o then WorkspaceChanges(o["workspaces"]) else Given([]);
    KeysRead(o);
    if ApplyRemoteChanges(rules, current, ch).Merge? {
      AcceptedChangeCarriesItsKeys(rules, current, o);
      assert Items(ch) == items.value;
    } else if WellFormed(ch) && items.Given? && ApplyItems(current.workspaces, items.value).Merge? {
      var made := Scalars(current, ch).(workspaces := ApplyItems(current.workspaces, items.value).value);
      forall next | Carries(current, o, next) && next.workspaces == made.workspaces ensures next == made {
        CarriedIsScalars(current, o, next);
      }
    }
  }

  lemma CarriedIsScalars(current: Config, o: Object, next: Config)
    requires WellFormed(ReadChanges(o)) && Carries(current, o, next)
    ensures next == Scalars(current, ReadChanges(o)).(workspaces := next.workspaces)
  {
  }

  // --- Workspace items ------------------------------------------------------------------------

  /** The object says exactly this: an ID, and at least one of a name, a profile by one of its
      two texts, and a network flag. */
  ghost predicate Says(o: Object, item: WorkspaceChange) {
    && "id" in o && IsText(o["id"], item.id)
    && (if "displayName" in o then item.displayName.Some? && IsText(o["displayName"], item.displayName.value) else item.displayName.None?)
    && ("permissionProfile" !in o ==> item.permissionProfile.None?)
    && ("permissionProfile" in o ==>
          || (o["permissionProfile"] == JString("read-only") && item.permissionProfile == Some(ToReadOnly))
          || (o["permissionProfile"] == JString("workspace-write") && item.permissionProfile == Some(ToWorkspaceWrite)))
    && (if "allowNetwork" in o then item.allowNetwork.Some? && o["allowNetwork"] == JBool(item.allowNetwork.value) else item.allowNetwork.None?)
    && ("displayName" in o || "permissionProfile" in o || "allowNetwork" in o)
  }

  lemma ProfileRead(o: Object)
    requires "permissionProfile" in o
    ensures ReadProfile(o) == Given(ToReadOnly) <==> o["permissionProfile"] == JString("read-only")
    ensures ReadProfile(o) == Given(ToWorkspaceWrite) <==> o["permissionProfile"] == JString("workspace-write")
    ensures !ReadProfile(o).Missing?
  {
    TextRead(o["permissionProfile"], "read-only");
    TextRead(o["permissionProfile"], "workspace-write");
    assert "read-only"[0] == 'r' && "workspace-write"[0] == 'w';
  }

  lemma ItemReadExactly(raw: Json, item: WorkspaceChange)
    ensures ReadWorkspaceChange(raw) == Some(item) <==> raw.JObject? && Says(raw.fields, item)
  {
    if raw.JObject? && "id" in raw.fields {
      var o := raw.fields;
      TextRead(o["id"], item.id);
      if o["id"].JString? { TextRead(o["id"], o["id"].text); }
      if "displayName" in o {
        if item.displayName.Some? { TextRead(o["displayName"], item.displayName.value); }
        if o["displayName"].JString? { TextRead(o["displayName"], o["displayName"].text); }
      }
      if "permissionProfile" in o { ProfileRead(o); }
    }
  }

  /** A list is read exactly when it is a non-empty array of such objects, in order. */
  lemma ItemsReadExactly(value: Json, items: seq<WorkspaceChange>)
    ensures WorkspaceChanges(value) == Given(items) <==>
      value.JArray? && value.items != [] && |items| == |value.items| && forall k :: 0 <= k < |items| ==> value.items[k].JObject? && Says(value.items[k].fields, items[k])
  {
    if value.JArray? && value.items != [] {
      forall k | 0 <= k < |items| && k < |value.items| ensures ReadWorkspaceChange(value.items[k]) == Some(items[k]) <==> value.items[k].JObject? && Says(value.items[k].fields, items[k]) {
        ItemReadExactly(value.items[k], items[k]);
      }
      var read := ReadWorkspaceItems(value.items);
      if read.Some? && |items| == |value.items| && forall k :: 0 <= k < |items| ==> ReadWorkspaceChange(value.items[k]) == Some(items[k]) {
        assert forall k :: 0 <= k < |items| ==> read.value[k] == items[k];
        assert read.value == items;
      }
    }
  }

  // --- A workspace after the items ---------------------------------------------------------------

  /** Item `k` is the last one that names the workspace and gives it a name, or a profile. */
  ghost predicate LastName(items: seq<WorkspaceChange>, id: string, k: nat) {
    && k < |items| && items[k].id == id && items[k].displayName.Some?
    && forall l :: k < l < |items| && items[l].id == id ==> items[l].displayName.None?
  }

  ghost predicate LastProfile(items: seq<WorkspaceChange>, id: string, k: nat) {
    && k < |items| && items[k].id == id && items[k].permissionProfile.Some?
    && forall l :: k < l < |items| && items[l].id == id ==> items[l].permissionProfile.None?
  }

  ghost predicate NoName(items: seq<WorkspaceChange>, id: string) {
    forall l :: 0 <= l < |items| && items[l].id == id ==> items[l].displayName.None?
  }

  ghost predicate NoProfile(items: seq<WorkspaceChange>, id: string) {
    forall l :: 0 <= l < |items| && items[l].id == id ==> items[l].permissionProfile.None?
  }

  lemma {:induction false} UnmentionedStays(w: Workspace, items: seq<WorkspaceChange>)
    ensures NoName(items, w.id) ==> Effect(w, items).displayName == w.displayName
    ensures NoProfile(items, w.id) ==> Effect(w, items).permissionProfile == w.permissionProfile
    decreases |items|
  {
    if items != [] { UnmentionedStays(Touched(w, items[0]), items[1..]); }
  }

  /** The last item to give a name, or a profile, wins. */
  lemma {:induction false} LastMentionWins(w: Workspace, items: seq<WorkspaceChange>, k: nat)
    ensures LastName(items, w.id, k) ==> Effect(w, items).displayName == items[k].displayName.value
    ensures LastProfile(items, w.id, k) ==>
      Effect(w, items).permissionProfile == if items[k].permissionProfile.value.ToReadOnly? then ReadOnly else WorkspaceWrite
    decreases |items|
  {
    if k < |items| {
      var rest := items[1..];
      if k == 0 {
        UnmentionedStays(Touched(w, items[0]), rest);
        assert LastName(items, w.id, 0) ==> NoName(rest, w.id);
        assert LastProfile(items, w.id, 0) ==> NoProfile(rest, w.id);
      } else {
        LastMentionWins(Touched(w, items[0]), rest, k - 1);
        assert LastName(items, w.id, k) ==> LastName(rest, w.id, k - 1);
        assert LastProfile(items, w.id, k) ==> LastProfile(rest, w.id, k - 1);
      }
    }
  }

  /** So in an accepted change each workspace, in its place, has the last name and profile
      given to it, or its own, and the permissions of `PermissionsOfAccepted`. */
  lemma AcceptedWorkspaces(rules: Rules, current: Config, ch: Changes, j: nat, k: nat)
    requires ApplyRemoteChanges(rules, current, ch).Merge? && j < |current.workspaces|
    ensures var w, next, items := current.workspaces[j], ApplyRemoteChanges(rules, current, ch).value.workspaces, Items(ch);
      && |next| == |current.workspaces|
      && next[j] == w.(displayName := next[j].displayName, permissionProfile := next[j].permissionProfile, allowNetwork := next[j].allowNetwork)
      && (NoName(items, w.id) ==> next[j].displayName == w.displayName)
      && (LastName(items, w.id, k) ==> next[j].displayName == items[k].displayName.value)
      && (NoProfile(items, w.id) ==> next[j].permissionProfile == w.permissionProfile)
      && (LastProfile(items, w.id, k) ==> next[j].permissionProfile == if items[k].permissionProfile.value.ToReadOnly? then ReadOnly else WorkspaceWrite)
  {
    ItemsActPointwise(current.workspaces, Items(ch));
    UnmentionedStays(current.workspaces[j], Items(ch));
    LastMentionWins(current.workspaces[j], Items(ch), k);
    AcceptedChangesAreHarmless(rules, current, ch);
  }
}
