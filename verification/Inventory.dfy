/** Single-flight refresh of the adapter inventory (internal/adapter/inventory.go). */
module Inventory {
  import opened Prelude

  /** `installations` stands for the sorted descriptors that one round of detection found. */
  datatype Snapshot<T> = Snapshot(generation: nat, installations: seq<T>)

  // --- The object --------------------------------------------------------------------------

  /** A channel that is only ever closed; closing it twice would panic. */
  class Signal {
    var closed: bool
    constructor () ensures !closed { closed := false; }
    method Close()
      requires !closed
      modifies this
      ensures closed
    {
      closed := true;
    }
  }

  class Inventory<T> {
    var snapshot: Snapshot<T>
    var refresh: Signal?

    /** The channel of the running refresh is open. */
    ghost predicate Valid() reads this, refresh { refresh != null ==> !refresh.closed }

    constructor ()
      ensures Valid() && snapshot == Snapshot(0, []) && refresh == null
    {
      snapshot, refresh := Snapshot(0, []), null;
    }

    /** The first locked section: join the running refresh, or start one. */
    method Enter() returns (current: Signal, owner: bool)
      requires Valid()
      modifies this`refresh
      ensures Valid() && refresh == current
      ensures owner <==> old(refresh) == null
      ensures if owner then fresh(current) else current == old(refresh)
    {
      if refresh != null { return refresh, false; }
      current := new Signal();
      refresh := current;
      return current, true;
    }

    method NextGeneration() returns (generation: nat)
      ensures generation == snapshot.generation + 1
    {
      return snapshot.generation + 1;
    }

    /** Publishes if asked to, and closes the channel only if it is still the running one. */
    method FinishRefresh(current: Signal, value: Snapshot<T>, publish: bool)
      requires Valid()
      modifies this, current
      ensures Valid()
      ensures snapshot == if publish then value else old(snapshot)
      ensures old(refresh) == current ==> refresh == null && current.closed
      ensures old(refresh) != current ==> refresh == old(refresh) && current.closed == old(current.closed)
    {
      if publish { snapshot := value; }
      if refresh == current {
        refresh := null;
        current.Close();
      }
    }

    /** A whole call that finds no refresh running and that nothing disturbs: it publishes
        under the next generation, or leaves the snapshot when its context is done. */
    method RefreshAlone(canceled: bool, items: seq<T>) returns (result: Option<Snapshot<T>>)
      requires Valid() && refresh == null
      modifies this
      ensures Valid() && refresh == null
      ensures canceled ==> result == None && snapshot == old(snapshot)
      ensures !canceled ==> result == Some(snapshot) && snapshot == Snapshot(old(snapshot).generation + 1, items)
    {
      var current, _ := Enter();
      if canceled {
        FinishRefresh(current, Snapshot(0, []), false);
        return None;
      }
      var generation := NextGeneration();
      FinishRefresh(current, Snapshot(generation, items), true);
      result := Some(Snapshot(generation, items));
    }
  }

  // --- Every interleaving of callers ----------------------------------------------------------

  /** Where a call of Refresh stands. `since` is the generation in place when it came in.
      `Holding` has read its generation and not yet published. */
  datatype Phase<T> =
    | Waiting(channel: nat, since: nat)
    | Detecting(channel: nat)
    | Holding(channel: nat, generation: nat)
    | Published(generation: nat)
    | Joined(joined: nat, since: nat, seen: Snapshot<T>)
    | Cancelled

  /** Channels are numbered as they are made. `closes` lists every close, `published` every
      snapshot stored, `made` which refresh stored which generation, and `owner` is the
      caller that started the latest refresh. */
  datatype State<T> = State(
    snapshot: Snapshot<T>,
    refresh: Option<nat>,
    channels: nat,
    owner: nat,
    closes: seq<nat>,
    published: seq<Snapshot<T>>,
    made: map<nat, nat>,
    callers: map<nat, Phase<T>>)

  datatype Event<T> =
    | Enter(caller: nat)
    | ReadGeneration(caller: nat)
    | Publish(caller: nat, items: seq<T>)
    | Abandon(caller: nat)
    | Wake(caller: nat)
    | GiveUp(caller: nat)

  function Init<T>(): State<T> { State(Snapshot(0, []), None, 0, 0, [], [], map[], map[]) }

  /** finishRefresh. */
  function Finish<T>(s: State<T>, channel: nat, value: Option<Snapshot<T>>): State<T> {
    var stored := if value.None? then s else
      s.(snapshot := value.value, published := s.published + [value.value], made := s.made[channel := value.value.generation]);
    if s.refresh == Some(channel) then stored.(refresh := None, closes := s.closes + [channel]) else stored
  }

  /** A step that its caller is not ready for does not happen. */
  function Step<T>(s: State<T>, e: Event<T>): State<T> {
    if e.Enter? then
      if e.caller in s.callers then s
      else if s.refresh.Some? then s.(callers := s.callers[e.caller := Waiting(s.refresh.value, s.snapshot.generation)])
      else s.(refresh := Some(s.channels), channels := s.channels + 1, owner := e.caller, callers := s.callers[e.caller := Detecting(s.channels)])
    else if e.caller !in s.callers then s
    else match (e, s.callers[e.caller])
      case (ReadGeneration(c), Detecting(ch)) => s.(callers := s.callers[c := Holding(ch, s.snapshot.generation + 1)])
      case (Publish(c, items), Holding(ch, g)) => Finish(s, ch, Some(Snapshot(g, items))).(callers := s.callers[c := Published(g)])
      case (Abandon(c), Detecting(ch)) => Finish(s, ch, None).(callers := s.callers[c := Cancelled])
      case (Wake(c), Waiting(ch, since)) => if ch in s.closes then s.(callers := s.callers[c := Joined(ch, since, s.snapshot)]) else s
      case (GiveUp(c), Waiting(_, _)) => s.(callers := s.callers[c := Cancelled])
      case _ => s
  }

  function Run<T>(s: State<T>, es: seq<Event<T>>): State<T>
    decreases |es|
  {
    if es == [] then s else Run(Step(s, es[0]), es[1..])
  }

  // --- What every run keeps ----------------------------------------------------------------

  predicate Active<T>(p: Phase<T>) { p.Detecting? || p.Holding? }

  /** The generations stored so far are 1, 2, 3, … and the last one is in place. */
  ghost predicate Numbered<T>(snapshot: Snapshot<T>, published: seq<Snapshot<T>>) {
    && (forall i :: 0 <= i < |published| ==> published[i].generation == i + 1)
    && snapshot == if published == [] then Snapshot(0, []) else published[|published| - 1]
  }

  /** Every channel made is closed exactly once, except the running one, which is open. */
  ghost predicate ClosedOnce(refresh: Option<nat>, channels: nat, closes: seq<nat>) {
    && (refresh.Some? ==> refresh.value + 1 == channels)
    && (forall ch :: ch in closes ==> ch < channels)
    && (forall ch :: 0 <= ch < channels ==> multiset(closes)[ch] == if refresh == Some(ch) then 0 else 1)
  }

  /** A call that is refreshing is the owner, of the running channel, and the generation
      it has read is still the next one; a refresh that was joined is no longer running. */
  ghost predicate Alone<T>(c: nat, p: Phase<T>, refresh: Option<nat>, owner: nat, generation: nat) {
    && (Active(p) ==> c == owner && refresh == Some(p.channel))
    && (p.Holding? ==> p.generation == generation + 1)
    && (p.Joined? ==> refresh != Some(p.joined))
  }

  ghost predicate SingleFlight<T>(callers: map<nat, Phase<T>>, refresh: Option<nat>, owner: nat, generation: nat) {
    && (refresh.Some? ==> owner in callers && Active(callers[owner]))
    && (forall c :: c in callers ==> Alone(c, callers[c], refresh, owner, generation))
  }

  /** Every generation so far was stored by some refresh. */
  ghost predicate HasMaker(made: map<nat, nat>, generation: nat) { exists ch :: ch in made && made[ch] == generation }

  ghost predicate Makers(made: map<nat, nat>, generation: nat) {
    forall g :: 1 <= g <= generation ==> HasMaker(made, g)
  }

  ghost predicate Made(made: map<nat, nat>, refresh: Option<nat>, channels: nat, generation: nat) {
    && (forall ch :: ch in made ==> ch < channels && refresh != Some(ch) && 0 < made[ch] <= generation)
  }

  /** A waiter's channel is known; what is newer than the snapshot it came to is exactly what
      its refresh and the later ones stored. */
  ghost predicate WaiterFits(ch: nat, since: nat, made: map<nat, nat>, channels: nat) {
    ch < channels && forall other :: other in made ==> (ch <= other <==> since < made[other])
  }

  ghost predicate Fits<T>(p: Phase<T>, published: seq<Snapshot<T>>, made: map<nat, nat>, channels: nat) {
    match p
    case Waiting(ch, since) => since <= |published| && WaiterFits(ch, since, made, channels)
    case Joined(ch, since, seen) =>
      && WaiterFits(ch, since, made, channels)
      && since <= seen.generation <= |published|
      && (ch in made ==> made[ch] <= seen.generation)
      && seen == if seen.generation == 0 then Snapshot(0, []) else published[seen.generation - 1]
    case _ => true
  }

  ghost predicate AllFit<T>(callers: map<nat, Phase<T>>, published: seq<Snapshot<T>>, made: map<nat, nat>, channels: nat) {
    forall c :: c in callers ==> Fits(callers[c], published, made, channels)
  }

  ghost predicate Inv<T>(s: State<T>) {
    && Numbered(s.snapshot, s.published)
    && ClosedOnce(s.refresh, s.channels, s.closes)
    && SingleFlight(s.callers, s.refresh, s.owner, s.snapshot.generation)
    && Made(s.made, s.refresh, s.channels, s.snapshot.generation)
    && Makers(s.made, s.snapshot.generation)
    && AllFit(s.callers, s.published, s.made, s.channels)
  }

  lemma StartKeepsInv<T>(s: State<T>, c: nat)
    requires Inv(s) && c !in s.callers && s.refresh.None?
    ensures Inv(Step(s, Enter(c)))
  {
    var t := Step(s, Enter(c));
    assert s.channels !in s.closes;
    forall d | d in t.callers ensures Alone(d, t.callers[d], t.refresh, t.owner, t.snapshot.generation) {
      if d != c { assert Fits(s.callers[d], s.published, s.made, s.channels) && Alone(d, s.callers[d], s.refresh, s.owner, s.snapshot.generation); }
    }
    forall d | d in t.callers ensures Fits(t.callers[d], t.published, t.made, t.channels) {
      if d != c { assert Fits(s.callers[d], s.published, s.made, s.channels); }
    }
  }

  /** A call moving between phases keeps the rest as it is. */
  lemma MoveKeepsInv<T>(s: State<T>, c: nat, p: Phase<T>)
    requires Inv(s) && Fits(p, s.published, s.made, s.channels)
    requires Alone(c, p, s.refresh, s.owner, s.snapshot.generation)
    requires c in s.callers && Active(s.callers[c]) ==> Active(p)
    ensures Inv(s.(callers := s.callers[c := p]))
  {
    var callers := s.callers[c := p];
    forall d | d in callers ensures Alone(d, callers[d], s.refresh, s.owner, s.snapshot.generation) && Fits(callers[d], s.published, s.made, s.channels) {
      if d != c { assert Alone(d, s.callers[d], s.refresh, s.owner, s.snapshot.generation); }
    }
  }

  lemma CloseKeepsClosedOnce(channel: nat, channels: nat, closes: seq<nat>)
    requires ClosedOnce(Some(channel), channels, closes)
    ensures ClosedOnce(None, channels, closes + [channel])
  {
  }

  lemma PublishKeepsInv<T>(s: State<T>, c: nat, items: seq<T>)
    requires Inv(s) && c in s.callers && s.callers[c].Holding?
    ensures Inv(Step(s, Publish(c, items)))
  {
    var t := Step(s, Publish(c, items));
    assert Alone(c, s.callers[c], s.refresh, s.owner, s.snapshot.generation);
    CloseKeepsClosedOnce(s.callers[c].channel, s.channels, s.closes);
    assert t.snapshot.generation == |s.published| + 1 == |t.published|;
    forall g | 1 <= g <= t.snapshot.generation ensures HasMaker(t.made, g) {
      if g == t.snapshot.generation {
        assert t.made[s.callers[c].channel] == g;
      } else {
        assert HasMaker(s.made, g);
        var ch :| ch in s.made && s.made[ch] == g;
        assert ch in t.made && t.made[ch] == g;
      }
    }
    forall d | d in t.callers
      ensures Alone(d, t.callers[d], t.refresh, t.owner, t.snapshot.generation) && Fits(t.callers[d], t.published, t.made, t.channels)
    {
      if d != c {
        assert Alone(d, s.callers[d], s.refresh, s.owner, s.snapshot.generation);
        assert Fits(s.callers[d], s.published, s.made, s.channels);
      }
    }
  }

  lemma AbandonKeepsInv<T>(s: State<T>, c: nat)
    requires Inv(s) && c in s.callers && s.callers[c].Detecting?
    ensures Inv(Step(s, Abandon(c)))
  {
    var t := Step(s, Abandon(c));
    assert Alone(c, s.callers[c], s.refresh, s.owner, s.snapshot.generation);
    CloseKeepsClosedOnce(s.callers[c].channel, s.channels, s.closes);
    forall d | d in t.callers
      ensures Alone(d, t.callers[d], t.refresh, t.owner, t.snapshot.generation) && Fits(t.callers[d], t.published, t.made, t.channels)
    {
      if d != c {
        assert Alone(d, s.callers[d], s.refresh, s.owner, s.snapshot.generation);
        assert Fits(s.callers[d], s.published, s.made, s.channels);
      }
    }
  }

  lemma StepKeepsInv<T>(s: State<T>, e: Event<T>)
    requires Inv(s)
    ensures Inv(Step(s, e))
  {
    var c := e.caller;
    if e.Enter? {
      if c !in s.callers {
        if s.refresh.None? { StartKeepsInv(s, c); }
        else { MoveKeepsInv(s, c, Waiting(s.refresh.value, s.snapshot.generation)); }
      }
    } else if c in s.callers {
      assert Alone(c, s.callers[c], s.refresh, s.owner, s.snapshot.generation);
      assert Fits(s.callers[c], s.published, s.made, s.channels);
      match (e, s.callers[c])
      case (ReadGeneration(_), Detecting(ch)) => MoveKeepsInv(s, c, Holding(ch, s.snapshot.generation + 1));
      case (Publish(_, items), Holding(_, _)) => PublishKeepsInv(s, c, items);
      case (Abandon(_), Detecting(_)) => AbandonKeepsInv(s, c);
      case (Wake(_), Waiting(ch, since)) =>
        if ch in s.closes {
          assert multiset(s.closes)[ch] > 0;
          MoveKeepsInv(s, c, Joined(ch, since, s.snapshot));
        }
      case (GiveUp(_), Waiting(_, _)) => MoveKeepsInv(s, c, Cancelled);
      case _ =>
    }
  }

  lemma {:induction false} RunKeepsInv<T>(s: State<T>, es: seq<Event<T>>)
    requires Inv(s)
    ensures Inv(Run(s, es))
    decreases |es|
  {
    if es != [] {
      StepKeepsInv(s, es[0]);
      RunKeepsInv(Step(s, es[0]), es[1..]);
    }
  }

  /** At most one refresh runs, and one runs exactly while its channel is in place. */
  lemma RefreshIsSingleFlight<T>(es: seq<Event<T>>, c: nat, d: nat)
    ensures var s := Run(Init(), es);
      && (c in s.callers && d in s.callers && Active(s.callers[c]) && Active(s.callers[d]) ==> c == d)
      && (s.refresh.Some? <==> exists a :: a in s.callers && Active(s.callers[a]))
  {
    RunKeepsInv(Init<T>(), es);
    var s := Run(Init<T>(), es);
    if c in s.callers && d in s.callers {
      assert Alone(c, s.callers[c], s.refresh, s.owner, s.snapshot.generation);
      assert Alone(d, s.callers[d], s.refresh, s.owner, s.snapshot.generation);
    }
    if a :| a in s.callers && Active(s.callers[a]) {
      assert Alone(a, s.callers[a], s.refresh, s.owner, s.snapshot.generation);
    }
  }

  /** Despite the gap between reading the generation and publishing under it, the generations
      stored are exactly 1, 2, 3, … */
  lemma GenerationsAreConsecutive<T>(es: seq<Event<T>>)
    ensures var s := Run(Init(), es);
      && (forall i :: 0 <= i < |s.published| ==> s.published[i].generation == i + 1)
      && s.snapshot == if s.published == [] then Snapshot(0, []) else s.published[|s.published| - 1]
  {
    RunKeepsInv(Init<T>(), es);
  }

  /** Each channel is closed once, whether its refresh published or was abandoned; only the
      channel of the running refresh is still open. */
  lemma ChannelsAreClosedOnce<T>(es: seq<Event<T>>, ch: nat)
    ensures var s := Run(Init(), es);
      ch < s.channels ==> multiset(s.closes)[ch] == if s.refresh == Some(ch) then 0 else 1
  {
    RunKeepsInv(Init<T>(), es);
  }

  /** A call that waited returns a snapshot that was published (or the empty one), never
      older than when it came in, and newer if the refresh it waited for published. */
  lemma WaitersSeeTheirRefresh<T>(es: seq<Event<T>>, c: nat)
    requires var s := Run(Init(), es); c in s.callers && s.callers[c].Joined?
    ensures var s := Run(Init(), es); var p := s.callers[c];
      && (p.seen == Snapshot(0, []) || p.seen in s.published)
      && p.since <= p.seen.generation
      && (p.joined in s.made ==> p.since < s.made[p.joined] <= p.seen.generation)
  {
    RunKeepsInv(Init<T>(), es);
    var s := Run(Init<T>(), es);
    assert Fits(s.callers[c], s.published, s.made, s.channels);
  }

  /** The refresh on this channel or a later one stored a generation up to `generation`. */
  ghost predicate PublishedSince(made: map<nat, nat>, channel: nat, generation: nat) {
    exists later :: later in made && channel <= later && made[later] <= generation
  }

  lemma NewerExactlyWhen(made: map<nat, nat>, ch: nat, since: nat, generation: nat, channels: nat, last: nat)
    requires WaiterFits(ch, since, made, channels) && Makers(made, last) && since <= generation <= last
    ensures since < generation <==> PublishedSince(made, ch, generation)
  {
    if since < generation {
      assert HasMaker(made, generation);
      var later :| later in made && made[later] == generation;
      assert ch <= later;
    }
  }

  /** In every interleaving, a waiter whose channel is closed wakes to the snapshot in place,
      and that is newer than the one it came to exactly when the refresh it joined or a later
      one has published. */
  lemma WaiterWakesToNewerExactlyWhen<T>(es: seq<Event<T>>, c: nat)
    requires var s := Run(Init(), es); c in s.callers && s.callers[c].Waiting? && s.callers[c].channel in s.closes
    ensures var s := Run(Init(), es); var p := s.callers[c];
      && Step(s, Wake(c)).callers[c] == Joined(p.channel, p.since, s.snapshot)
      && (p.since < s.snapshot.generation <==> exists later :: later in s.made && p.channel <= later)
  {
    RunKeepsInv(Init<T>(), es);
    var s := Run(Init<T>(), es);
    var p := s.callers[c];
    assert Fits(p, s.published, s.made, s.channels);
    NewerExactlyWhen(s.made, p.channel, p.since, s.snapshot.generation, s.channels, s.snapshot.generation);
    if later :| later in s.made && p.channel <= later { assert s.made[later] <= s.snapshot.generation; }
  }

  /** The same of every call that has returned from its wait. */
  lemma JoinedSawNewerExactlyWhen<T>(es: seq<Event<T>>, c: nat)
    requires var s := Run(Init(), es); c in s.callers && s.callers[c].Joined?
    ensures var s := Run(Init(), es); var p := s.callers[c];
      p.since < p.seen.generation <==> PublishedSince(s.made, p.joined, p.seen.generation)
  {
    RunKeepsInv(Init<T>(), es);
    var s := Run(Init<T>(), es);
    var p := s.callers[c];
    assert Fits(p, s.published, s.made, s.channels);
    NewerExactlyWhen(s.made, p.joined, p.since, p.seen.generation, s.channels, s.snapshot.generation);
  }

  lemma Prepend<T>(s: State<T>, e: Event<T>, rest: seq<Event<T>>)
    ensures Run(s, [e] + rest) == Run(Step(s, e), rest)
  {
    assert ([e] + rest)[1..] == rest;
  }

  /** One call starts a refresh, a second one joins it, and the first abandons it. */
  function AbandonedRun<T>(a: nat, b: nat, rest: seq<Event<T>>): seq<Event<T>> {
    [Enter(a)] + ([Enter(b)] + ([Abandon(a)] + rest))
  }

  lemma AbandonedRunEnds<T>(s: State<T>, a: nat, b: nat, rest: seq<Event<T>>)
    requires s.refresh.None? && a !in s.callers && b !in s.callers && a != b
    ensures var t := s.(channels := s.channels + 1, owner := a, closes := s.closes + [s.channels],
                        callers := s.callers[a := Cancelled][b := Waiting(s.channels, s.snapshot.generation)]);
      Run(s, AbandonedRun(a, b, rest)) == Run(t, rest)
  {
    var t := s.(channels := s.channels + 1, owner := a, closes := s.closes + [s.channels],
                callers := s.callers[a := Cancelled][b := Waiting(s.channels, s.snapshot.generation)]);
    var s1 := Step(s, Enter(a));
    var s2 := Step(s1, Enter(b));
    assert s2 == s.(refresh := Some(s.channels), channels := s.channels + 1, owner := a,
                    callers := s.callers[a := Detecting(s.channels)][b := Waiting(s.channels, s.snapshot.generation)]);
    var s3 := Step(s2, Abandon(a));
    assert s3.callers == t.callers;
    assert s3 == t;
    Prepend(s, Enter(a), [Enter(b)] + ([Abandon(a)] + rest));
    Prepend(s1, Enter(b), [Abandon(a)] + rest);
    Prepend(s2, Abandon(a), rest);
  }

  /** So a call can succeed although nothing was refreshed: in every state with no refresh
      running, a call whose refresh is abandoned and that wakes next returns the old snapshot. */
  lemma AbandonedRefreshAnswersOld<T>(s: State<T>, a: nat, b: nat)
    requires s.refresh.None? && a !in s.callers && b !in s.callers && a != b
    ensures var t := Run(s, AbandonedRun(a, b, [Wake(b)] + []));
      b in t.callers && t.callers[b] == Joined(s.channels, s.snapshot.generation, s.snapshot)
  {
    AbandonedRunEnds(s, a, b, [Wake(b)] + []);
    var t := s.(channels := s.channels + 1, owner := a, closes := s.closes + [s.channels],
                callers := s.callers[a := Cancelled][b := Waiting(s.channels, s.snapshot.generation)]);
    Prepend(t, Wake(b), []);
  }

  /** And in every such state, if another refresh publishes before it wakes, the newer one. */
  lemma AbandonedRefreshAnswersNewer<T>(s: State<T>, a: nat, b: nat, c: nat, items: seq<T>)
    requires s.refresh.None? && a !in s.callers && b !in s.callers && c !in s.callers && a != b && c != a && c != b
    ensures var t := Run(s, AbandonedRun(a, b, [Enter(c)] + ([ReadGeneration(c)] + ([Publish(c, items)] + ([Wake(b)] + [])))));
      b in t.callers && t.callers[b] == Joined(s.channels, s.snapshot.generation, Snapshot(s.snapshot.generation + 1, items))
  {
    var g := s.snapshot.generation;
    var rest := [Enter(c)] + ([ReadGeneration(c)] + ([Publish(c, items)] + ([Wake(b)] + [])));
    AbandonedRunEnds(s, a, b, rest);
    var t := s.(channels := s.channels + 1, owner := a, closes := s.closes + [s.channels],
                callers := s.callers[a := Cancelled][b := Waiting(s.channels, g)]);
    var t1 := Step(t, Enter(c));
    assert t1.callers == t.callers[c := Detecting(s.channels + 1)] && t1.refresh == Some(s.channels + 1);
    var t2 := Step(t1, ReadGeneration(c));
    assert t2.callers[c] == Holding(s.channels + 1, g + 1) && t2.callers[b] == t.callers[b];
    var t3 := Step(t2, Publish(c, items));
    assert t3.snapshot == Snapshot(g + 1, items) && t3.callers[b] == t.callers[b] && s.channels in t3.closes;
    Prepend(t, Enter(c), [ReadGeneration(c)] + ([Publish(c, items)] + ([Wake(b)] + [])));
    Prepend(t1, ReadGeneration(c), [Publish(c, items)] + ([Wake(b)] + []));
    Prepend(t2, Publish(c, items), [Wake(b)] + []);
    Prepend(t3, Wake(b), []);
  }
}
