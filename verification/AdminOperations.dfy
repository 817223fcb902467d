/** What each step of a request through the idempotency cache comes to
    (idempotencyMiddleware in internal/server/admin.go). */
module AdminOperations {
  import opened Prelude
  import opened AdminIdempotency

  /** The key's cached execution is still running, or has ended and not expired by `now`. */
  ghost predicate Live(s: State, key: Key, now: int) {
    && key in s.cache && s.cache[key] in s.entries
    && (s.entries[s.cache[key]].outcome.Done? ==> now < s.entries[s.cache[key]].expiresAt)
  }

  lemma KeptExactly(s: State, now: int, key: Key)
    requires CacheOk(s.cache, s.entries)
    ensures key in Kept(s.cache, s.entries, now) <==> Live(s, key, now)
    ensures key in Kept(s.cache, s.entries, now) ==> Kept(s.cache, s.entries, now)[key] == s.cache[key]
  {
  }

  /** A key in use for another body is a conflict; for the same body the request waits for the
      running execution, or goes on to the stored response; a key not in use executes, under a
      new entry that lasts ten minutes. */
  lemma AdmitComesTo(s: State, r: nat)
    requires Inv(s) && r in s.requests && s.requests[r].Timed?
    ensures var t := Step(s, Admit(r));
      var (key, use, now) := (s.requests[r].key, s.requests[r].use, s.requests[r].now);
      && (forall k :: k != key ==> (k in t.cache <==> Live(s, k, now)) && (k in t.cache ==> t.cache[k] == s.cache[k]))
      && t.replays == s.replays && key in t.cache
      && if Live(s, key, now) then
           var e := s.entries[s.cache[key]];
           && t.entries == s.entries && t.executions == s.executions && t.cache[key] == s.cache[key]
           && t.requests == s.requests[r :=
                if e.use.digest != use.digest then Over
                else if e.outcome == Running then Waiting(key, use, s.cache[key]) else Rereading(key, use, s.cache[key])]
         else
           && t.entries == s.entries[s.next := Entry(key, use, now + 600_000_000_000, r, Running, 0)] && t.cache[key] == s.next
           && t.requests == s.requests[r := Executing(key, s.next)]
           && t.executions == s.executions + [Execution(key, use, s.next, s.clock)]
  {
    var (key, now) := (s.requests[r].key, s.requests[r].now);
    forall k ensures k in Kept(s.cache, s.entries, now) <==> Live(s, k, now) { KeptExactly(s, now, k); }
    KeptExactly(s, now, key);
  }

  /** An execution that ends below 500 stores its response; one at 500 or above evicts its key.
      The ready channel is closed either way. */
  lemma FinishComesTo(s: State, r: nat, response: Response)
    requires Inv(s) && r in s.requests && s.requests[r].Executing?
    ensures var t, key, e := Step(s, Finish(r, response)), s.requests[r].key, s.requests[r].entry;
      && e in s.entries && t.requests == s.requests[r := Over] && t.executions == s.executions && t.replays == s.replays
      && if response.status < 500
         then t.entries == s.entries[e := s.entries[e].(outcome := Done(response), closes := 1)] && t.cache == s.cache
         else t.entries == s.entries[e := s.entries[e].(outcome := Failed, closes := 1)] && t.cache == s.cache - {key}
  {
    assert RequestOk(r, s.requests[r], s.entries);
    assert EntryOk(s.requests[r].entry, s.entries[s.requests[r].entry], s.cache, s.next);
  }

  /** A waiter goes on when its execution has ended, and not before; it may give up at any time. */
  lemma WakeComesTo(s: State, r: nat)
    requires Inv(s) && r in s.requests && s.requests[r].Waiting?
    ensures var p := s.requests[r];
      && p.entry in s.entries
      && Step(s, Wake(r)) == (if s.entries[p.entry].outcome == Running then s else s.(requests := s.requests[r := Rereading(p.key, p.use, p.entry)]))
      && Step(s, Abort(r)) == s.(requests := s.requests[r := Over])
  {
    assert RequestOk(r, s.requests[r], s.entries);
    assert EntryOk(s.requests[r].entry, s.entries[s.requests[r].entry], s.cache, s.next);
  }

  /** The re-read answers with whatever the key holds then, and with nothing stored if the key
      is gone. */
  lemma RereadComesTo(s: State, r: nat)
    requires Inv(s) && r in s.requests && s.requests[r].Rereading?
    ensures var t, p := Step(s, Reread(r)), s.requests[r];
      && t.requests == s.requests[r := Over] && t.entries == s.entries && t.cache == s.cache && t.executions == s.executions
      && if p.key !in s.cache then t.replays == s.replays
         else
           var e := s.entries[s.cache[p.key]];
           t.replays == s.replays + [Replay(p.use, p.entry, s.cache[p.key], if e.outcome.Done? then e.outcome.response else Response(0, "", ""))]
  {
  }

  /** A sweep drops exactly the ended executions that have expired. */
  lemma SweepComesTo(s: State, at: int, key: Key)
    requires Inv(s) && at <= s.clock
    ensures var t := Step(s, Sweep(at));
      && (key in t.cache <==> Live(s, key, at)) && (key in t.cache ==> t.cache[key] == s.cache[key])
      && t.entries == s.entries && t.requests == s.requests
  {
    KeptExactly(s, at, key);
  }
}
