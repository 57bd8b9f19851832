/**
 * The overshoot bound is attained: for every limit and every number of providers
 * there is a run, using that limit throughout, whose counter ends at exactly
 * `limit + G - 1`.
 */
module QuotaTight {
  import opened Common
  import opened TokenCell
  import opened Admission
  import opened QuotaBound
  import D = Discovery
  import K = Ticket

  const SCOPE: Scope := "all"

  lemma ScopeIsSendable()
    ensures K.Sendable(SCOPE)
  {
    assert SCOPE[0] in SCOPE && !K.IsWhitespace(SCOPE[0]);
  }

  function Last(run: Run): (s: System)
    requires |run.states| > 0
  {
    run.states[|run.states| - 1]
  }

  /** A run from the initial state in which every passing check uses at most `limit`. */
  ghost predicate Within(run: Run, limit: nat) {
    IsRun(run) && forall k | 0 <= k < |run.actions| :: PassesWithin(run.states[k], run.actions[k], limit)
  }

  function Appended(run: Run, a: Action): (longer: Run)
    requires |run.states| > 0 && Enabled(Last(run), a)
  {
    Run(run.states + [Next(Last(run), a)], run.actions + [a])
  }

  lemma Extended(run: Run, a: Action, limit: nat) returns (longer: Run)
    requires Within(run, limit) && Enabled(Last(run), a) && PassesWithin(Last(run), a, limit)
    ensures Within(longer, limit) && Last(longer) == Next(Last(run), a) && longer == Appended(run, a)
  {
    longer := Appended(run, a);
    var n := |run.actions|;
    forall i: nat | i < n + 1 ensures StepHolds(longer, i) && PassesWithin(longer.states[i], longer.actions[i], limit) {
      if i < n {
        StepAt(run, i);
        assert longer.states[i] == run.states[i] && longer.states[i + 1] == run.states[i + 1];
      }
    }
  }

  /** `g` providers, a published recorder, and a free request slot. */
  ghost predicate World(s: System, g: nat) {
    && (forall id: nat :: id in s.providers <==> id < g)
    && (forall id | id in s.providers :: s.providers[id].ttl > 0)
    && s.store.address == Origin
    && SCOPE !in s.store.slots
  }

  predicate Idle(p: Provider) {
    p.discovery == D.FRESH && p.attempts == map[] && p.stale == []
  }

  /** The provider's only attempt, in the given phase, with nothing older on the wire. */
  predicate Sole(p: Provider, x: AttemptId, api: Api, limit: nat, phase: Phase, current: Option<Command>,
                 reply: Option<Reply>) {
    && p.attempts == map[x := Attempt(SCOPE, Some(Quota(api, limit)), true, phase, current, reply)]
    && p.stale == []
  }

  /** The check passed, and the attempt has not been resumed since. */
  ghost predicate Poised(p: Provider, x: AttemptId, api: Api, limit: nat) {
    exists n: nat :: n < limit && Sole(p, x, api, limit, Checking, None, Some(CountIs(n)))
  }

  /** `s'` differs from `s` only in provider `id`, the counters and the request slots. */
  predicate OnlyProvider(s: System, s': System, id: ProviderId) {
    && s'.watched == s.watched && s'.store.address == s.store.address
    && s'.providers.Keys == s.providers.Keys && id in s.providers
    && s'.providers[id].ttl == s.providers[id].ttl
    && forall k | k in s.providers && k != id :: s'.providers[k] == s.providers[k]
  }

  /** Redis executes the sole attempt's awaited command. */
  lemma TurnExecute(run: Run, id: ProviderId, x: AttemptId, limit: nat, phase: Phase, command: Command)
    returns (longer: Run)
    requires Within(run, limit) && id in Last(run).providers
    requires Sole(Last(run).providers[id], x, Last(run).watched, limit, phase, Some(command), None)
    ensures Within(longer, limit) && OnlyProvider(Last(run), Last(longer), id) && Last(longer).now == Last(run).now
    ensures var (store, reply) := Execute(Last(run).store, Last(run).now, Last(run).providers[id].ttl, command);
            && Last(longer).store == store
            && Sole(Last(longer).providers[id], x, Last(run).watched, limit, phase, None, Some(reply))
  {
    longer := Extended(run, On(id, ExecuteCurrent(x)), limit);
  }

  /** The reply is delivered and the sole attempt goes on. */
  lemma TurnDeliver(run: Run, id: ProviderId, x: AttemptId, limit: nat, phase: Phase, reply: Reply, phase': Phase,
                    command: Command)
    returns (longer: Run)
    requires Within(run, limit) && id in Last(run).providers
    requires Sole(Last(run).providers[id], x, Last(run).watched, limit, phase, None, Some(reply))
    requires var a := Last(run).providers[id].attempts[x];
             Resume(a, reply, Last(run).nextToken, true) == Send(a, phase', command)
    ensures Within(longer, limit) && OnlyProvider(Last(run), Last(longer), id)
    ensures Last(longer).now == Last(run).now && Last(longer).store == Last(run).store
    ensures Sole(Last(longer).providers[id], x, Last(run).watched, limit, phase', Some(command), None)
  {
    longer := Extended(run, On(id, Deliver(x, true)), limit);
  }

  /** An idle provider starts an attempt. */
  lemma TurnStart(run: Run, id: ProviderId, limit: nat) returns (longer: Run, x: AttemptId)
    requires Within(run, limit) && id in Last(run).providers && Idle(Last(run).providers[id])
    ensures Within(longer, limit) && OnlyProvider(Last(run), Last(longer), id)
    ensures Last(longer).now == Last(run).now && Last(longer).store == Last(run).store
    ensures Sole(Last(longer).providers[id], x, Last(run).watched, limit, Discovering, Some(GetAddress), None)
  {
    x := Last(run).nextAttempt;
    longer := Extended(run, On(id, Start(SCOPE, Some(Quota(Last(run).watched, limit)))), limit);
  }

  /** One idle provider runs its check and stops just before acting on it. */
  lemma RunCheck(run: Run, id: ProviderId, limit: nat) returns (longer: Run, x: AttemptId)
    requires Within(run, limit) && id in Last(run).providers && Idle(Last(run).providers[id])
    requires Last(run).store.address == Origin && CountOf(Last(run).store, Last(run).watched) < limit
    ensures Within(longer, limit)
    ensures OnlyProvider(Last(run), Last(longer), id) && Last(longer).store == Last(run).store
    ensures Poised(Last(longer).providers[id], x, Last(run).watched, limit)
  {
    var api := Last(run).watched;
    longer, x := TurnStart(run, id, limit);
    longer := TurnExecute(longer, id, x, limit, Discovering, GetAddress);
    longer := TurnDeliver(longer, id, x, limit, Discovering, AddressIs(Origin), Checking, GetCount(api));
    longer := TurnExecute(longer, id, x, limit, Checking, GetCount(api));
  }

  /** A poised provider reserves the free slot. */
  lemma RunReserve(run: Run, id: ProviderId, x: AttemptId, limit: nat) returns (longer: Run, token: Token)
    requires Within(run, limit) && id in Last(run).providers && SCOPE !in Last(run).store.slots
    requires Poised(Last(run).providers[id], x, Last(run).watched, limit)
    ensures Within(longer, limit) && OnlyProvider(Last(run), Last(longer), id)
    ensures Last(longer).now == Last(run).now && Last(longer).store.counts == Last(run).store.counts
    ensures var entry := Entry(token, Last(run).now + Last(run).providers[id].ttl);
            Last(longer).store.slots == Last(run).store.slots[SCOPE := entry]
    ensures Sole(Last(longer).providers[id], x, Last(run).watched, limit, Reserving(token), None, Some(Done(true)))
  {
    ScopeIsSendable();
    token := Last(run).nextToken;
    var reply := Last(run).providers[id].attempts[x].reply.value;
    longer := TurnDeliver(run, id, x, limit, Checking, reply, Reserving(token), Reserve(SCOPE, token));
    longer := TurnExecute(longer, id, x, limit, Reserving(token), Reserve(SCOPE, token));
  }

  /** The counted attempt returns its ticket and its provider becomes idle. */
  lemma TurnReturn(run: Run, id: ProviderId, x: AttemptId, token: Token, limit: nat) returns (longer: Run)
    requires Within(run, limit) && id in Last(run).providers
    requires Sole(Last(run).providers[id], x, Last(run).watched, limit, Counting(token), None, Some(Counted))
    ensures Within(longer, limit) && OnlyProvider(Last(run), Last(longer), id)
    ensures Last(longer).now == Last(run).now && Last(longer).store == Last(run).store
    ensures Idle(Last(longer).providers[id])
  {
    longer := Extended(run, On(id, Deliver(x, true)), limit);
  }

  /** It counts, returns its ticket and becomes idle. */
  lemma RunCount(run: Run, id: ProviderId, x: AttemptId, token: Token, limit: nat) returns (longer: Run)
    requires Within(run, limit) && id in Last(run).providers
    requires Sole(Last(run).providers[id], x, Last(run).watched, limit, Reserving(token), None, Some(Done(true)))
    ensures Within(longer, limit) && OnlyProvider(Last(run), Last(longer), id)
    ensures Last(longer).now == Last(run).now && Last(longer).store.slots == Last(run).store.slots
    ensures CountOf(Last(longer).store, Last(run).watched) == CountOf(Last(run).store, Last(run).watched) + 1
    ensures Idle(Last(longer).providers[id])
  {
    var api := Last(run).watched;
    longer := TurnDeliver(run, id, x, limit, Reserving(token), Done(true), Counting(token), Count(api));
    longer := TurnExecute(longer, id, x, limit, Counting(token), Count(api));
    longer := TurnReturn(longer, id, x, token, limit);
  }

  /** A poised provider completes its admission and the recorder frees the slot again. */
  lemma RunFinish(run: Run, id: ProviderId, x: AttemptId, limit: nat, g: nat) returns (longer: Run)
    requires Within(run, limit) && World(Last(run), g) && id < g
    requires Poised(Last(run).providers[id], x, Last(run).watched, limit)
    ensures Within(longer, limit) && World(Last(longer), g) && OnlyProvider(Last(run), Last(longer), id)
    ensures CountOf(Last(longer).store, Last(run).watched) == CountOf(Last(run).store, Last(run).watched) + 1
    ensures Idle(Last(longer).providers[id])
  {
    var token;
    longer, token := RunReserve(run, id, x, limit);
    longer := RunCount(longer, id, x, token, limit);
    longer := Extended(longer, Recorder(SCOPE, Delete(token)), limit);
  }

  /** One provider alone drives the counter up to just below the limit. */
  lemma {:induction false} RunSolo(run: Run, times: nat, limit: nat, g: nat) returns (longer: Run)
    requires Within(run, limit) && World(Last(run), g) && 0 < g
    requires forall id | id in Last(run).providers :: Idle(Last(run).providers[id])
    requires CountOf(Last(run).store, Last(run).watched) + times <= limit
    ensures Within(longer, limit) && World(Last(longer), g) && Last(longer).watched == Last(run).watched
    ensures forall id | id in Last(longer).providers :: Idle(Last(longer).providers[id])
    ensures CountOf(Last(longer).store, Last(run).watched) == CountOf(Last(run).store, Last(run).watched) + times
    decreases times
  {
    if times == 0 {
      longer := run;
    } else {
      var x;
      longer, x := RunCheck(run, 0, limit);
      longer := RunFinish(longer, 0, x, limit, g);
      longer := RunSolo(longer, times - 1, limit, g);
    }
  }

  /** Providers below `n` are poised on attempts `xs`, the others idle. */
  ghost predicate Lined(s: System, n: nat, g: nat, xs: seq<AttemptId>, limit: nat) {
    && World(s, g) && n <= g && |xs| == g
    && forall id | 0 <= id < g ::
         if id < n then Poised(s.providers[id], xs[id], s.watched, limit) else Idle(s.providers[id])
  }

  /** Every provider checks while one unit is left. */
  lemma {:induction false} RunChecks(run: Run, n: nat, g: nat, xs: seq<AttemptId>, limit: nat)
    returns (longer: Run, all: seq<AttemptId>)
    requires Within(run, limit) && Lined(Last(run), n, g, xs, limit)
    requires CountOf(Last(run).store, Last(run).watched) < limit
    ensures Within(longer, limit) && Lined(Last(longer), g, g, all, limit)
    ensures Last(longer).watched == Last(run).watched
    ensures CountOf(Last(longer).store, Last(run).watched) == CountOf(Last(run).store, Last(run).watched)
    decreases g - n
  {
    if n == g {
      longer, all := run, xs;
    } else {
      var x;
      longer, x := RunCheck(run, n, limit);
      longer, all := RunChecks(longer, n + 1, g, xs[n := x], limit);
    }
  }

  /** Then every one of them counts. */
  lemma {:induction false} RunCounts(run: Run, n: nat, g: nat, xs: seq<AttemptId>, limit: nat) returns (longer: Run)
    requires Within(run, limit) && Lined(Last(run), n, g, xs, limit)
    ensures Within(longer, limit) && World(Last(longer), g) && Last(longer).watched == Last(run).watched
    ensures CountOf(Last(longer).store, Last(run).watched) == CountOf(Last(run).store, Last(run).watched) + n
    decreases n
  {
    if n == 0 {
      longer := run;
    } else {
      longer := RunFinish(run, n - 1, xs[n - 1], limit, g);
      longer := RunCounts(longer, n - 1, g, xs, limit);
    }
  }

  lemma {:induction false} RunJoins(run: Run, n: nat, g: nat, limit: nat) returns (longer: Run)
    requires Within(run, limit) && World(Last(run), n) && n <= g
    requires forall id | id in Last(run).providers :: Idle(Last(run).providers[id])
    ensures Within(longer, limit) && World(Last(longer), g) && Last(longer).watched == Last(run).watched
    ensures Last(longer).store == Last(run).store
    ensures forall id | id in Last(longer).providers :: Idle(Last(longer).providers[id])
    decreases g - n
  {
    if n == g {
      longer := run;
    } else {
      longer := Extended(run, Join(n, 1), limit);
      longer := RunJoins(longer, n + 1, g, limit);
    }
  }

  lemma ProviderCount(s: System, g: nat)
    requires World(s, g)
    ensures |s.providers| == g
  {
    assert s.providers.Keys == Below(g);
  }

  lemma Started(watched: Api, limit: nat) returns (run: Run)
    ensures Within(run, limit) && World(Last(run), 0) && Last(run).watched == watched
    ensures CountOf(Last(run).store, watched) == 0 && Last(run).providers == map[]
  {
    var s := System(0, Store(NoAddress, map[], map[]), map[], 0, 0, watched, Tally(0, 0, 0, 0, 0));
    run := Run([s], []);
    run := Extended(run, SetAddress(Origin), limit);
  }

  /** `limit + G - 1` is reached, so the bound cannot be lowered, and `limit` is not an upper bound once G > 1. */
  lemma OvershootIsTight(watched: Api, limit: nat, g: nat) returns (run: Run)
    requires 1 <= limit && 1 <= g
    ensures Within(run, limit) && |Last(run).providers| == g && Last(run).watched == watched
    ensures CountOf(Last(run).store, watched) == limit + g - 1
  {
    run := Started(watched, limit);
    run := RunJoins(run, 0, g, limit);
    run := RunSolo(run, limit - 1, limit, g);
    var xs := seq(g, _ => 0);
    run, xs := RunChecks(run, 0, g, xs, limit);
    run := RunCounts(run, g, g, xs, limit);
    ProviderCount(Last(run), g);
  }

  // ---------------------------------------------------------------------------
  // A reset in the middle of an attempt
  // ---------------------------------------------------------------------------

  /** One provider holds a confirmed reservation and has not counted it yet. */
  lemma ReservedRun(watched: Api, limit: nat) returns (run: Run, x: AttemptId, token: Token)
    requires 1 <= limit
    ensures Within(run, limit) && Last(run).watched == watched && 0 in Last(run).providers
    ensures Sole(Last(run).providers[0], x, watched, limit, Reserving(token), None, Some(Done(true)))
  {
    run := Started(watched, limit);
    run := RunJoins(run, 0, 1, limit);
    run, x := RunCheck(run, 0, limit);
    run, token := RunReserve(run, 0, x, limit);
  }

  /** A reset of the counters, which leaves every provider as it is. */
  lemma TurnReset(run: Run, limit: nat) returns (longer: Run)
    requires Within(run, limit)
    ensures Within(longer, limit) && Reset in longer.actions
    ensures Last(longer).watched == Last(run).watched && Last(longer).providers == Last(run).providers
    ensures Last(longer).nextToken == Last(run).nextToken && CountOf(Last(longer).store, Last(run).watched) == 0
    ensures Last(longer).tally.reserved == 0 && Last(longer).tally.issued == 0
  {
    longer := Extended(run, Reset, limit);
    assert longer.actions[|run.actions|] == Reset;
  }

  /** One more step of a run that was reset. */
  lemma Continued(run: Run, a: Action, limit: nat) returns (longer: Run)
    requires Within(run, limit) && Enabled(Last(run), a) && PassesWithin(Last(run), a, limit) && Reset in run.actions
    ensures Within(longer, limit) && Last(longer) == Next(Last(run), a) && Reset in longer.actions
  {
    longer := Extended(run, a, limit);
    assert forall i | 0 <= i < |run.actions| :: longer.actions[i] == run.actions[i];
  }

  /** Reachable from the start: after a reset between SET and HINCRBY, an increment without a reservation. */
  lemma ResetCanUncoverIncrement(watched: Api, limit: nat) returns (run: Run)
    requires 1 <= limit
    ensures Within(run, limit) && Reset in run.actions && Last(run).watched == watched
    ensures CountOf(Last(run).store, watched) == 1 && Last(run).tally.reserved == 0 && !Chain(Last(run))
  {
    var x, token;
    run, x, token := ReservedRun(watched, limit);
    run := TurnReset(run, limit);
    run := Continued(run, On(0, Deliver(x, true)), limit);
    run := Continued(run, On(0, ExecuteCurrent(x)), limit);
  }

  /** Reachable from the start: after a reset between HINCRBY and its reply, a ticket without an increment. */
  lemma ResetCanUncoverTicket(watched: Api, limit: nat) returns (run: Run)
    requires 1 <= limit
    ensures Within(run, limit) && Reset in run.actions && Last(run).watched == watched
    ensures CountOf(Last(run).store, watched) == 0 && Last(run).tally.issued == 1 && !Chain(Last(run))
  {
    var x, token;
    run, x, token := ReservedRun(watched, limit);
    run := TurnDeliver(run, 0, x, limit, Reserving(token), Done(true), Counting(token), Count(watched));
    run := TurnExecute(run, 0, x, limit, Counting(token), Count(watched));
    run := TurnReset(run, limit);
    run := Continued(run, On(0, Deliver(x, true)), limit);
  }
}
