/**
 * The shrink window is attained: for every configuration and every `m` there is a run
 * in which the limit drops to `m`, every refresh respects its timeout, and one
 * nanosecond before `lease_ttl + refresh_interval` has passed `m + 1` gateways are
 * still eligible.
 */
module ShrinkTight {
  import opened Common
  import opened TokenCell
  import opened GatewayLease
  import opened LeaseTiming

  /** Has read the old limit at time zero and not acted on it yet. */
  function Reader(config: Config, limit: nat): (g: Gateway) {
    Gateway(config, None, None, Reading(0), [], None, Some(LimitIs(Number(limit))))
  }

  /** Acted on it a whole interval later and won its slot. */
  function Holder(config: Config, slot: nat): (g: Gateway) {
    Gateway(config, Some(slot), Some(config.refresh + config.ttl), LoadingPolicy(config.refresh), [], None, None)
  }

  /** Gateways below `g` exist; those below `n` hold their slots, the others are readers of `limit`. */
  ghost predicate Stage(s: System, n: nat, g: nat, config: Config, limit: nat) {
    && (forall id: nat :: id in s.gateways <==> id < g)
    && (forall id | id in s.gateways ::
          s.gateways[id] == if id < n then Holder(config, id) else Reader(config, limit))
    && (forall slot: nat :: slot in s.slots <==> slot < n)
  }

  // ---------------------------------------------------------------------------
  // Everybody reads the old limit
  // ---------------------------------------------------------------------------

  /** `s'` differs from `s` at most in gateway `id`. */
  predicate OnlyGateway(s: System, s': System, id: GatewayId, g: Gateway) {
    s'.now == s.now && s'.limit == s.limit && s'.slots == s.slots && s'.gateways == s.gateways[id := g]
  }

  lemma OneReader(run: Run, n: nat, config: Config, limit: nat) returns (longer: Run)
    requires IsRun(run) && |run.states| > 0 && config.Validate()
    requires Last(run).now == 0 && Last(run).limit == Number(limit) && n !in Last(run).gateways
    ensures IsRun(longer) && |longer.states| > 0
    ensures OnlyGateway(Last(run), Last(longer), n, Reader(config, limit))
  {
    hide IsRun;
    longer := Extended(run, Join(n, config));
    longer := Extended(longer, On(n, Booted(0)));
    longer := Extended(longer, On(n, Wake));
    longer := Extended(longer, On(n, ExecuteCurrent));
    assert Last(longer).gateways == Last(run).gateways[n := Reader(config, limit)];
  }

  lemma {:induction false} Readers(run: Run, n: nat, g: nat, config: Config, limit: nat) returns (longer: Run)
    requires IsRun(run) && |run.states| > 0 && config.Validate() && n <= g
    requires Last(run).now == 0 && Last(run).limit == Number(limit) && Stage(Last(run), 0, n, config, limit)
    ensures IsRun(longer) && |longer.states| > 0
    ensures Last(longer).now == 0 && Stage(Last(longer), 0, g, config, limit)
    decreases g - n
  {
    hide IsRun;
    longer := run;
    if n < g {
      longer := OneReader(run, n, config, limit);
      longer := Readers(longer, n + 1, g, config, limit);
    }
  }

  // ---------------------------------------------------------------------------
  // The limit has dropped, and everybody acts on the old one in time
  // ---------------------------------------------------------------------------

  /** Since position `i` the limit is at most `m` and nobody overruns the refresh timeout. */
  ghost predicate Shrunk(run: Run, i: nat, m: nat) {
    && IsRun(run) && i < |run.states|
    && forall k | i <= k < |run.states| :: AtMost(run.states[k].limit, m) && Timely(run.states[k])
  }

  lemma ShrunkExtended(run: Run, i: nat, m: nat, a: Action) returns (longer: Run)
    requires Shrunk(run, i, m) && Enabled(Last(run), a)
    requires AtMost(Next(Last(run), a).limit, m) && Timely(Next(Last(run), a))
    ensures Shrunk(longer, i, m) && |longer.states| > 0
    ensures Last(longer) == Next(Last(run), a) && longer.states[i] == run.states[i]
  {
    hide Timely, AtMost, Next, Enabled, StepHolds;
    longer := Extended(run, a);
    assert forall k | 0 <= k < |run.states| :: longer.states[k] == run.states[k];
  }

  /** One move of one gateway that stays in time. */
  lemma ShrunkMove(run: Run, i: nat, m: nat, id: GatewayId, move: Move) returns (longer: Run)
    requires Shrunk(run, i, m) && Enabled(Last(run), On(id, move))
    requires AtMost(Last(run).limit, m) && Timely(Last(run))
    requires OnTime(Next(Last(run), On(id, move)).gateways[id], Last(run).now)
    ensures Shrunk(longer, i, m) && |longer.states| > 0 && Last(longer) == Next(Last(run), On(id, move))
    ensures longer.states[i] == run.states[i] && AtMost(Last(longer).limit, m) && Timely(Last(longer))
  {
    hide Shrunk, OnTime, AtMost, Moved, CanMove;
    longer := ShrunkExtended(run, i, m, On(id, move));
  }

  /** Awaits SET on slot `n`, or its reply. */
  function Claimant(config: Config, limit: nat, n: nat, won: bool): (g: Gateway) {
    Gateway(config, Some(n), None, Scanning(0, limit, n, 0, config.refresh), [],
            if won then None else Some(Reserve(n)), if won then Some(Done(true)) else None)
  }

  lemma Claims(s: System, n: nat, config: Config, limit: nat)
    requires s.now == config.refresh && n < limit && n in s.gateways && s.gateways[n] == Reader(config, limit)
    ensures Enabled(s, On(n, Deliver(n)))
    ensures Next(s, On(n, Deliver(n))) == s.(gateways := s.gateways[n := Claimant(config, limit, n, false)])
  {
    assert n % limit == n && ScanSlot(n, limit, 0) == n;
  }

  lemma Wins(s: System, n: nat, config: Config, limit: nat)
    requires s.now == config.refresh && n in s.gateways && n !in s.slots
    requires s.gateways[n] == Claimant(config, limit, n, false)
    ensures Enabled(s, On(n, ExecuteCurrent))
    ensures Next(s, On(n, ExecuteCurrent)) == s.(
              slots := s.slots[n := Entry(n, config.refresh + config.ttl)],
              gateways := s.gateways[n := Claimant(config, limit, n, true)])
  {
  }

  lemma Publishes(s: System, n: nat, config: Config, limit: nat)
    requires s.now == config.refresh && n in s.gateways && s.gateways[n] == Claimant(config, limit, n, true)
    ensures Enabled(s, On(n, Deliver(0)))
    ensures Next(s, On(n, Deliver(0))) == s.(gateways := s.gateways[n := Holder(config, n)])
  {
  }

  /** Gateway `n` wakes up to the old limit at the last moment and wins slot `n`. */
  lemma OneHolder(run: Run, i: nat, m: nat, n: nat, config: Config, limit: nat) returns (longer: Run)
    requires Shrunk(run, i, m) && AtMost(Last(run).limit, m) && Timely(Last(run)) && 0 < config.ttl
    requires Last(run).now == config.refresh && n < limit && n !in Last(run).slots
    requires n in Last(run).gateways && Last(run).gateways[n] == Reader(config, limit)
    ensures Shrunk(longer, i, m) && longer.states[i] == run.states[i]
    ensures AtMost(Last(longer).limit, m) && Timely(Last(longer)) && Last(longer).now == config.refresh
    ensures Last(longer).gateways == Last(run).gateways[n := Holder(config, n)]
    ensures Last(longer).slots == Last(run).slots[n := Entry(n, config.refresh + config.ttl)]
  {
    assert |run.states| > 0;
    hide Shrunk, Timely, AtMost, Next, Enabled;
    Claims(Last(run), n, config, limit);
    longer := ShrunkMove(run, i, m, n, Deliver(n));
    Wins(Last(longer), n, config, limit);
    longer := ShrunkMove(longer, i, m, n, ExecuteCurrent);
    Publishes(Last(longer), n, config, limit);
    longer := ShrunkMove(longer, i, m, n, Deliver(0));
  }

  lemma {:induction false} Holders(run: Run, i: nat, m: nat, n: nat, config: Config, limit: nat) returns (longer: Run)
    requires Shrunk(run, i, m) && AtMost(Last(run).limit, m) && Timely(Last(run)) && 0 < config.ttl
    requires Last(run).now == config.refresh && n <= limit && Stage(Last(run), n, limit, config, limit)
    ensures Shrunk(longer, i, m) && longer.states[i] == run.states[i] && AtMost(Last(longer).limit, m)
    ensures Last(longer).now == config.refresh && Stage(Last(longer), limit, limit, config, limit)
    decreases limit - n
  {
    hide Shrunk, Timely, AtMost;
    longer := run;
    if n < limit {
      longer := OneHolder(run, i, m, n, config, limit);
      longer := Holders(longer, i, m, n + 1, config, limit);
    }
  }

  /** Before the deadline all holders are eligible, and none is inside a cycle. */
  lemma HoldersEligible(s: System, g: nat, config: Config, limit: nat)
    requires Stage(s, g, g, config, limit) && s.now < config.refresh + config.ttl
    ensures |Eligible(s)| == g && Timely(s)
    ensures forall id | id in s.gateways :: s.gateways[id].config == config
  {
    assert Eligible(s) == Below(g);
  }

  lemma StageLasts(s: System, later: int, n: nat, g: nat, config: Config, limit: nat)
    requires Stage(s, n, g, config, limit)
    ensures Stage(s.(now := later), n, g, config, limit)
  {
  }

  /** A published limit, and nobody there yet. */
  lemma Started(limit: nat, config: Config) returns (run: Run)
    ensures IsRun(run) && |run.states| > 0
    ensures Last(run).now == 0 && Last(run).limit == Number(limit) && Stage(Last(run), 0, 0, config, limit)
  {
    run := Run([System(0, Missing, 0, map[], map[])], []);
    run := Extended(run, SetLimit(Number(limit)));
  }

  /** The limit drops while `m + 1` readers hold the old one, and time runs to the end of their timeout. */
  lemma Dropped(run: Run, m: nat, config: Config) returns (longer: Run, i: nat)
    requires IsRun(run) && |run.states| > 0 && Last(run).now == 0 && Stage(Last(run), 0, m + 1, config, m + 1)
    ensures Shrunk(longer, i, m) && longer.states[i].now == 0
    ensures AtMost(Last(longer).limit, m) && Timely(Last(longer)) && Last(longer).now == config.refresh
    ensures Stage(Last(longer), 0, m + 1, config, m + 1)
  {
    longer := Extended(run, SetLimit(Number(m)));
    i := |longer.states| - 1;
    assert Shrunk(longer, i, m);
    longer := ShrunkExtended(longer, i, m, Tick(config.refresh));
  }

  /** The window of `lease_ttl + refresh_interval` cannot be shortened by a nanosecond. */
  lemma ShrinkIsTight(m: nat, config: Config) returns (run: Run, i: nat, j: nat)
    requires config.Validate()
    ensures IsRun(run) && i <= j < |run.states|
    ensures forall k | i <= k <= j :: AtMost(run.states[k].limit, m) && Timely(run.states[k])
    ensures forall id | id in run.states[j].gateways :: run.states[j].gateways[id].config == config
    ensures run.states[j].now == run.states[i].now + config.ttl + config.refresh - 1
    ensures |Eligible(run.states[j])| == m + 1
  {
    hide Stage, Timely, AtMost, IsRun, Eligible;
    run := Started(m + 1, config);
    run := Readers(run, 0, m + 1, config, m + 1);
    run, i := Dropped(run, m, config);
    run := Holders(run, i, m, 0, config, m + 1);
    var last := config.refresh + config.ttl - 1;
    StageLasts(Last(run), last, m + 1, m + 1, config, m + 1);
    HoldersEligible(Last(run).(now := last), m + 1, config, m + 1);
    run := ShrunkExtended(run, i, m, Tick(last));
    j := |run.states| - 1;
  }
}
