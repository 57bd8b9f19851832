/**
 * Time-bounded behaviour of the lease: how fast a lowered limit takes effect, and
 * exactly when a healthy owner keeps its eligibility without a gap.
 */
module LeaseTiming {
  import opened Common
  import opened TokenCell
  import opened GatewayLease
  import opened LeaseSafety

  // ---------------------------------------------------------------------------
  // Shrink convergence
  // ---------------------------------------------------------------------------

  predicate AtMost(raw: RawLimit, m: nat) { raw.Number? ==> raw.n <= m }

  /** The refresh timeout has not been overrun. */
  predicate OnTime(g: Gateway, now: int) {
    g.phase.InCycle() ==> now <= g.phase.begun + g.config.refresh
  }

  ghost predicate Timely(s: System) {
    forall id | id in s.gateways :: OnTime(s.gateways[id], s.now)
  }

  /** Only cycles begun before `since` still act on a larger limit than `m`. */
  ghost predicate Shrinking(m: nat, since: int, g: Gateway) {
    && (g.phase.Reading? && g.reply.Some? && g.reply.value.LimitIs? && !AtMost(g.reply.value.raw, m) ==>
          g.phase.begun <= since)
    && ((g.phase.Releasing? || g.phase.Renewing? || g.phase.Scanning?) && g.phase.limit > m ==>
          g.phase.begun <= since)
    && (g.owned.Some? && g.owned.value >= m && g.validUntil.Some? ==>
          g.validUntil.value <= since + g.config.refresh + g.config.ttl)
  }

  ghost predicate AllShrinking(s: System, m: nat, since: int) {
    since <= s.now && forall id | id in s.gateways :: Shrinking(m, since, s.gateways[id])
  }

  lemma ShrinkMove(now: int, peak: nat, slots: Slots, limit: RawLimit, id: GatewayId, g: Gateway,
                   move: Move, m: nat, since: int)
    requires GatewayOk(now, peak, slots, id, g) && Shrinking(m, since, g)
    requires CanMove(now, g, move) && OnTime(g, now) && AtMost(limit, m)
    ensures Shrinking(m, since, Moved(slots, limit, now, id, g, move).1)
  {
    if move.Deliver? && !g.phase.Reading? {
      ShrinkAnswer(now, peak, slots, id, g, move.random, m, since);
    }
  }

  lemma ShrinkAnswer(now: int, peak: nat, slots: Slots, id: GatewayId, g: Gateway, random: nat, m: nat, since: int)
    requires GatewayOk(now, peak, slots, id, g) && Shrinking(m, since, g) && OnTime(g, now)
    requires g.phase.InCycle() && !g.phase.Reading? && g.reply.Some?
    ensures Shrinking(m, since, Resume(g, g.reply.value, now, random))
  {
  }

  lemma ShrinkStep(s: System, a: Action, m: nat, since: int)
    requires Inv(s) && Enabled(s, a) && AllShrinking(s, m, since) && Timely(s) && AtMost(s.limit, m)
    ensures AllShrinking(Next(s, a), m, since)
  {
    var s' := Next(s, a);
    if a.On? {
      ShrinkMove(s.now, s.peak, s.slots, s.limit, a.id, s.gateways[a.id], a.move, m, since);
    }
  }

  lemma ShrinkStart(s: System, m: nat)
    requires Inv(s)
    ensures AllShrinking(s, m, s.now)
  {
    forall id | id in s.gateways ensures Shrinking(m, s.now, s.gateways[id]) {
      assert GatewayOk(s.now, s.peak, s.slots, id, s.gateways[id]);
    }
  }

  lemma ShrinkStepAt(run: Run, i: nat, m: nat, since: int)
    requires Steps(run) && i < |run.actions| && Inv(run.states[i]) && AllShrinking(run.states[i], m, since)
    requires Timely(run.states[i]) && AtMost(run.states[i].limit, m)
    ensures AllShrinking(run.states[i + 1], m, since)
  {
    hide Inv, AllShrinking, Timely, AtMost, Enabled, Next;
    StepAt(run, i);
    ShrinkStep(run.states[i], run.actions[i], m, since);
  }

  lemma {:induction false} ShrinkAlways(run: Run, i: nat, j: nat, m: nat)
    requires IsRun(run) && i <= j < |run.states|
    requires forall k | i <= k <= j :: AtMost(run.states[k].limit, m) && Timely(run.states[k])
    ensures AllShrinking(run.states[j], m, run.states[i].now)
    decreases j
  {
    hide Inv, AllShrinking, Timely, AtMost;
    if i == j {
      InvAlways(run, i);
      ShrinkStart(run.states[i], m);
    } else {
      ShrinkAlways(run, i, j - 1, m);
      InvAlways(run, j - 1);
      ShrinkStepAt(run, j - 1, m, run.states[i].now);
    }
  }

  /**
   * Once the published limit has stayed at or below `m` for every gateway's
   * `lease_ttl + refresh_interval`, at most `m` gateways are eligible.
   */
  lemma ShrinkConverges(run: Run, i: nat, j: nat, m: nat, window: int)
    requires IsRun(run) && i <= j < |run.states|
    requires forall k | i <= k <= j :: AtMost(run.states[k].limit, m) && Timely(run.states[k])
    requires forall id | id in run.states[j].gateways ::
               var config := run.states[j].gateways[id].config; config.ttl + config.refresh <= window
    requires run.states[i].now + window <= run.states[j].now
    ensures |Eligible(run.states[j])| <= m
  {
    var s := run.states[j];
    ShrinkAlways(run, i, j, m);
    InvAlways(run, j);
    forall id | id in Eligible(s) && s.gateways[id].owned.Some?
      ensures s.gateways[id].owned.value < m
    {
      assert Shrinking(m, run.states[i].now, s.gateways[id]);
    }
    EligibleBelow(s, m);
  }

  // ---------------------------------------------------------------------------
  // Renewal continuity
  // ---------------------------------------------------------------------------

  /** `load` itself gives up after 200 ms. */
  const LOAD_BUDGET: int := 200_000_000

  function Min(a: int, b: int): (least: int) { if a < b then a else b }

  /** The longest policy load of the background task: a quarter interval, within the load budget. */
  function LoadTime(config: Config): (longest: int) { Min(config.refresh / 4, LOAD_BUDGET) }

  /** The longest refresh when replies take at most `latency`: the timeout cuts it. */
  function CycleTime(config: Config, latency: int): (longest: int) { Min(latency, config.refresh) }

  /** The longest interval between two publications that the timers allow. */
  function Gap(config: Config, latency: int): (longest: int) {
    2 * CycleTime(config, latency) + LoadTime(config) + 6 * config.refresh / 5
  }

  /** Every refresh ends within `latency` and its timeout, and no timer of the task fires late. */
  predicate Prompt(g: Gateway, now: int, latency: int) {
    && (g.phase.InCycle() ==> now <= g.phase.begun + CycleTime(g.config, latency))
    && (g.phase.LoadingPolicy? ==> now <= g.phase.since + LoadTime(g.config))
    && (g.phase.Sleeping? ==> now <= g.phase.wake)
  }

  /** Nothing interferes with `id`: no failure, loss or stop, and its slot stays inside the limit. */
  predicate Undisturbed(s: System, a: Action, id: GatewayId) {
    && (a.On? && a.id == id ==> !a.move.Abandon? && !a.move.LoseCurrent? && !a.move.Stop?)
    && id in s.gateways && s.gateways[id].owned.Some?
    && s.limit.Number? && s.gateways[id].owned.value < s.limit.n
  }

  /** Time left on the published deadline, phase by phase. */
  ghost predicate Secure(g: Gateway, latency: int) {
    && g.validUntil.Some? && g.owned.Some? && g.stale == []
    && var deadline := g.validUntil.value;
       var cycle := CycleTime(g.config, latency);
       match g.phase
       case LoadingPolicy(since) => since + LoadTime(g.config) + 6 * g.config.refresh / 5 + cycle < deadline
       case Sleeping(wake) => wake + cycle < deadline
       case Reading(begun) =>
         && begun + cycle < deadline
         && (g.reply.Some? ==>
               && g.reply.value.LimitIs? && g.reply.value.raw.Number?
               && g.owned.value < g.reply.value.raw.n)
       case Renewing(begun, _, _) => begun + cycle < deadline && (g.reply.Some? ==> g.reply.value == Done(true))
       case _ => false
  }

  lemma SecureIsEligible(g: Gateway, now: int, latency: int)
    requires Secure(g, latency) && Prompt(g, now, latency) && 0 <= latency
    ensures IsValid(g, now)
  {
  }

  lemma SecureMove(now: int, peak: nat, slots: Slots, limit: RawLimit, id: GatewayId, g: Gateway,
                   move: Move, latency: int)
    requires GatewayOk(now, peak, slots, id, g) && Secure(g, latency) && Prompt(g, now, latency)
    requires CanMove(now, g, move) && !move.Abandon? && !move.LoseCurrent? && !move.Stop?
    requires limit.Number? && g.owned.value < limit.n
    requires 0 <= latency && Gap(g.config, latency) < g.config.ttl
    ensures Secure(Moved(slots, limit, now, id, g, move).1, latency)
    ensures Moved(slots, limit, now, id, g, move).1.owned == g.owned
    ensures Moved(slots, limit, now, id, g, move).1.config == g.config
  {
    SecureIsEligible(g, now, latency);
    if move.PolicyDone? {
      assert 10 * move.pause <= 12 * g.config.refresh;
    }
  }

  lemma SecureStep(s: System, a: Action, id: GatewayId, latency: int)
    requires Inv(s) && Enabled(s, a) && Undisturbed(s, a, id)
    requires Secure(s.gateways[id], latency) && Prompt(s.gateways[id], s.now, latency)
    requires 0 <= latency && Gap(s.gateways[id].config, latency) < s.gateways[id].config.ttl
    ensures id in Next(s, a).gateways && Secure(Next(s, a).gateways[id], latency)
    ensures Next(s, a).gateways[id].config == s.gateways[id].config
  {
    if a.On? && a.id == id {
      SecureMove(s.now, s.peak, s.slots, s.limit, id, s.gateways[id], a.move, latency);
    }
  }

  /** `id` has just published a deadline after a cycle of at most `latency`, cut by its timeout. */
  ghost predicate JustPublished(s: System, id: GatewayId, latency: int) {
    && id in s.gateways
    && var g := s.gateways[id];
       && g.phase == LoadingPolicy(s.now) && g.owned.Some? && g.stale == []
       && g.validUntil.Some? && s.now + g.config.ttl <= g.validUntil.value + CycleTime(g.config, latency)
  }

  lemma SecureStart(s: System, id: GatewayId, latency: int)
    requires JustPublished(s, id, latency)
    requires Gap(s.gateways[id].config, latency) < s.gateways[id].config.ttl
    ensures Secure(s.gateways[id], latency)
  {
  }

  lemma SecureStepAt(run: Run, i: nat, id: GatewayId, latency: int)
    requires Steps(run) && i < |run.actions| && Inv(run.states[i])
    requires Undisturbed(run.states[i], run.actions[i], id)
    requires Secure(run.states[i].gateways[id], latency) && 0 <= latency
    requires Prompt(run.states[i].gateways[id], run.states[i].now, latency)
    requires Gap(run.states[i].gateways[id].config, latency) < run.states[i].gateways[id].config.ttl
    ensures id in run.states[i + 1].gateways && Secure(run.states[i + 1].gateways[id], latency)
    ensures run.states[i + 1].gateways[id].config == run.states[i].gateways[id].config
  {
    hide Inv, Secure, Prompt, Gap, Enabled, Next;
    StepAt(run, i);
    SecureStep(run.states[i], run.actions[i], id, latency);
  }

  lemma {:induction false} SecureAlways(run: Run, i: nat, j: nat, id: GatewayId, latency: int)
    requires IsRun(run) && i <= j < |run.states| && 0 <= latency
    requires JustPublished(run.states[i], id, latency)
    requires Gap(run.states[i].gateways[id].config, latency) < run.states[i].gateways[id].config.ttl
    requires forall k | i <= k < j :: Undisturbed(run.states[k], run.actions[k], id)
    requires forall k | i <= k <= j && id in run.states[k].gateways ::
               Prompt(run.states[k].gateways[id], run.states[k].now, latency)
    ensures id in run.states[j].gateways && Secure(run.states[j].gateways[id], latency)
    ensures run.states[j].gateways[id].config == run.states[i].gateways[id].config
    decreases j
  {
    hide Inv, Secure, Prompt, Gap;
    if i == j {
      SecureStart(run.states[i], id, latency);
    } else {
      SecureAlways(run, i, j - 1, id, latency);
      InvAlways(run, j - 1);
      assert Undisturbed(run.states[j - 1], run.actions[j - 1], id);
      SecureStepAt(run, j - 1, id, latency);
    }
  }

  /** A successful cycle of at most `latency` ends in a freshly published deadline. */
  lemma SuccessPublishes(s: System, id: GatewayId, random: nat, latency: int)
    requires Inv(s) && id in s.gateways && Prompt(s.gateways[id], s.now, latency)
    requires s.gateways[id].phase.Renewing? || s.gateways[id].phase.Scanning?
    requires s.gateways[id].reply == Some(Done(true))
    ensures JustPublished(Next(s, On(id, Deliver(random))), id, latency)
  {
    hide PhaseOk, Backed, Live, Resume;
    var g := s.gateways[id];
    assert GatewayOk(s.now, s.peak, s.slots, id, g);
    AcceptedPublishes(s.now, s.peak, s.slots, id, g, random);
  }

  lemma AcceptedPublishes(now: int, peak: nat, slots: Slots, id: GatewayId, g: Gateway, random: nat)
    requires PhaseOk(now, peak, slots, id, g) && g.reply == Some(Done(true))
    requires g.phase.Renewing? || g.phase.Scanning?
    ensures g.phase.begun <= g.phase.started && g.owned.Some? && g.stale == []
    ensures Resume(g, g.reply.value, now, random) == Finish(Publish(g, g.phase.started), now)
  {
  }

  /** Between positions `i` and `j`, gateway `id` published once and was never disturbed or delayed. */
  ghost predicate Healthy(run: Run, i: nat, j: nat, id: GatewayId, latency: int) {
    && IsRun(run) && i <= j < |run.states|
    && JustPublished(run.states[i], id, latency)
    && (forall k | i <= k < j :: Undisturbed(run.states[k], run.actions[k], id))
    && (forall k | i <= k <= j && id in run.states[k].gateways ::
          Prompt(run.states[k].gateways[id], run.states[k].now, latency))
  }

  ghost predicate NeverLapses(config: Config, latency: int) {
    forall run: Run, i: nat, j: nat, id: GatewayId |
      Healthy(run, i, j, id, latency) && run.states[i].gateways[id].config == config ::
      id in Eligible(run.states[j])
  }

  /** A healthy owner never lapses while the gap between publications is below the TTL. */
  lemma ContinuousEligibility(run: Run, i: nat, j: nat, id: GatewayId, latency: int)
    requires Healthy(run, i, j, id, latency) && 0 <= latency
    requires Gap(run.states[i].gateways[id].config, latency) < run.states[i].gateways[id].config.ttl
    ensures id in Eligible(run.states[j])
  {
    SecureAlways(run, i, j, id, latency);
    SecureIsEligible(run.states[j].gateways[id], run.states[j].now, latency);
  }

  /**
   * A validated configuration tolerates every latency below 0.775 of the interval,
   * and below 0.9 of it less half the load budget.
   */
  lemma ValidatedTolerance(config: Config, latency: int)
    requires config.Validate() && 0 <= latency
    requires 1000 * latency < 775 * config.refresh || 10 * latency < 9 * config.refresh - 5 * LOAD_BUDGET
    ensures Gap(config, latency) < config.ttl
    ensures NeverLapses(config, latency)
  {
    ContinuityIsExact(config, latency);
  }

  function Last(run: Run): (s: System)
    requires |run.states| > 0
  {
    run.states[|run.states| - 1]
  }

  /** One gateway, alone, holding slot 0 of a limit of one. */
  function Solo(now: int, config: Config, slots: Slots, g: Gateway): (s: System) {
    System(now, Number(1), 1, slots, map[0 := g])
  }

  function SoloOwner(config: Config, phase: Phase): (g: Gateway) {
    Gateway(config, Some(0), Some(config.ttl), phase, [], None, None)
  }

  /** A run prolonged by one action. */
  lemma Extended(run: Run, a: Action) returns (longer: Run)
    requires IsRun(run) && Enabled(run.states[|run.states| - 1], a)
    ensures IsRun(longer) && longer.states == run.states + [Next(run.states[|run.states| - 1], a)]
    ensures longer.actions == run.actions + [a]
  {
    longer := Run(run.states + [Next(run.states[|run.states| - 1], a)], run.actions + [a]);
    var n := |run.actions|;
    forall i: nat | i < n + 1 ensures StepHolds(longer, i) {
      if i < n {
        StepAt(run, i);
        assert longer.states[i] == run.states[i] && longer.states[i + 1] == run.states[i + 1];
      }
    }
  }

  /** The gateway starts at time zero and waits for its first limit. */
  lemma StartedRun(config: Config) returns (run: Run)
    requires config.Validate()
    ensures IsRun(run)
    ensures Last(run) == Solo(0, config, map[], Gateway(config, None, None, Reading(0), [], Some(GetLimit), None))
  {
    var s := System(0, Missing, 0, map[], map[]);
    run := Run([s], []);
    run := Extended(run, SetLimit(Number(1)));
    run := Extended(run, Join(0, config));
    run := Extended(run, On(0, Booted(0)));
    run := Extended(run, On(0, Wake));
  }

  /** It wins its slot in a cycle of exactly `cycle`. */
  lemma ElectionRun(config: Config, cycle: int) returns (run: Run)
    requires config.Validate() && 0 <= cycle
    ensures IsRun(run) && |run.states| > 0
    ensures Last(run) == Solo(cycle, config, map[0 := Entry(0, config.ttl)],
                              SoloOwner(config, LoadingPolicy(cycle)))
  {
    hide IsRun;
    run := StartedRun(config);
    run := Extended(run, On(0, ExecuteCurrent));
    run := Extended(run, On(0, Deliver(0)));
    assert Last(run) == Solo(0, config, map[],
                             Gateway(config, Some(0), None, Scanning(0, 1, 0, 0, 0), [], Some(Reserve(0)), None));
    run := Extended(run, On(0, ExecuteCurrent));
    assert Last(run).slots == map[0 := Entry(0, config.ttl)];
    run := Extended(run, Tick(cycle));
    run := Extended(run, On(0, Deliver(0)));
  }

  lemma HealthyStart(run: Run, id: GatewayId, latency: int)
    requires IsRun(run) && |run.states| > 0 && JustPublished(Last(run), id, latency)
    requires Prompt(Last(run).gateways[id], Last(run).now, latency)
    ensures Healthy(run, |run.states| - 1, |run.states| - 1, id, latency)
  {
  }

  lemma HealthyExtended(run: Run, i: nat, id: GatewayId, latency: int, a: Action) returns (longer: Run)
    requires |run.states| > 0 && Healthy(run, i, |run.states| - 1, id, latency)
    requires Enabled(Last(run), a) && Undisturbed(Last(run), a, id)
    requires Prompt(Next(Last(run), a).gateways[id], Next(Last(run), a).now, latency)
    ensures |longer.states| == |run.states| + 1 && Last(longer) == Next(Last(run), a)
    ensures longer.states[i] == run.states[i]
    ensures Healthy(longer, i, |run.states|, id, latency)
  {
    longer := Extended(run, a);
    var n := |run.actions|;
    assert forall k | 0 <= k <= n :: longer.states[k] == run.states[k];
    assert forall k | 0 <= k < n :: longer.actions[k] == run.actions[k];
  }

  /**
   * Every stage after the publication then takes as long as its timer allows, and
   * the deadline passes while the next refresh is still within its latency and timeout.
   */
  lemma LapsingRun(config: Config, latency: int, pause: int) returns (run: Run, i: nat, j: nat)
    requires config.Validate() && 0 <= latency && config.ttl <= Gap(config, latency)
    requires 10 * pause == 12 * config.refresh
    ensures Healthy(run, i, j, 0, latency)
    ensures run.states[i].gateways[0].config == config
    ensures 0 !in Eligible(run.states[j])
  {
    hide IsRun, Steps, Healthy;
    var cycle := CycleTime(config, latency);
    var loaded := cycle + LoadTime(config);
    var wake := loaded + pause;
    run := ElectionRun(config, cycle);
    i := |run.states| - 1;
    HealthyStart(run, 0, latency);
    run := HealthyExtended(run, i, 0, latency, Tick(loaded));
    run := HealthyExtended(run, i, 0, latency, On(0, PolicyDone(pause)));
    run := HealthyExtended(run, i, 0, latency, Tick(wake));
    run := HealthyExtended(run, i, 0, latency, On(0, Wake));
    run := HealthyExtended(run, i, 0, latency, Tick(wake + cycle));
    j := |run.states| - 1;
  }

  /** Validated intervals are whole milliseconds, so the longest pause is a whole duration too. */
  lemma WholeMillis(config: Config)
    requires config.Validate()
    ensures 10 * (6 * config.refresh / 5) == 12 * config.refresh
  {
    assert config.refresh % 5 == 0;
  }

  /**
   * Exactness: healthy owners keep their eligibility without a gap if and only if
   * the longest interval between publications is below the lease TTL.
   */
  lemma ContinuityIsExact(config: Config, latency: int)
    requires config.Validate() && 0 <= latency
    ensures NeverLapses(config, latency) <==> Gap(config, latency) < config.ttl
  {
    hide Gap, IsRun, Undisturbed, Prompt, Eligible;
    if Gap(config, latency) < config.ttl {
      forall run: Run, i: nat, j: nat, id: GatewayId |
        Healthy(run, i, j, id, latency) && run.states[i].gateways[id].config == config
        ensures id in Eligible(run.states[j])
      {
        ContinuousEligibility(run, i, j, id, latency);
      }
    } else {
      WholeMillis(config);
      var run, i, j := LapsingRun(config, latency, 6 * config.refresh / 5);
      assert Healthy(run, i, j, 0, latency);
    }
  }

  /** The default 30 s lease with a 10 s interval never lapses exactly while refreshes stay below 8.9 s. */
  lemma DefaultTimeoutsCanLapse()
    ensures var second := 1_000_000_000;
            var config := Config(30 * second, 10 * second);
            && config.Validate()
            && !NeverLapses(config, config.refresh)
            && forall latency | 0 <= latency :: NeverLapses(config, latency) <==> latency < 8_900_000_000
  {
    var config := Config(30_000_000_000, 10_000_000_000);
    forall latency | 0 <= latency ensures NeverLapses(config, latency) <==> latency < 8_900_000_000 {
      ContinuityIsExact(config, latency);
    }
  }

  // ---------------------------------------------------------------------------
  // Pauses between cycles
  // ---------------------------------------------------------------------------

  /** Gateway `id` goes to sleep at `i` and begins its next cycle at `j`. */
  ghost predicate Sleeps(run: Run, i: nat, j: nat, id: GatewayId, pause: int) {
    && Steps(run) && i < j < |run.actions|
    && run.actions[i] == On(id, PolicyDone(pause)) && run.actions[j] == On(id, Wake)
    && forall k | i < k < j :: run.actions[k] != On(id, Wake) && run.actions[k] != On(id, Stop)
  }

  lemma {:induction false} StaysAsleep(run: Run, i: nat, j: nat, k: nat, id: GatewayId, pause: int)
    requires Sleeps(run, i, j, id, pause) && i < k <= j
    ensures id in run.states[k].gateways && run.states[k].gateways[id].phase == Sleeping(run.states[i].now + pause)
    decreases k
  {
    StepAt(run, k - 1);
    if i + 1 < k {
      StaysAsleep(run, i, j, k - 1, id, pause);
    }
  }

  /**
   * A standby waits at least one full interval before it competes again; a participant
   * may renew after 0.8 of it. Neither pause exceeds 1.2 intervals.
   */
  lemma PausesAreBounded(run: Run, i: nat, j: nat, id: GatewayId, pause: int)
    requires Sleeps(run, i, j, id, pause)
    ensures id in run.states[i].gateways
    ensures var s, interval := run.states[i], run.states[i].gateways[id].config.refresh;
            && run.states[j].now >= s.now + pause
            && 10 * pause <= 12 * interval
            && (id in Eligible(s) ==> 8 * interval <= 10 * pause)
            && (id !in Eligible(s) ==> interval <= pause)
  {
    StepAt(run, i);
    StaysAsleep(run, i, j, j, id, pause);
    StepAt(run, j);
  }
}
