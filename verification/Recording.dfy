/**
 * Request recording end to end: the policy snapshots of all providers, the lookup of
 * the request's API, and admission under that API's quota, side by side in every
 * interleaving. The quota bound then speaks of the policies the operator published.
 */
module Recording {
  import opened Common
  import opened Policy
  import P = PolicyStore
  import A = Admission
  import Q = QuotaBound
  import T = AcquireTask

  // ---------------------------------------------------------------------------
  // The policy decision for one request
  // ---------------------------------------------------------------------------

  datatype Decision = Ineligible | Eligible(quota: Option<A.Quota>)

  /** A capped policy brings its quota along. */
  function Verdict(limit: Option<nat>, api: Option<string>): (d: Decision) {
    if api.None? then Ineligible
    else Eligible(if limit.Some? then Some(A.Quota(api.value, limit.value)) else None)
  }

  /** No loaded policy, or no API for the path: not eligible. */
  function Decide(snapshot: P.Snapshot, path: string): (d: Decision) {
    if snapshot.policy.None? || |snapshot.policy.value.exact| != |snapshot.policy.value.exactPaths| then Ineligible
    else
      Verdict(snapshot.policy.value.caseLimit, Api(snapshot.policy.value, path))
  }

  /**
   * The decision is the declared meaning of the policy value the snapshot was loaded
   * from: eligible exactly when the rules give the path an API, under that API and
   * the policy's cap, and without a quota only when the policy has no cap.
   */
  lemma DecisionFollowsRules(snapshot: P.Snapshot, parsers: P.Parsers, path: string)
    requires P.Coherent(snapshot, parsers) && snapshot.policy.Some?
    ensures exists config, api: Option<string> ::
              && (if snapshot.raw.Some? then parsers.json(snapshot.raw.value) == Some(config) else config == DEFAULT)
              && Means(config, path, api)
              && var d := Decide(snapshot, path);
                 && (d.Eligible? <==> api.Some?)
                 && (d.Eligible? ==>
                       && (d.quota.None? <==> config.caseLimit.None?)
                       && (d.quota.Some? ==>
                             Some(d.quota.value.api) == api && Some(d.quota.value.limit) == config.caseLimit))
  {
    var config := if snapshot.raw.Some? then parsers.json(snapshot.raw.value).value else DEFAULT;
    CompiledRefinesRules(config, parsers.lib, path);
    assert Means(config, path, Api(CompiledOf(config), path));
  }

  /** Until the first load nothing is recorded; a missing policy key then records every path without a cap. */
  lemma MissingPolicyRecordsAll(parsers: P.Parsers, path: string)
    ensures Decide(P.UNLOADED, path) == Ineligible
    ensures P.PolicyOf(None, parsers).Some?
    ensures Decide(P.Snapshot(None, P.PolicyOf(None, parsers)), path) == Eligible(None)
  {
  }

  /** A zero cap records nothing, whatever the rules include. */
  lemma ZeroCapRecordsNothing(snapshot: P.Snapshot, path: string)
    requires snapshot.policy.Some? && snapshot.policy.value.caseLimit == Some(0)
    ensures Decide(snapshot, path) == Ineligible
  {
  }

  /**
   * A request under a capped policy reads the counter of its API before anything is
   * offered, is turned away exactly when that counter is at the cap, and is admitted
   * only after it was counted.
   */
  lemma CapIsEnforced(snapshot: P.Snapshot, path: string, scope: A.Scope, script: seq<T.Await>, cut: int,
                      token: A.Token, participating: bool)
    requires snapshot.policy.Some? && snapshot.policy.value.caseLimit.Some? && Decide(snapshot, path).Eligible?
    requires T.Says(script, 0, A.AddressIs(A.Origin))
    ensures var limit := snapshot.policy.value.caseLimit.value;
            var api := Api(snapshot.policy.value, path);
            var t := T.Drive(A.Begin(scope, Decide(snapshot, path).quota), script, cut, token, participating);
            && api.Some? && |t.sent| >= 2 && t.sent[..2] == [A.GetAddress, A.GetCount(api.value)]
            && (t.outcome.QuotaExhausted? <==> T.Exhausted(script, 1, limit))
            && (A.Reserve(scope, token) in t.sent ==> T.Room(script, 1, limit))
            && (t.outcome.Acquired? ==> A.Count(api.value) in t.sent && T.Says(script, 3, A.Counted))
  {
    var quota := Decide(snapshot, path).quota;
    T.OutcomeIsExact(scope, quota, script, cut, token, participating);
    var t := T.Drive(A.Begin(scope, quota), script, cut, token, participating);
    assert script[0].reply == A.AddressIs(A.Origin);
    T.DriveAwait(A.Begin(scope, quota), script, 0, cut, token, participating);
    assert script[0..] == script;
  }

  class RecordingProvider {
    const provider: T.Provider
    const store: P.Store

    constructor (provider: T.Provider, store: P.Store)
      ensures this.provider == provider && this.store == store
    {
      this.provider, this.store := provider, store;
    }

    /**
     * `try_acquire_request`: the three eligibility checks are those of the request,
     * of `acquire`, and of its end. Ineligible requests touch nothing.
     */
    method TryAcquireRequest(scope: A.Scope, path: string, conflict: bool, token: A.Token, atRequest: bool,
                             atStart: bool, atEnd: bool, now: int, script: seq<T.Await>, cut: int)
      returns (answer: T.Answer)
      modifies provider, provider.discovery
      ensures
        var decision := Decide(store.snapshot, path);
        var before := old(provider.discovery.Abs());
        var cooling := before.retryAfter.Some? && now < before.retryAfter.value;
        if !atRequest || decision.Ineligible? || !atStart || conflict || cooling || before.checking then
          && provider.sent == [] && provider.discovery.Abs() == before
          && answer ==
               if !atRequest then T.NotParticipant
               else if decision.Ineligible? then T.NotEligible
               else if !atStart then T.NotParticipant
               else if conflict then T.Decided(A.Failed)
               else T.Decided(if cooling then A.NoRecorder else A.Busy)
        else
          var t := T.Drive(A.Begin(scope, decision.quota), script, cut, token, atEnd);
          && answer == T.Decided(t.outcome) && provider.sent == t.sent
          && !provider.discovery.checking
          && provider.discovery.retryAfter ==
               if t.outcome.Acquired? || t.outcome.Busy? || t.outcome.QuotaExhausted? then None
               else Some(t.at + 10_000_000_000)
    {
      provider.sent := [];
      if !atRequest {
        return T.NotParticipant;
      }
      var decision := Decide(store.snapshot, path);
      if decision.Ineligible? {
        return T.NotEligible;
      }
      answer := provider.Acquire(scope, decision.quota, conflict, token, atStart, atEnd, now, script, cut);
    }
  }

  // ---------------------------------------------------------------------------
  // The whole system
  // ---------------------------------------------------------------------------

  /**
   * `versions` lists every value the policy key ever had, and each provider has its
   * own store. `decided` holds the decisions that requests took on some snapshot; a
   * request may act on its decision at any later time, whatever was loaded since.
   */
  datatype System = System(
    versions: seq<P.Raw>,
    stores: map<A.ProviderId, P.System>,
    decided: set<(A.ProviderId, Option<A.Quota>)>,
    admission: A.System)

  datatype Action =
    | Publish(raw: P.Raw)
    | Load(id: A.ProviderId, step: P.Action)
    | Look(id: A.ProviderId, path: string)
    | Request(id: A.ProviderId, scope: A.Scope, quota: Option<A.Quota>)
    | Admit(a: A.Action)

  ghost predicate Init(s: System) {
    |s.versions| == 1 && s.stores == map[] && s.decided == {} && A.Init(s.admission)
  }

  /** Attempts without a quota start freely (`try_acquire`); capped ones only through `Request`. */
  ghost predicate Enabled(s: System, a: Action) {
    match a
    case Publish(_) => true
    case Load(id, step) => id in s.stores && !step.Write? && P.Enabled(s.stores[id], step)
    case Look(id, path) => id in s.stores && Decide(s.stores[id].snapshot, path).Eligible?
    case Request(id, scope, quota) => (id, quota) in s.decided && A.Enabled(s.admission, AdmissionStep(s, a))
    case Admit(m) => A.Enabled(s.admission, m) && (m.On? && m.move.Start? ==> m.move.quota == None)
  }

  /** What a step means for admission; policy steps leave it where it is. */
  function AdmissionStep(s: System, a: Action): (m: A.Action) {
    match a
    case Publish(_) => A.Tick(s.admission.now)
    case Load(_, _) => A.Tick(s.admission.now)
    case Look(_, _) => A.Tick(s.admission.now)
    case Request(id, scope, quota) => A.On(id, A.Start(scope, quota))
    case Admit(m) => m
  }

  function Fresh(versions: seq<P.Raw>): (s: P.System) {
    P.System(versions, P.UNLOADED, 0, None, map[])
  }

  ghost function Next(s: System, a: Action, parsers: P.Parsers): (r: System)
    requires Enabled(s, a)
  {
    match a
    case Publish(raw) =>
      s.(versions := s.versions + [raw],
         stores := map id | id in s.stores :: P.Next(s.stores[id], P.Write(raw), parsers))
    case Load(id, step) => s.(stores := s.stores[id := P.Next(s.stores[id], step, parsers)])
    case Look(id, path) => s.(decided := s.decided + {(id, Decide(s.stores[id].snapshot, path).quota)})
    case Request(_, _, _) => s.(admission := A.Next(s.admission, AdmissionStep(s, a)))
    case Admit(m) =>
      s.(admission := A.Next(s.admission, m),
         stores := if m.Join? then s.stores[m.id := Fresh(s.versions)] else s.stores)
  }

  /** A request that looked may start, under the quota it was given, whenever the guard is free. */
  lemma LookLeadsToRequest(s: System, id: A.ProviderId, path: string, scope: A.Scope, parsers: P.Parsers)
    requires Enabled(s, Look(id, path)) && id in s.admission.providers
    requires A.CanMove(s.admission.providers[id], s.admission.now, A.Start(scope, None))
    ensures var quota := Decide(s.stores[id].snapshot, path).quota;
            var s' := Next(s, Look(id, path), parsers);
            && Enabled(s', Request(id, scope, quota))
            && AdmissionStep(s', Request(id, scope, quota)) == A.On(id, A.Start(scope, quota))
  {
  }

  datatype Run = Run(states: seq<System>, actions: seq<Action>)

  ghost predicate StepHolds(run: Run, parsers: P.Parsers, i: nat) {
    && i < |run.actions| && i + 1 < |run.states|
    && Enabled(run.states[i], run.actions[i])
    && run.states[i + 1] == Next(run.states[i], run.actions[i], parsers)
  }

  ghost predicate IsRun(run: Run, parsers: P.Parsers) {
    && |run.states| == |run.actions| + 1 && Init(run.states[0])
    && forall i: nat | i < |run.actions| :: StepHolds(run, parsers, i)
  }

  lemma StepAt(run: Run, parsers: P.Parsers, i: nat)
    requires IsRun(run, parsers) && i < |run.actions|
    ensures Enabled(run.states[i], run.actions[i])
    ensures run.states[i + 1] == Next(run.states[i], run.actions[i], parsers)
  {
    assert StepHolds(run, parsers, i);
  }

  // ---------------------------------------------------------------------------
  // Every run is a run of admission
  // ---------------------------------------------------------------------------

  function Projected(run: Run): (r: A.Run)
    requires |run.states| == |run.actions| + 1
  {
    A.Run(seq(|run.states|, i requires 0 <= i < |run.states| => run.states[i].admission),
          seq(|run.actions|, i requires 0 <= i < |run.actions| => AdmissionStep(run.states[i], run.actions[i])))
  }

  lemma ProjectedStep(s: System, a: Action, parsers: P.Parsers)
    requires Enabled(s, a)
    ensures A.Enabled(s.admission, AdmissionStep(s, a))
    ensures Next(s, a, parsers).admission == A.Next(s.admission, AdmissionStep(s, a))
  {
  }

  lemma ProjectedIsRun(run: Run, parsers: P.Parsers)
    requires IsRun(run, parsers)
    ensures A.IsRun(Projected(run))
  {
    var r := Projected(run);
    forall i: nat | i < |r.actions| ensures A.StepHolds(r, i)
    {
      StepAt(run, parsers, i);
      ProjectedStep(run.states[i], run.actions[i], parsers);
    }
  }

  // ---------------------------------------------------------------------------
  // Quotas come from published policies
  // ---------------------------------------------------------------------------

  /** The policy value `raw` gives `path` this quota. */
  ghost predicate Grants(raw: P.Raw, path: string, quota: A.Quota, parsers: P.Parsers) {
    var policy := P.PolicyOf(raw, parsers);
    && policy.Some? && policy.value.caseLimit == Some(quota.limit)
    && |policy.value.exact| == |policy.value.exactPaths|
    && Api(policy.value, path) == Some(quota.api)
  }

  /** Some published version grants the quota to some path. */
  ghost predicate Granted(versions: seq<P.Raw>, quota: A.Quota, parsers: P.Parsers) {
    exists k: nat, path :: k < |versions| && Grants(versions[k], path, quota, parsers)
  }

  /** `api` names the counter of some path under some published capped version. */
  ghost predicate IsField(versions: seq<P.Raw>, api: A.Api, parsers: P.Parsers) {
    exists quota: A.Quota :: Granted(versions, quota, parsers) && quota.api == api
  }

  ghost predicate StoresOk(s: System, parsers: P.Parsers) {
    forall id | id in s.stores :: s.stores[id].versions == s.versions && P.Inv(s.stores[id], parsers)
  }

  ghost predicate ProviderGranted(versions: seq<P.Raw>, p: A.Provider, parsers: P.Parsers) {
    && (forall x | x in p.attempts && p.attempts[x].quota.Some? ::
          Granted(versions, p.attempts[x].quota.value, parsers))
    && (forall i | 0 <= i < |p.stale| && p.stale[i].Count? :: IsField(versions, p.stale[i].api, parsers))
  }

  ghost predicate AdmissionOk(versions: seq<P.Raw>, s: A.System, parsers: P.Parsers) {
    && (forall id | id in s.providers :: ProviderGranted(versions, s.providers[id], parsers))
    && (forall api | api in s.store.counts :: IsField(versions, api, parsers))
  }

  ghost predicate DecisionsOk(versions: seq<P.Raw>, decided: set<(A.ProviderId, Option<A.Quota>)>, parsers: P.Parsers) {
    forall d | d in decided && d.1.Some? :: Granted(versions, d.1.value, parsers)
  }

  ghost predicate Inv(s: System, parsers: P.Parsers) {
    && s.versions != [] && StoresOk(s, parsers)
    && DecisionsOk(s.versions, s.decided, parsers)
    && AdmissionOk(s.versions, s.admission, parsers)
  }

  /** Publishing another version keeps what earlier ones granted. */
  lemma GrantedGrows(versions: seq<P.Raw>, raw: P.Raw, quota: A.Quota, parsers: P.Parsers)
    requires Granted(versions, quota, parsers)
    ensures Granted(versions + [raw], quota, parsers)
  {
    var k: nat, path :| k < |versions| && Grants(versions[k], path, quota, parsers);
    assert (versions + [raw])[k] == versions[k];
  }

  lemma AllGrow(versions: seq<P.Raw>, raw: P.Raw, decided: set<(A.ProviderId, Option<A.Quota>)>, s: A.System,
                parsers: P.Parsers)
    requires DecisionsOk(versions, decided, parsers) && AdmissionOk(versions, s, parsers)
    ensures DecisionsOk(versions + [raw], decided, parsers) && AdmissionOk(versions + [raw], s, parsers)
  {
    forall quota | Granted(versions, quota, parsers) ensures Granted(versions + [raw], quota, parsers) {
      GrantedGrows(versions, raw, quota, parsers);
    }
    assert forall api | IsField(versions, api, parsers) :: IsField(versions + [raw], api, parsers);
  }

  /** The quota a snapshot decides on is granted by the version it was loaded from. */
  lemma DecisionIsGranted(s: System, id: A.ProviderId, path: string, parsers: P.Parsers)
    requires StoresOk(s, parsers) && id in s.stores
    ensures var d := Decide(s.stores[id].snapshot, path);
            d.Eligible? && d.quota.Some? ==> Granted(s.versions, d.quota.value, parsers)
  {
    var store := s.stores[id];
    var d := Decide(store.snapshot, path);
    if d.Eligible? && d.quota.Some? {
      assert Grants(s.versions[store.version], path, d.quota.value, parsers);
    }
  }

  /** An increment sent by an awaiting attempt names its own quota's API. */
  lemma PendingIsField(versions: seq<P.Raw>, p: A.Provider, x: A.AttemptId, parsers: P.Parsers)
    requires ProviderGranted(versions, p, parsers) && Q.ProviderOk(p) && x in p.attempts
    requires p.attempts[x].current.Some? && p.attempts[x].current.value.Count?
    ensures IsField(versions, p.attempts[x].current.value.api, parsers)
  {
    assert Q.AttemptOk(p.attempts[x]);
    assert Granted(versions, p.attempts[x].quota.value, parsers);
  }

  lemma ProviderKeepsGrants(versions: seq<P.Raw>, p: A.Provider, s: A.System, move: A.Move, parsers: P.Parsers)
    requires ProviderGranted(versions, p, parsers) && Q.ProviderOk(p) && A.CanMove(p, s.now, move)
    requires move.Start? && move.quota.Some? ==> Granted(versions, move.quota.value, parsers)
    ensures ProviderGranted(versions, A.MovedProvider(p, s, move), parsers)
  {
    hide Granted, IsField;
    if move.Cancel? && A.Pending(p.attempts[move.attempt]) != [] && p.attempts[move.attempt].current.value.Count? {
      PendingIsField(versions, p, move.attempt, parsers);
    }
  }

  lemma StoreKeepsGrants(versions: seq<P.Raw>, p: A.Provider, s: A.System, move: A.Move, parsers: P.Parsers)
    requires ProviderGranted(versions, p, parsers) && Q.ProviderOk(p) && A.CanMove(p, s.now, move)
    requires forall api | api in s.store.counts :: IsField(versions, api, parsers)
    ensures forall api | api in A.MovedStore(p, s, move).counts :: IsField(versions, api, parsers)
  {
    hide Granted, IsField;
    if move.ExecuteCurrent? && p.attempts[move.attempt].current.value.Count? {
      PendingIsField(versions, p, move.attempt, parsers);
    }
  }

  lemma NewcomerIsGranted(versions: seq<P.Raw>, p: A.Provider, parsers: P.Parsers)
    requires p.attempts == map[] && p.stale == []
    ensures ProviderGranted(versions, p, parsers)
  {
  }

  lemma AdmissionStepKeeps(versions: seq<P.Raw>, s: A.System, m: A.Action, parsers: P.Parsers)
    requires AdmissionOk(versions, s, parsers) && Q.Inv(s) && A.Enabled(s, m)
    requires m.On? && m.move.Start? && m.move.quota.Some? ==> Granted(versions, m.move.quota.value, parsers)
    ensures AdmissionOk(versions, A.Next(s, m), parsers)
  {
    hide Granted, IsField, ProviderGranted, A.MovedProvider, A.MovedStore, Q.Bounded, Q.ProviderOk;
    if m.On? {
      ProviderKeepsGrants(versions, s.providers[m.id], s, m.move, parsers);
      StoreKeepsGrants(versions, s.providers[m.id], s, m.move, parsers);
    } else if m.Join? {
      NewcomerIsGranted(versions, A.Next(s, m).providers[m.id], parsers);
    }
  }

  lemma StoresKeep(s: System, a: Action, parsers: P.Parsers)
    requires Inv(s, parsers) && Enabled(s, a)
    ensures StoresOk(Next(s, a, parsers), parsers)
  {
    match a
    case Publish(raw) =>
      forall id | id in s.stores ensures P.Inv(P.Next(s.stores[id], P.Write(raw), parsers), parsers) {
        P.InvStep(s.stores[id], P.Write(raw), parsers);
      }
    case Load(id, step) => P.InvStep(s.stores[id], step, parsers);
    case _ =>
  }

  lemma InvStep(s: System, a: Action, parsers: P.Parsers)
    requires Inv(s, parsers) && Q.Inv(s.admission) && Enabled(s, a)
    ensures Inv(Next(s, a, parsers), parsers)
  {
    StoresKeep(s, a, parsers);
    match a
    case Publish(raw) => AllGrow(s.versions, raw, s.decided, s.admission, parsers);
    case Load(_, _) =>
    case Look(id, path) => DecisionIsGranted(s, id, path, parsers);
    case Request(id, _, quota) =>
      assert (id, quota) in s.decided;
      AdmissionStepKeeps(s.versions, s.admission, AdmissionStep(s, a), parsers);
    case Admit(m) => AdmissionStepKeeps(s.versions, s.admission, m, parsers);
  }

  lemma InvStart(s: System, parsers: P.Parsers)
    requires Init(s)
    ensures Inv(s, parsers)
  {
  }

  lemma {:induction false} InvAlways(run: Run, parsers: P.Parsers, i: nat)
    requires IsRun(run, parsers) && i < |run.states|
    ensures Inv(run.states[i], parsers)
    decreases i
  {
    hide Inv, Init, Enabled, Next, Q.Inv, A.IsRun, AdmissionStep;
    if i == 0 {
      InvStart(run.states[0], parsers);
    } else {
      InvAlways(run, parsers, i - 1);
      ProjectedIsRun(run, parsers);
      Q.InvAlways(Projected(run), i - 1);
      StepAt(run, parsers, i - 1);
      InvStep(run.states[i - 1], run.actions[i - 1], parsers);
    }
  }

  // ---------------------------------------------------------------------------
  // Main results
  // ---------------------------------------------------------------------------

  /** Every published version that caps its APIs caps them at `limit` or less. */
  ghost predicate CapsWithin(versions: seq<P.Raw>, limit: nat, parsers: P.Parsers) {
    forall k | 0 <= k < |versions| ::
      var policy := P.PolicyOf(versions[k], parsers);
      policy.Some? && policy.value.caseLimit.Some? ==> policy.value.caseLimit.value <= limit
  }

  /** A counter field is always the API of some path under some published, capped version. */
  lemma CountersAreApis(run: Run, parsers: P.Parsers, i: nat, api: A.Api)
    requires IsRun(run, parsers) && i < |run.states| && api in run.states[i].admission.store.counts
    ensures IsField(run.states[i].versions, api, parsers)
  {
    InvAlways(run, parsers, i);
  }

  /** A granted quota is positive and within the largest cap. */
  lemma GrantedWithin(versions: seq<P.Raw>, quota: A.Quota, limit: nat, parsers: P.Parsers)
    requires Granted(versions, quota, parsers) && CapsWithin(versions, limit, parsers)
    ensures 1 <= quota.limit <= limit
  {
    hide P.PolicyOf, Api;
    var k: nat, path :| k < |versions| && Grants(versions[k], path, quota, parsers);
    GrantsAtLeastOne(P.PolicyOf(versions[k], parsers).value, path);
  }

  /** Lookup yields no API under a zero cap. */
  lemma GrantsAtLeastOne(policy: Compiled, path: string)
    requires |policy.exact| == |policy.exactPaths| && Api(policy, path).Some?
    ensures policy.caseLimit != Some(0)
  {
  }

  /** Versions are only ever added. */
  lemma {:induction false} VersionsGrow(run: Run, parsers: P.Parsers, i: nat, j: nat)
    requires IsRun(run, parsers) && i <= j < |run.states|
    ensures run.states[i].versions <= run.states[j].versions
    decreases j
  {
    if i < j {
      VersionsGrow(run, parsers, i, j - 1);
      StepAt(run, parsers, j - 1);
    }
  }

  lemma PassesStayWithin(run: Run, parsers: P.Parsers, k: nat, i: nat, limit: nat)
    requires IsRun(run, parsers) && k < i < |run.states| && CapsWithin(run.states[i].versions, limit, parsers)
    ensures Q.PassesWithin(run.states[k].admission, AdmissionStep(run.states[k], run.actions[k]), limit)
  {
    InvAlways(run, parsers, k);
    VersionsGrow(run, parsers, k, i);
    var s, m := run.states[k].admission, AdmissionStep(run.states[k], run.actions[k]);
    assert CapsWithin(run.states[k].versions, limit, parsers);
    if m.On? && m.id in s.providers && m.move.ExecuteCurrent? && m.move.attempt in s.providers[m.id].attempts {
      var attempt := s.providers[m.id].attempts[m.move.attempt];
      if attempt.quota.Some? {
        GrantedWithin(run.states[k].versions, attempt.quota.value, limit, parsers);
      }
    }
  }

  /**
   * In every run the counter of every API stays within the largest `case-limit` ever
   * published plus G - 1, for G providers with independent snapshots, under every
   * interleaving of publications, loads, requests, losses and cancellations. If no
   * version ever allowed a capped case, it stays zero.
   */
  lemma PublishedCapsBoundCounters(run: Run, parsers: P.Parsers, i: nat, limit: nat)
    requires IsRun(run, parsers) && i < |run.states| && run.states[i].admission.providers != map[]
    requires CapsWithin(run.states[i].versions, limit, parsers)
    ensures var s := run.states[i].admission;
            && A.CountOf(s.store, s.watched) <= limit + |s.providers| - 1
            && (limit == 0 ==> A.CountOf(s.store, s.watched) == 0)
  {
    var s := run.states[i].admission;
    if limit == 0 {
      InvAlways(run, parsers, i);
      if s.watched in s.store.counts {
        var quota: A.Quota :| Granted(run.states[i].versions, quota, parsers) && quota.api == s.watched;
        GrantedWithin(run.states[i].versions, quota, limit, parsers);
        assert false;
      }
    } else {
      ProjectedIsRun(run, parsers);
      var r := Projected(run);
      forall k | 0 <= k < i ensures Q.PassesWithin(r.states[k], r.actions[k], limit) {
        PassesStayWithin(run, parsers, k, i, limit);
      }
      Q.Overshoot(r, 0, i, limit);
    }
  }
}
