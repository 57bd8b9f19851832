/**
 * Lease-limited admission: the lease protocol and request admission side by side on
 * one clock, where every eligibility check of `acquire` reads the provider's own
 * published deadline.
 */
module Participation {
  import opened Common
  import L = GatewayLease
  import S = LeaseSafety
  import A = Admission

  /** Provider and gateway share their identity. */
  datatype System = System(lease: L.System, admission: A.System)

  datatype Action = Lease(l: L.Action) | Admit(a: A.Action) | Tick(to: int)

  predicate IsParticipating(s: System, id: nat) { id in L.Eligible(s.lease) }

  /** Both eligibility checks of `acquire` are local reads of the deadline. */
  predicate ChecksLease(s: System, a: A.Action) {
    a.On? ==>
      && (a.move.Start? ==> IsParticipating(s, a.id))
      && (a.move.Deliver? ==> a.move.participating == IsParticipating(s, a.id))
  }

  predicate Enabled(s: System, a: Action) {
    match a
    case Lease(l) => !l.Tick? && L.Enabled(s.lease, l)
    case Admit(m) => !m.Tick? && A.Enabled(s.admission, m) && ChecksLease(s, m)
    case Tick(to) => L.Enabled(s.lease, L.Tick(to)) && A.Enabled(s.admission, A.Tick(to))
  }

  function Next(s: System, a: Action): (r: System)
    requires Enabled(s, a)
  {
    match a
    case Lease(l) => s.(lease := L.Next(s.lease, l))
    case Admit(m) => s.(admission := A.Next(s.admission, m))
    case Tick(to) => System(L.Next(s.lease, L.Tick(to)), A.Next(s.admission, A.Tick(to)))
  }

  datatype Run = Run(states: seq<System>, actions: seq<Action>)

  ghost predicate IsRun(run: Run) {
    && |run.states| == |run.actions| + 1
    && L.Init(run.states[0].lease) && A.Init(run.states[0].admission)
    && run.states[0].lease.now == run.states[0].admission.now
    && forall i | 0 <= i < |run.actions| ::
         Enabled(run.states[i], run.actions[i]) && run.states[i + 1] == Next(run.states[i], run.actions[i])
  }

  lemma {:induction false} LeaseInv(run: Run, i: nat)
    requires IsRun(run) && i < |run.states|
    ensures S.Inv(run.states[i].lease)
    ensures run.states[i].lease.now == run.states[i].admission.now
    decreases i
  {
    if i > 0 {
      LeaseInv(run, i - 1);
      var s, a := run.states[i - 1], run.actions[i - 1];
      match a
      case Lease(l) => S.InvStep(s.lease, l);
      case Admit(_) =>
      case Tick(to) => S.InvStep(s.lease, L.Tick(to));
    }
  }

  /** This step returns a ticket to a caller of provider `id`. */
  predicate Issues(s: System, a: Action, id: nat) {
    && a.Admit? && a.a.On? && a.a.id == id && a.a.move.Deliver?
    && id in s.admission.providers
    && var p := s.admission.providers[id];
       var x := a.a.move.attempt;
       && x in p.attempts && p.attempts[x].reply.Some?
       && var turn := A.Resume(p.attempts[x], p.attempts[x].reply.value, s.admission.nextToken, a.a.move.participating);
          turn.Returned? && turn.outcome.Acquired?
  }

  /**
   * Every ticket of a lease-limited provider is issued while the provider's boot
   * token is live in Redis under the slot it owns.
   */
  lemma TicketsNeedLiveSlots(run: Run, i: nat, id: nat)
    requires IsRun(run) && i < |run.actions| && Issues(run.states[i], run.actions[i], id)
    ensures var lease := run.states[i].lease;
            && id in lease.gateways && lease.gateways[id].owned.Some?
            && S.Live(lease.slots, lease.now, id, lease.gateways[id].owned.value)
  {
    LeaseInv(run, i);
    assert run.actions[i].a.move.participating;
  }

  /** At any instant, tickets can be issued by at most as many providers as the largest limit published. */
  lemma IssuersAreBounded(run: Run, i: nat, issuers: set<nat>)
    requires IsRun(run) && i < |run.states|
    requires forall id | id in issuers :: exists a :: Enabled(run.states[i], a) && Issues(run.states[i], a, id)
    ensures |issuers| <= run.states[i].lease.peak
  {
    LeaseInv(run, i);
    var s := run.states[i];
    forall id | id in issuers ensures id in L.Eligible(s.lease) {
      var a :| Enabled(s, a) && Issues(s, a, id);
      assert a.a.move.participating;
    }
    SubsetCardinality(issuers, L.Eligible(s.lease));
    S.EligibleBelow(s.lease, s.lease.peak);
  }
}
