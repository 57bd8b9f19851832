/**
 * Safety of the participation lease in every reachable state of every run:
 * local eligibility is always backed by a live Redis slot, and slots are exclusive.
 */
module LeaseSafety {
  import opened Common
  import opened TokenCell
  import opened GatewayLease

  /** Gateway `id` owns slot key `slot` in Redis at `now`. */
  predicate Live(slots: Slots, now: int, id: GatewayId, slot: nat) {
    Owns(At(slots, slot), now, id)
  }

  /** Redis keeps the slot for `id` at least until `deadline`, unless that has passed. */
  predicate Backed(slots: Slots, now: int, id: GatewayId, owned: Option<nat>, deadline: int) {
    now < deadline ==>
      && owned.Some? && Live(slots, now, id, owned.value)
      && deadline <= slots[owned.value].expiry
  }

  /** A command still on the wire concerns the slot its sender believes it may own. */
  predicate Concerns(command: Command, owned: Option<nat>) {
    command.GetLimit? || owned == Some(command.slot)
  }

  /** What each suspended phase has sent, and what its pending reply certifies. */
  ghost predicate PhaseOk(now: int, peak: nat, slots: Slots, id: GatewayId, g: Gateway) {
    match g.phase
    case Booting(_) => g.owned == None && g.stale == []
    case Sleeping(_) => true
    case LoadingPolicy(_) => true
    case Stopped => true
    case Reading(begun) =>
      && begun <= now
      && (g.current.Some? ==> g.current.value == GetLimit)
      && (g.reply.Some? ==> g.reply.value.LimitIs? && (g.reply.value.raw.Number? ==> g.reply.value.raw.n <= peak))
    case Releasing(begun, limit) =>
      && begun <= now && limit <= peak && g.stale == [] && g.validUntil == None
      && g.owned.Some?
      && (g.current.Some? ==> g.current.value == Release(g.owned.value))
      && (g.reply.Some? ==> g.reply.value.Done? && !Live(slots, now, id, g.owned.value))
    case Renewing(begun, limit, started) =>
      && begun <= started <= now && limit <= peak && g.stale == []
      && g.owned.Some? && g.owned.value < limit
      && (g.current.Some? ==> g.current.value == Renew(g.owned.value))
      && (g.reply.Some? ==> g.reply.value.Done? &&
                            if g.reply.value.accepted then Backed(slots, now, id, g.owned, started + g.config.ttl)
                            else !Live(slots, now, id, g.owned.value))
    case Scanning(begun, limit, first, step, started) =>
      && begun <= started <= now && limit <= peak && g.stale == [] && g.validUntil == None
      && first < limit && step < limit && g.owned == Some(ScanSlot(first, limit, step))
      && (g.current.Some? ==> g.current.value == Reserve(g.owned.value) && !Live(slots, now, id, g.owned.value))
      && (g.reply.Some? ==> g.reply.value.Done? &&
                            if g.reply.value.accepted then Backed(slots, now, id, g.owned, started + g.config.ttl)
                            else !Live(slots, now, id, g.owned.value))
  }

  ghost predicate GatewayOk(now: int, peak: nat, slots: Slots, id: GatewayId, g: Gateway) {
    && g.config.Validate()
    && (g.reply.Some? ==> g.current == None && g.stale == [])
    && (!g.phase.InCycle() ==> g.current == None && g.reply == None)
    && (forall i | 0 <= i < |g.stale| :: Concerns(g.stale[i], g.owned))
    && (g.owned.Some? ==> g.owned.value < peak)
    // The token is live under the owned slot key or nowhere.
    && (forall slot | Live(slots, now, id, slot) :: g.owned == Some(slot) && slots[slot].expiry <= now + g.config.ttl)
    // A published deadline is backed by Redis, and nothing on the wire can revoke it.
    && (g.validUntil.Some? ==>
          && g.owned.Some?
          && g.validUntil.value <= now + g.config.ttl
          && Backed(slots, now, id, g.owned, g.validUntil.value)
          && forall i | 0 <= i < |g.stale| :: !g.stale[i].Release?)
    && PhaseOk(now, peak, slots, id, g)
  }

  ghost predicate Inv(s: System) {
    && (forall id | id in s.gateways :: GatewayOk(s.now, s.peak, s.slots, id, s.gateways[id]))
    && (forall slot | slot in s.slots :: s.slots[slot].token in s.gateways)
    && (s.limit.Number? ==> s.limit.n <= s.peak)
  }

  // ---------------------------------------------------------------------------
  // Preservation, one kind of step at a time
  // ---------------------------------------------------------------------------

  lemma TimePasses(now: int, later: int, peak: nat, slots: Slots, id: GatewayId, g: Gateway)
    requires GatewayOk(now, peak, slots, id, g) && now <= later
    ensures GatewayOk(later, peak, slots, id, g)
  {
    assert forall slot | Live(slots, later, id, slot) :: Live(slots, now, id, slot);
  }

  lemma PeakGrows(now: int, peak: nat, peak': nat, slots: Slots, id: GatewayId, g: Gateway)
    requires GatewayOk(now, peak, slots, id, g) && peak <= peak'
    ensures GatewayOk(now, peak', slots, id, g)
  {
  }

  /** Another gateway's command leaves `id`'s standing untouched. */
  lemma OthersCommand(now: int, peak: nat, slots: Slots, id: GatewayId, g: Gateway,
                      limit: RawLimit, other: GatewayId, ttl: int, command: Command)
    requires GatewayOk(now, peak, slots, id, g) && other != id
    ensures GatewayOk(now, peak, Execute(slots, limit, now, other, ttl, command).0, id, g)
  {
    var slots' := Execute(slots, limit, now, other, ttl, command).0;
    if !command.GetLimit? {
      Isolation(At(slots, command.slot), now, SlotOp(command, other, ttl), id);
      assert forall slot :: Live(slots', now, id, slot) <==> Live(slots, now, id, slot);
      assert forall slot | Live(slots, now, id, slot) :: slots'[slot] == slots[slot];
    }
  }

  /** The gateway's own command, awaited or abandoned, executes at Redis. */
  lemma OwnStale(now: int, peak: nat, slots: Slots, id: GatewayId, g: Gateway, limit: RawLimit)
    requires GatewayOk(now, peak, slots, id, g) && g.stale != []
    ensures var (slots', g') := Moved(slots, limit, now, id, g, ExecuteStale);
            GatewayOk(now, peak, slots', id, g')
  {
    var command := g.stale[0];
    var (slots', g') := Moved(slots, limit, now, id, g, ExecuteStale);
    assert forall i | 0 <= i < |g'.stale| :: g'.stale[i] == g.stale[i + 1];
    if !command.GetLimit? {
      assert forall slot | slot != command.slot :: At(slots', slot) == At(slots, slot);
      assert forall slot | Live(slots', now, id, slot) && slot != command.slot :: Live(slots, now, id, slot);
    }
  }

  /** What one command does for the gateway that sent it. */
  lemma ExecutedOwn(slots: Slots, limit: RawLimit, now: int, id: GatewayId, ttl: int, command: Command)
    requires 0 < ttl
    ensures var (slots', reply) := Execute(slots, limit, now, id, ttl, command);
            if command.GetLimit? then slots' == slots && reply == LimitIs(limit)
            else
              var slot := command.slot;
              && reply.Done?
              && (forall other | other != slot :: Live(slots', now, id, other) <==> Live(slots, now, id, other))
              && (forall other | other != slot && Live(slots, now, id, other) :: slots'[other] == slots[other])
              && (Live(slots', now, id, slot) ==> slot in slots')
              && (reply.accepted && !command.Release? ==>
                    Live(slots', now, id, slot) && slots'[slot].expiry == now + ttl)
              && (command.Renew? ==> (reply.accepted <==> Live(slots, now, id, slot)))
              && (command.Renew? && !reply.accepted ==> !Live(slots', now, id, slot))
              && (command.Reserve? && !reply.accepted ==> slots' == slots)
              && (command.Release? ==> !Live(slots', now, id, slot))
  {
    var slots' := Execute(slots, limit, now, id, ttl, command).0;
    if !command.GetLimit? {
      assert forall other | other != command.slot :: At(slots', other) == At(slots, other);
    }
  }

  lemma OwnCurrent(now: int, peak: nat, slots: Slots, id: GatewayId, g: Gateway, limit: RawLimit)
    requires GatewayOk(now, peak, slots, id, g) && g.stale == [] && g.current.Some?
    requires limit.Number? ==> limit.n <= peak
    ensures var (slots', g') := Moved(slots, limit, now, id, g, ExecuteCurrent);
            GatewayOk(now, peak, slots', id, g')
  {
    hide Execute, Live;
    ExecutedOwn(slots, limit, now, id, g.config.ttl, g.current.value);
  }

  /** A cycle fails, or the task is aborted: the awaited command stays on the wire. */
  lemma OwnEnd(now: int, peak: nat, slots: Slots, id: GatewayId, g: Gateway)
    requires GatewayOk(now, peak, slots, id, g)
    ensures g.phase.InCycle() ==> GatewayOk(now, peak, slots, id, Fail(g, now))
    ensures GatewayOk(now, peak, slots, id, Halt(g))
  {
    var pending := if g.current.Some? then [g.current.value] else [];
    assert forall c | c in pending :: Concerns(c, g.owned);
  }

  lemma OwnLoss(now: int, peak: nat, slots: Slots, id: GatewayId, g: Gateway, index: nat)
    requires GatewayOk(now, peak, slots, id, g)
    ensures index < |g.stale| ==> GatewayOk(now, peak, slots, id, g.(stale := g.stale[..index] + g.stale[index + 1..]))
    ensures GatewayOk(now, peak, slots, id, g.(current := None))
  {
  }

  /** Everything else a gateway does without touching Redis. */
  lemma OwnLocal(now: int, peak: nat, slots: Slots, id: GatewayId, g: Gateway, limit: RawLimit, move: Move)
    requires GatewayOk(now, peak, slots, id, g) && CanMove(now, g, move)
    requires move.Booted? || move.Wake? || move.PolicyDone?
    ensures GatewayOk(now, peak, slots, id, Moved(slots, limit, now, id, g, move).1)
  {
  }

  /** The task goes on after it learnt the limit, or after it released an excess slot. */
  lemma GoesOn(now: int, peak: nat, slots: Slots, id: GatewayId, g: Gateway, begun: int, limit: nat, random: nat)
    requires GatewayOk(now, peak, slots, id, g.(phase := LoadingPolicy(now), current := None, reply := None))
    requires g.stale == [] && begun <= now && limit <= peak
    requires g.owned.Some? ==> g.owned.value < limit
    ensures GatewayOk(now, peak, slots, id, WithinLimit(g, begun, limit, now, random))
  {
  }

  lemma DeliverLimit(now: int, peak: nat, slots: Slots, id: GatewayId, g: Gateway, random: nat)
    requires GatewayOk(now, peak, slots, id, g) && g.phase.Reading? && g.reply.Some?
    ensures GatewayOk(now, peak, slots, id, Resume(g, g.reply.value, now, random))
  {
    var raw := g.reply.value.raw;
    if !raw.Malformed? {
      var limit := if raw.Missing? then 0 else raw.n;
      if !(g.owned.Some? && g.owned.value >= limit) {
        GoesOn(now, peak, slots, id, g, g.phase.begun, limit, random);
      }
    }
  }

  lemma DeliverAnswer(now: int, peak: nat, slots: Slots, id: GatewayId, g: Gateway, random: nat)
    requires GatewayOk(now, peak, slots, id, g) && g.reply.Some?
    requires g.phase.Releasing? || g.phase.Renewing? || g.phase.Scanning?
    ensures GatewayOk(now, peak, slots, id, Resume(g, g.reply.value, now, random))
  {
    if g.phase.Releasing? {
      GoesOn(now, peak, slots, id, g.(owned := None), g.phase.begun, g.phase.limit, random);
    }
  }

  lemma OwnMove(s: System, id: GatewayId, move: Move)
    requires Inv(s) && id in s.gateways && CanMove(s.now, s.gateways[id], move)
    ensures var (slots', g') := Moved(s.slots, s.limit, s.now, id, s.gateways[id], move);
            GatewayOk(s.now, s.peak, slots', id, g')
  {
    hide GatewayOk, Execute, Resume, Fail, Halt;
    var g := s.gateways[id];
    assert GatewayOk(s.now, s.peak, s.slots, id, g);
    match move {
      case ExecuteStale => OwnStale(s.now, s.peak, s.slots, id, g, s.limit);
      case ExecuteCurrent => OwnCurrent(s.now, s.peak, s.slots, id, g, s.limit);
      case Deliver(random) =>
        if g.phase.Reading? {
          DeliverLimit(s.now, s.peak, s.slots, id, g, random);
        } else {
          DeliverAnswer(s.now, s.peak, s.slots, id, g, random);
        }
      case LoseStale(index) => OwnLoss(s.now, s.peak, s.slots, id, g, index);
      case LoseCurrent => OwnLoss(s.now, s.peak, s.slots, id, g, 0);
      case Abandon => OwnEnd(s.now, s.peak, s.slots, id, g);
      case Stop => OwnEnd(s.now, s.peak, s.slots, id, g);
      case _ => OwnLocal(s.now, s.peak, s.slots, id, g, s.limit, move);
    }
  }

  lemma OthersMove(s: System, id: GatewayId, move: Move, other: GatewayId)
    requires Inv(s) && id in s.gateways && CanMove(s.now, s.gateways[id], move)
    requires other in s.gateways && other != id
    ensures var slots' := Moved(s.slots, s.limit, s.now, id, s.gateways[id], move).0;
            GatewayOk(s.now, s.peak, slots', other, s.gateways[other])
  {
    var g := s.gateways[id];
    if move.ExecuteStale? {
      OthersCommand(s.now, s.peak, s.slots, other, s.gateways[other], s.limit, id, g.config.ttl, g.stale[0]);
    } else if move.ExecuteCurrent? {
      OthersCommand(s.now, s.peak, s.slots, other, s.gateways[other], s.limit, id, g.config.ttl, g.current.value);
    }
  }

  lemma OnlyKnownTokens(slots: Slots, limit: RawLimit, now: int, id: GatewayId, ttl: int, command: Command)
    ensures var slots' := Execute(slots, limit, now, id, ttl, command).0;
            forall slot | slot in slots' :: slots'[slot].token == id || (slot in slots && slots'[slot] == slots[slot])
  {
  }

  lemma InvMove(s: System, id: GatewayId, move: Move)
    requires Inv(s) && Enabled(s, On(id, move))
    ensures Inv(Next(s, On(id, move)))
  {
    var s' := Next(s, On(id, move));
    forall other | other in s'.gateways
      ensures GatewayOk(s'.now, s'.peak, s'.slots, other, s'.gateways[other])
    {
      if other == id {
        OwnMove(s, id, move);
      } else {
        OthersMove(s, id, move, other);
      }
    }
    var g := s.gateways[id];
    if move.ExecuteStale? {
      OnlyKnownTokens(s.slots, s.limit, s.now, id, g.config.ttl, g.stale[0]);
    } else if move.ExecuteCurrent? {
      OnlyKnownTokens(s.slots, s.limit, s.now, id, g.config.ttl, g.current.value);
    }
  }

  lemma InvStep(s: System, a: Action)
    requires Inv(s) && Enabled(s, a)
    ensures Inv(Next(s, a))
  {
    var s' := Next(s, a);
    match a
    case Tick(to) =>
      forall id | id in s.gateways ensures GatewayOk(to, s.peak, s.slots, id, s.gateways[id]) {
        TimePasses(s.now, to, s.peak, s.slots, id, s.gateways[id]);
      }
    case SetLimit(raw) =>
      forall id | id in s.gateways ensures GatewayOk(s.now, s'.peak, s.slots, id, s.gateways[id]) {
        PeakGrows(s.now, s.peak, s'.peak, s.slots, id, s.gateways[id]);
      }
    case Join(id, config) =>
      assert GatewayOk(s.now, s.peak, s.slots, id, s'.gateways[id]);
    case On(id, move) =>
      InvMove(s, id, move);
  }

  lemma InvStepAt(run: Run, i: nat)
    requires Steps(run) && i < |run.actions| && Inv(run.states[i])
    ensures Inv(run.states[i + 1])
  {
    hide Inv, Enabled, Next;
    StepAt(run, i);
    InvStep(run.states[i], run.actions[i]);
  }

  lemma InvStart(s: System)
    requires Init(s)
    ensures Inv(s)
  {
  }

  lemma {:induction false} InvAlways(run: Run, i: nat)
    requires IsRun(run) && i < |run.states|
    ensures Inv(run.states[i])
    decreases i
  {
    hide Inv, Init;
    if i == 0 {
      InvStart(run.states[0]);
    } else {
      InvAlways(run, i - 1);
      InvStepAt(run, i - 1);
    }
  }

  // ---------------------------------------------------------------------------
  // What the invariant means
  // ---------------------------------------------------------------------------

  /** A locally eligible gateway is live in Redis under its owned slot until its deadline. */
  lemma EligibleIsBacked(run: Run, i: nat, id: GatewayId)
    requires IsRun(run) && i < |run.states| && id in Eligible(run.states[i])
    ensures var s := run.states[i];
            var g := s.gateways[id];
            && g.owned.Some? && Live(s.slots, s.now, id, g.owned.value)
            && g.validUntil.value <= s.slots[g.owned.value].expiry
  {
    InvAlways(run, i);
  }

  /**
   * A boot token is live in at most one slot key, the one `owned_slot` names. So
   * `owned_slot` is None only while Redis holds the token nowhere, and no command
   * that could recreate it is still on the wire.
   */
  lemma TokenOnlyWhereOwned(run: Run, i: nat, id: GatewayId, slot: nat)
    requires IsRun(run) && i < |run.states| && id in run.states[i].gateways
    ensures var s := run.states[i];
            var g := s.gateways[id];
            && (Live(s.slots, s.now, id, slot) ==> g.owned == Some(slot))
            && (g.owned == None ==>
                  && g.validUntil == None
                  && (forall c | c in g.stale :: c.GetLimit?)
                  && (g.current.Some? ==> g.current.value.GetLimit?))
  {
    InvAlways(run, i);
  }

  function OwnedSlots(s: System): (r: map<nat, nat>) {
    map id | id in s.gateways && s.gateways[id].owned.Some? :: s.gateways[id].owned.value
  }

  /** Eligible gateways confined below `n` are at most `n`, because their slots differ. */
  lemma EligibleBelow(s: System, n: nat)
    requires Inv(s)
    requires forall id | id in Eligible(s) :: s.gateways[id].owned.Some? ==> s.gateways[id].owned.value < n
    ensures |Eligible(s)| <= n
  {
    Pigeonhole(Eligible(s), OwnedSlots(s), n);
  }

  /** Never more eligible gateways than the largest limit ever published. */
  lemma AtMostPeakEligible(run: Run, i: nat, n: nat)
    requires IsRun(run) && i < |run.states|
    requires forall j | 0 <= j <= i && run.states[j].limit.Number? :: run.states[j].limit.n <= n
    ensures |Eligible(run.states[i])| <= n
  {
    InvAlways(run, i);
    PeakIsPublished(run, i, n);
    EligibleBelow(run.states[i], n);
  }

  lemma {:induction false} PeakIsPublished(run: Run, i: nat, n: nat)
    requires IsRun(run) && i < |run.states|
    requires forall j | 0 <= j <= i && run.states[j].limit.Number? :: run.states[j].limit.n <= n
    ensures run.states[i].peak <= n
    decreases i
  {
    if i > 0 {
      PeakIsPublished(run, i - 1, n);
      StepAt(run, i - 1);
    }
  }
}
