/**
 * The background task as written: one object whose `owned_slot` and deadline are
 * updated across awaits. Each await's outcome comes from a script, so every
 * behaviour of Redis and of the timeout is covered. Every method is proved to end
 * exactly as the replies make it end, and every cycle to agree with the transition
 * system driven by the same script.
 */
module LeaseTask {
  import opened Common
  import opened GatewayLease
  import opened LeaseDrive
  import opened LeaseExact

  class Task {
    const config: Config
    var ownedSlot: Option<nat>
    var validUntil: Option<int>
    /** Commands sent in the current cycle, and the awaits consumed by them. */
    var sent: seq<Command>
    var consumed: nat

    constructor (config: Config)
      ensures this.config == config && ownedSlot == None && validUntil == None && sent == []
    {
      this.config := config;
      ownedSlot, validUntil, sent, consumed := None, None, [], 0;
    }

    /** This part of the cycle ended as `end` says; an error still needs the caller's `clear`. */
    ghost predicate Ended(before: seq<Command>, ok: bool, end: End)
      reads this
    {
      && ownedSlot == end.owned && sent == before + end.sent
      && if ok then validUntil == end.validUntil else end.validUntil == None
    }

    method Call(command: Command, script: seq<Await>) returns (outcome: Option<Await>)
      requires consumed <= |script|
      modifies this`sent, this`consumed
      ensures sent == old(sent) + [command]
      ensures if old(consumed) < |script| then outcome == Some(script[old(consumed)]) && consumed == old(consumed) + 1
              else outcome == None && consumed == old(consumed)
    {
      sent := sent + [command];
      outcome := None;
      if consumed < |script| {
        outcome := Some(script[consumed]);
        consumed := consumed + 1;
      }
    }

    /** The `for` loop of `refresh`: claim each slot in turn before awaiting, until one is not refused. */
    method Elect(limit: nat, first: nat, now: int, script: seq<Await>) returns (ok: bool, tried: seq<nat>)
      requires first < limit && consumed <= |script| && ownedSlot == None && validUntil == None
      modifies this
      ensures Ended(old(sent), ok, Election(script, old(consumed), limit, first, 0, now, config.ttl))
      // Visits distinct slots of 0..limit in circular order.
      ensures tried <= ScanOrder(first, limit)
      // A win or an unknown outcome keeps exactly the last slot tried.
      ensures ownedSlot.Some? ==> tried != [] && ownedSlot == Some(tried[|tried| - 1])
      ensures validUntil.Some? ==> ok && ownedSlot.Some?
      ensures !ok ==> ownedSlot.Some?
      // Ending unowned without error means every slot was tried and answered by an NX refusal.
      ensures ok && ownedSlot == None ==> tried == ScanOrder(first, limit) && Refusals(script, old(consumed), limit)
    {
      hide Election;
      var order := ScanOrder(first, limit);
      ghost var start, before := consumed, sent;
      ghost var goal := Election(script, start, limit, first, 0, now, config.ttl);
      tried := [];
      var clock := now;
      var step := 0;
      while step < limit
        invariant 0 <= step <= limit && tried == order[..step]
        invariant ownedSlot == None && validUntil == None
        invariant consumed == start + step && Refusals(script, start, step)
        invariant var rest := if step == limit then End(None, None, [])
                              else Election(script, consumed, limit, first, step, clock, config.ttl);
                  && goal.owned == rest.owned && goal.validUntil == rest.validUntil
                  && before + goal.sent == sent + rest.sent
      {
        var slot := order[step];
        ScanSlotIsModulo(first, limit, step);
        ElectionTurn(script, consumed, limit, first, step, clock, config.ttl);
        tried := tried + [slot];
        assert tried == order[..step + 1];
        ownedSlot := Some(slot);
        var outcome := Call(Reserve(slot), script);
        match outcome {
          case Some(Replied(Done(accepted), at)) =>
            if accepted {
              validUntil := Some(clock + config.ttl);
              return true, tried;
            }
            ownedSlot := None;
            clock := at;
          case _ =>
            return false, tried;
        }
        step := step + 1;
      }
      assert order[..limit] == order;
      return true, tried;
    }

    /** The tail of `refresh`, once the limit is known and any excess slot is released. */
    method Hold(limit: nat, now: int, script: seq<Await>, random: nat) returns (ok: bool)
      requires consumed <= |script| && (validUntil.Some? ==> ownedSlot.Some?)
      modifies this
      ensures Ended(old(sent), ok, HoldEnd(old(ownedSlot), script, old(consumed), limit, now, random, config.ttl))
    {
      if limit == 0 {
        validUntil := None;
        return true;
      }
      if ownedSlot.Some? {
        var started := now;
        var outcome := Call(Renew(ownedSlot.value), script);
        match outcome {
          case Some(Replied(Done(accepted), _)) =>
            if accepted {
              validUntil := Some(started + config.ttl);
            } else {
              validUntil := None;
              ownedSlot := None;
            }
            return true;
          case _ =>
            return false;
        }
      }
      var tried;
      ok, tried := Elect(limit, random % limit, now, script);
    }

    /** `refresh` once the limit is known: release an excess slot first. */
    method Settle(limit: nat, now: int, script: seq<Await>, random: nat) returns (ok: bool)
      requires consumed <= |script| && (validUntil.Some? ==> ownedSlot.Some?)
      modifies this
      ensures Ended(old(sent), ok, SettleEnd(old(ownedSlot), script, old(consumed), limit, now, random, config.ttl))
    {
      var clock := now;
      if ownedSlot.Some? && ownedSlot.value >= limit {
        validUntil := None;
        var outcome := Call(Release(ownedSlot.value), script);
        match outcome {
          case Some(Replied(Done(_), at)) =>
            ownedSlot := None;
            clock := at;
          case _ =>
            return false;
        }
      }
      ok := Hold(limit, clock, script, random);
    }

    /** `refresh` */
    method Refresh(script: seq<Await>, random: nat) returns (ok: bool)
      requires validUntil.Some? ==> ownedSlot.Some?
      modifies this
      ensures Ended([], ok, CycleEnd(old(ownedSlot), script, random, config.ttl))
    {
      sent, consumed := [], 0;
      var outcome := Call(GetLimit, script);
      match outcome {
        case Some(Replied(LimitIs(Missing), at)) => ok := Settle(0, at, script, random);
        case Some(Replied(LimitIs(Number(n)), at)) => ok := Settle(n, at, script, random);
        case _ => return false;
      }
    }

    /** `g` is this task in the transition system between two cycles, whatever is still on the wire. */
    ghost predicate Mirrors(g: Gateway)
      reads this
    {
      g.config == config && g.owned == ownedSlot && g.validUntil == validUntil
    }

    /** One iteration of `run`'s loop: a failed refresh revokes eligibility, not the slot. */
    method Cycle(script: seq<Await>, random: nat, ghost g: Gateway, ghost begun: int, ghost cut: int)
      requires (validUntil.Some? ==> ownedSlot.Some?) && Mirrors(g)
      modifies this
      // Slot, deadline and commands, from the replies alone.
      ensures End(ownedSlot, validUntil, sent) == CycleEnd(old(ownedSlot), script, random, config.ttl)
      // The task and its gateway stay in agreement, cycle after cycle.
      ensures var goal := Drive(Begin(g, begun), script, cut, random);
              Mirrors(goal.0) && sent == goal.1
      ensures validUntil.Some? ==> ownedSlot.Some?
    {
      DriveKeeps(Begin(g, begun), script, cut, random);
      CycleIsExact(g, begun, script, cut, random);
      var ok := Refresh(script, random);
      if !ok {
        validUntil := None;
      }
    }
  }
}
