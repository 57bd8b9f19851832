/**
 * `acquire` as written: one sequence of awaits under a discovery guard. The outcome
 * of every await comes from a script, so cancellation and failure are covered at
 * every point. The method is proved to follow the transition system's `Resume`, and
 * to leave the shared discovery state as its guard decides on every exit path.
 */
module AcquireTask {
  import opened Common
  import opened Admission
  import D = Discovery
  import K = Ticket

  /** A reply, or an error or cancellation at this await. */
  datatype Await = Replied(reply: Reply, at: int) | Interrupted(at: int)

  datatype Trace = Trace(outcome: Outcome, sent: seq<Command>, at: int)

  /** The transition system driven by the same script; a script that ends early is a cancellation at `cut`. */
  function Drive(a: Attempt, script: seq<Await>, cut: int, token: Token, participating: bool): (t: Trace)
    decreases |script|
  {
    var sent := Pending(a);
    if script == [] then Trace(Failed, sent, cut)
    else match script[0]
         case Interrupted(at) => Trace(Failed, sent, at)
         case Replied(reply, at) =>
           match Resume(a, reply, token, participating)
           case Returned(outcome) => Trace(outcome, sent, at)
           case Awaiting(next) =>
             var rest := Drive(next, script[1..], cut, token, participating);
             rest.(sent := sent + rest.sent)
  }

  /** One await of the driven system. */
  lemma DriveAwait(a: Attempt, script: seq<Await>, i: nat, cut: int, token: Token, participating: bool)
    requires i <= |script|
    ensures var t := Drive(a, script[i..], cut, token, participating);
            if i == |script| then t == Trace(Failed, Pending(a), cut)
            else if script[i].Interrupted? then t == Trace(Failed, Pending(a), script[i].at)
            else match Resume(a, script[i].reply, token, participating)
                 case Returned(outcome) => t == Trace(outcome, Pending(a), script[i].at)
                 case Awaiting(next) =>
                   var rest := Drive(next, script[i + 1..], cut, token, participating);
                   t == rest.(sent := Pending(a) + rest.sent)
  {
    if i < |script| {
      assert script[i..][1..] == script[i + 1..];
    }
  }

  /**
   * The commands behind each outcome: the address comes first, a missing recorder
   * reads no counter, only an acquired slot is counted, and an uncapped API uses no
   * counter command at all.
   */
  lemma CommandsPerOutcome(scope: Scope, quota: Option<Quota>, script: seq<Await>, cut: int, token: Token,
                           participating: bool)
    ensures var t := Drive(Begin(scope, quota), script, cut, token, participating);
            var check := if quota.Some? then [GetCount(quota.value.api)] else [];
            var count := if quota.Some? then [Count(quota.value.api)] else [];
            && t.sent <= [GetAddress] + check + [Reserve(scope, token)] + count
            && (t.outcome.NoRecorder? ==> t.sent == [GetAddress])
            && (t.outcome.QuotaExhausted? ==> quota.Some? && t.sent == [GetAddress] + check)
            && (t.outcome.Busy? ==> t.sent == [GetAddress] + check + [Reserve(scope, token)])
            && (t.outcome.Acquired? ==>
                  && t.outcome.token == token && participating
                  && t.sent == [GetAddress] + check + [Reserve(scope, token)] + count)
  {
    hide Drive;
    var a := Begin(scope, quota);
    DriveAwait(a, script, 0, cut, token, participating);
    assert script[0..] == script;
    if script != [] && script[0].Replied? && script[0].reply.AddressIs? {
      var turn := Resume(a, script[0].reply, token, participating);
      if turn.Awaiting? && quota.None? {
        AfterOffer(turn.attempt, script[1..], cut, token, participating);
      } else if turn.Awaiting? {
        AfterCheck(turn.attempt, script[1..], cut, token, participating);
      }
    }
  }

  lemma AfterCheck(a: Attempt, script: seq<Await>, cut: int, token: Token, participating: bool)
    requires a.quota.Some? && a.phase == Checking && a.current == Some(GetCount(a.quota.value.api))
    ensures var t := Drive(a, script, cut, token, participating);
            var check := [GetCount(a.quota.value.api)];
            var count := [Count(a.quota.value.api)];
            && t.sent <= check + [Reserve(a.scope, token)] + count && t.sent != []
            && !t.outcome.NoRecorder?
            && (t.outcome.QuotaExhausted? ==> t.sent == check)
            && (t.outcome.Busy? ==> t.sent == check + [Reserve(a.scope, token)])
            && (t.outcome.Acquired? ==>
                  t.outcome.token == token && participating && t.sent == check + [Reserve(a.scope, token)] + count)
  {
    if script != [] && script[0].Replied? {
      var turn := Resume(a, script[0].reply, token, participating);
      if turn.Awaiting? {
        AfterOffer(turn.attempt, script[1..], cut, token, participating);
      }
    }
  }

  lemma AfterOffer(a: Attempt, script: seq<Await>, cut: int, token: Token, participating: bool)
    requires a.phase == Reserving(token) && a.current == Some(Reserve(a.scope, token))
    ensures var t := Drive(a, script, cut, token, participating);
            var count := if a.quota.Some? then [Count(a.quota.value.api)] else [];
            && t.sent <= [Reserve(a.scope, token)] + count && t.sent != []
            && !t.outcome.NoRecorder? && !t.outcome.QuotaExhausted?
            && (t.outcome.Busy? ==> t.sent == [Reserve(a.scope, token)])
            && (t.outcome.Acquired? ==>
                  t.outcome.token == token && participating && t.sent == [Reserve(a.scope, token)] + count)
  {
    if script != [] && script[0].Replied? {
      var t1 := Resume(a, script[0].reply, token, participating);
      if t1.Awaiting? {
        var rest := Drive(t1.attempt, script[1..], cut, token, participating);
        if script[1..] != [] && script[1..][0].Replied? {
          var t2 := Resume(t1.attempt, script[1..][0].reply, token, participating);
          assert t2.Returned?;
        }
      }
    }
  }

  // ---------------------------------------------------------------------------
  // Which replies lead to which outcome
  // ---------------------------------------------------------------------------

  /** The i-th await yields exactly this reply. */
  predicate Says(script: seq<Await>, i: nat, reply: Reply) {
    i < |script| && script[i].Replied? && script[i].reply == reply
  }

  /** The count read by the i-th await is below the limit. */
  predicate Room(script: seq<Await>, i: nat, limit: nat) {
    i < |script| && script[i].Replied? && script[i].reply.CountIs? && script[i].reply.n < limit
  }

  predicate Exhausted(script: seq<Await>, i: nat, limit: nat) {
    i < |script| && script[i].Replied? && script[i].reply.CountIs? && limit <= script[i].reply.n
  }

  /** The scopes and replies for which `acquire` offers its token. */
  predicate Offered(scope: Scope, quota: Option<Quota>, script: seq<Await>) {
    && K.Sendable(scope)
    && Says(script, 0, AddressIs(Origin))
    && (quota.Some? ==> Room(script, 1, quota.value.limit))
  }

  /** The position of the await on SET. */
  function Slot(quota: Option<Quota>): (i: nat) { if quota.Some? then 2 else 1 }

  /**
   * Every outcome and every command, from the scope and the replies alone: the token
   * is offered exactly for a sendable scope and an origin with room, the increment is
   * sent exactly after an accepted SET of a capped API, and a ticket needs all of it
   * and the final eligibility.
   */
  lemma OutcomeIsExact(scope: Scope, quota: Option<Quota>, script: seq<Await>, cut: int, token: Token,
                       participating: bool)
    ensures var t := Drive(Begin(scope, quota), script, cut, token, participating);
            var won := Offered(scope, quota, script) && Says(script, Slot(quota), Done(true));
            && (t.outcome.NoRecorder? <==> Says(script, 0, AddressIs(NoAddress)))
            && (t.outcome.QuotaExhausted? <==>
                  && quota.Some? && Exhausted(script, 1, quota.value.limit)
                  && (Says(script, 0, AddressIs(Origin)) || Says(script, 0, AddressIs(NotOrigin))))
            && (t.outcome.Busy? <==> Offered(scope, quota, script) && Says(script, Slot(quota), Done(false)))
            && (t.outcome.Acquired? <==> won && (quota.Some? ==> Says(script, 3, Counted)) && participating)
            && (Reserve(scope, token) in t.sent <==> Offered(scope, quota, script))
            && (quota.Some? ==> (Count(quota.value.api) in t.sent <==> won))
  {
    var a := Begin(scope, quota);
    if script != [] && script[0].Replied? {
      var turn := Resume(a, script[0].reply, token, participating);
      if turn.Awaiting? && quota.None? {
        OfferIsExact(turn.attempt, script, 1, cut, token, participating);
      } else if turn.Awaiting? {
        CheckIsExact(turn.attempt, script, cut, token, participating);
      }
    }
  }

  lemma CheckIsExact(a: Attempt, script: seq<Await>, cut: int, token: Token, participating: bool)
    requires script != []
    requires a.quota.Some? && a.phase == Checking && a.current == Some(GetCount(a.quota.value.api))
    ensures var t := Drive(a, script[1..], cut, token, participating);
            var limit := a.quota.value.limit;
            var offered := a.usable && K.Sendable(a.scope) && Room(script, 1, limit);
            && !t.outcome.NoRecorder?
            && (t.outcome.QuotaExhausted? <==> Exhausted(script, 1, limit))
            && (t.outcome.Busy? <==> offered && Says(script, 2, Done(false)))
            && (t.outcome.Acquired? <==>
                  offered && Says(script, 2, Done(true)) && Says(script, 3, Counted) && participating)
            && (Reserve(a.scope, token) in t.sent <==> offered)
            && (Count(a.quota.value.api) in t.sent <==> offered && Says(script, 2, Done(true)))
  {
    if |script| > 1 && script[1].Replied? {
      assert script[1..][0] == script[1] && script[1..][1..] == script[2..];
      var turn := Resume(a, script[1].reply, token, participating);
      if turn.Awaiting? {
        OfferIsExact(turn.attempt, script, 2, cut, token, participating);
      }
    }
  }

  lemma OfferIsExact(a: Attempt, script: seq<Await>, i: nat, cut: int, token: Token, participating: bool)
    requires i <= |script|
    requires a.phase == Reserving(token) && a.current == Some(Reserve(a.scope, token))
    ensures var t := Drive(a, script[i..], cut, token, participating);
            && !t.outcome.NoRecorder? && !t.outcome.QuotaExhausted?
            && (t.outcome.Busy? <==> Says(script, i, Done(false)))
            && (t.outcome.Acquired? <==>
                  Says(script, i, Done(true)) && (a.quota.Some? ==> Says(script, i + 1, Counted)) && participating)
            && Reserve(a.scope, token) in t.sent
            && (a.quota.Some? ==> (Count(a.quota.value.api) in t.sent <==> Says(script, i, Done(true))))
  {
    if i < |script| && script[i].Replied? {
      assert script[i..][0] == script[i] && script[i..][1..] == script[i + 1..];
      var turn := Resume(a, script[i].reply, token, participating);
      if turn.Awaiting? {
        CountIsLast(turn.attempt, script, i + 1, cut, token, participating);
      }
    }
  }

  lemma CountIsLast(a: Attempt, script: seq<Await>, i: nat, cut: int, token: Token, participating: bool)
    requires i <= |script|
    requires a.quota.Some? && a.phase == Counting(token) && a.current == Some(Count(a.quota.value.api))
    ensures var t := Drive(a, script[i..], cut, token, participating);
            && t.sent == [Count(a.quota.value.api)]
            && t.outcome == if Says(script, i, Counted) && participating then Acquired(token) else Failed
  {
    if i < |script| && script[i].Replied? {
      assert Resume(a, script[i].reply, token, participating).Returned?;
    }
  }

  /**
   * The guard is marked available exactly when the counter was at its limit, when SET
   * was refused, or when everything succeeded; any other reply, error or cancellation
   * starts the cooldown.
   */
  lemma CooldownIsExact(scope: Scope, quota: Option<Quota>, script: seq<Await>, cut: int, token: Token,
                        participating: bool)
    ensures Available(Drive(Begin(scope, quota), script, cut, token, participating).outcome) <==>
            || (&& quota.Some? && Exhausted(script, 1, quota.value.limit)
                && (Says(script, 0, AddressIs(Origin)) || Says(script, 0, AddressIs(NotOrigin))))
            || (Offered(scope, quota, script) && Says(script, Slot(quota), Done(false)))
            || (&& Offered(scope, quota, script) && Says(script, Slot(quota), Done(true))
                && (quota.Some? ==> Says(script, 3, Counted)) && participating)
  {
    OutcomeIsExact(scope, quota, script, cut, token, participating);
  }

  /** The attempt ends at the await of its last command, or is cut there. */
  lemma {:induction false} EndsAtLastAwait(a: Attempt, script: seq<Await>, cut: int, token: Token, participating: bool)
    requires a.current.Some?
    ensures var t := Drive(a, script, cut, token, participating);
            t.sent != [] && t.at == if |t.sent| <= |script| then script[|t.sent| - 1].at else cut
    decreases |script|
  {
    if script != [] && script[0].Replied? {
      var turn := Resume(a, script[0].reply, token, participating);
      if turn.Awaiting? {
        EndsAtLastAwait(turn.attempt, script[1..], cut, token, participating);
      }
    }
  }

  /**
   * An address that is a URI but no plain origin is refused only when the ticket is
   * built: an exhausted quota hides it, and nothing is ever offered.
   */
  lemma ExhaustedQuotaHidesAddress(scope: Scope, quota: Option<Quota>, script: seq<Await>, cut: int, token: Token,
                                   participating: bool)
    requires Says(script, 0, AddressIs(NotOrigin))
    ensures var t := Drive(Begin(scope, quota), script, cut, token, participating);
            && t.outcome ==
                 (if quota.Some? && Exhausted(script, 1, quota.value.limit) then QuotaExhausted else Failed)
            && t.sent == (if quota.Some? then [GetAddress, GetCount(quota.value.api)] else [GetAddress])
  {
    OutcomeIsExact(scope, quota, script, cut, token, participating);
    CommandsPerOutcome(scope, quota, script, cut, token, participating);
    if quota.Some? && |script| > 1 && script[1].Replied? {
      assert script[1..][0] == script[1];
    }
  }

  datatype Answer = NotParticipant | NotEligible | Decided(outcome: Outcome)

  class Provider {
    const discovery: D.RecorderDiscovery
    var sent: seq<Command>
    var consumed: nat

    constructor (discovery: D.RecorderDiscovery)
      ensures this.discovery == discovery
    {
      this.discovery := discovery;
      sent, consumed := [], 0;
    }

    method Call(command: Command, script: seq<Await>, cut: int) returns (outcome: Await)
      requires consumed <= |script|
      modifies this
      ensures sent == old(sent) + [command]
      ensures if old(consumed) < |script| then outcome == script[old(consumed)] && consumed == old(consumed) + 1
              else outcome == Interrupted(cut) && consumed == old(consumed)
    {
      sent := sent + [command];
      if consumed < |script| {
        outcome := script[consumed];
        consumed := consumed + 1;
      } else {
        outcome := Interrupted(cut);
      }
    }

    /** `acquire`; `conflict` says that the slot key equals the recorder URL key. */
    method Acquire(scope: Scope, quota: Option<Quota>, conflict: bool, token: Token,
                   participating: bool, stillParticipating: bool, now: int, script: seq<Await>, cut: int)
      returns (answer: Answer)
      modifies this, discovery
      ensures
        var before := old(discovery.Abs());
        var cooling := before.retryAfter.Some? && now < before.retryAfter.value;
        if !participating then answer == NotParticipant && sent == [] && discovery.Abs() == before
        else if conflict then answer == Decided(Failed) && sent == [] && discovery.Abs() == before
        else if cooling then answer == Decided(NoRecorder) && sent == [] && discovery.Abs() == before
        else if before.checking then answer == Decided(Busy) && sent == [] && discovery.Abs() == before
        else
          var t := Drive(Begin(scope, quota), script, cut, token, stillParticipating);
          && answer == Decided(t.outcome) && sent == t.sent
          // The flag is released on every path; the cooldown is cleared exactly on
          // Acquired, an NX refusal, and an exhausted quota, and else lasts ten seconds.
          && !discovery.checking
          && discovery.retryAfter ==
               if t.outcome.Acquired? || t.outcome.Busy? || t.outcome.QuotaExhausted? then None
               else Some(t.at + 10_000_000_000)
    {
      sent, consumed := [], 0;
      if !participating {
        return NotParticipant;
      }
      if conflict {
        return Decided(Failed);
      }
      var lookup, guard := discovery.TryLookup(now);
      if lookup.CoolingDown? {
        return Decided(NoRecorder);
      }
      if lookup.InProgress? {
        return Decided(Busy);
      }
      var outcome, available, at := Guarded(scope, quota, token, stillParticipating, script, cut);
      if available {
        guard.Available(at);
      } else {
        guard.Drop(at);
      }
      return Decided(outcome);
    }

    /** The part of `acquire` that runs under the guard; `available` records `guard.available()`. */
    method Guarded(scope: Scope, quota: Option<Quota>, token: Token, participating: bool, script: seq<Await>, cut: int)
      returns (outcome: Outcome, available: bool, at: int)
      requires sent == [] && consumed == 0
      modifies this
      ensures var t := Drive(Begin(scope, quota), script, cut, token, participating);
              outcome == t.outcome && sent == t.sent && at == t.at && available == Available(outcome)
    {
      hide Drive;
      ghost var a := Begin(scope, quota);
      ghost var goal := Drive(a, script, cut, token, participating);
      assert script[0..] == script;
      DriveAwait(a, script, 0, cut, token, participating);
      var reply := Call(GetAddress, script, cut);
      at := reply.at;
      if reply.Interrupted? || !reply.reply.AddressIs? || reply.reply.address.Unparsable? {
        return Failed, false, at;
      }
      if reply.reply.address.NoAddress? {
        return NoRecorder, false, at;
      }
      var usable := reply.reply.address.Origin?;
      a := a.(usable := usable);
      if quota.Some? {
        a := a.(phase := Checking, current := Some(GetCount(quota.value.api)));
        DriveAwait(a, script, 1, cut, token, participating);
        reply := Call(GetCount(quota.value.api), script, cut);
        at := reply.at;
        if reply.Interrupted? || !reply.reply.CountIs? {
          return Failed, false, at;
        }
        if reply.reply.n >= quota.value.limit {
          return QuotaExhausted, true, at;
        }
      }
      if !usable || !K.Sendable(scope) {
        return Failed, false, at;
      }
      a := a.(phase := Reserving(token), current := Some(Reserve(scope, token)));
      outcome, available, at := Reserved(a, scope, quota, token, participating, script, cut, goal);
    }

    /** From the reservation to the final eligibility check. */
    method Reserved(ghost a: Attempt, scope: Scope, quota: Option<Quota>, token: Token, participating: bool,
                    script: seq<Await>, cut: int, ghost goal: Trace)
      returns (outcome: Outcome, available: bool, at: int)
      requires consumed <= |script|
      requires a == Attempt(scope, quota, true, Reserving(token), Some(Reserve(scope, token)), None)
      requires var rest := Drive(a, script[consumed..], cut, token, participating);
               goal == rest.(sent := sent + rest.sent)
      modifies this
      ensures outcome == goal.outcome && sent == goal.sent && at == goal.at && available == Available(outcome)
    {
      ghost var start := consumed;
      var reply := Call(Reserve(scope, token), script, cut);
      at := reply.at;
      if reply.Interrupted? || !reply.reply.Done? {
        return Failed, false, at;
      }
      if !reply.reply.accepted {
        return Busy, true, at;
      }
      assert script[start..][1..] == script[consumed..];
      if quota.Some? {
        reply := Call(Count(quota.value.api), script, cut);
        at := reply.at;
        if reply.Interrupted? || !reply.reply.Counted? {
          return Failed, false, at;
        }
      }
      if !participating {
        return Failed, false, at;
      }
      return Acquired(token), true, at;
    }
  }
}
