/**
 * What a refresh cycle does, from its replies alone: the commands it sends, the slot
 * it ends with and the deadline it publishes, for every script of replies, errors and
 * timeout, without reference to the steps in between.
 */
module LeaseExact {
  import opened Common
  import opened GatewayLease
  import opened LeaseDrive

  /** The i-th await yields exactly this reply. */
  predicate Says(script: seq<Await>, i: nat, reply: Reply) {
    i < |script| && script[i].Replied? && script[i].reply == reply
  }

  /** The i-th await yields a usable limit; a missing key is zero. */
  predicate SaysLimit(script: seq<Await>, i: nat, limit: nat) {
    Says(script, i, LimitIs(Number(limit))) || (limit == 0 && Says(script, i, LimitIs(Missing)))
  }

  /** How many of the awaits from `i` on, at most `most`, are NX refusals before anything else happens. */
  function Leading(script: seq<Await>, i: nat, most: nat): (n: nat)
    ensures n <= most && (n > 0 ==> i + n <= |script|)
    ensures forall j | i <= j < i + n :: Says(script, j, Done(false))
    ensures n < most ==> !Says(script, i + n, Done(false))
    decreases most
  {
    if most == 0 || !Says(script, i, Done(false)) then 0 else 1 + Leading(script, i + 1, most - 1)
  }

  /** SET commands on `count` slots of `0..limit`, upwards from `first` and around. */
  function Claims(first: nat, limit: nat, count: nat): (r: seq<Command>)
    requires 0 < limit
    ensures |r| == count && forall j | 0 <= j < count :: r[j] == Reserve((first + j) % limit)
  {
    seq(count, j requires 0 <= j => Reserve((first + j) % limit))
  }

  /** How a cycle ends. */
  datatype End = End(owned: Option<nat>, validUntil: Option<int>, sent: seq<Command>)

  function EndOf(drive: (Gateway, seq<Command>)): (end: End) {
    End(drive.0.owned, drive.0.validUntil, drive.1)
  }

  /**
   * An election over `0..limit`, begun at `first`, from its `step`-th slot on: its next
   * SET is the await `i`, sent at `now`. It walks past the refusing slots, keeps the
   * first slot that does not refuse, and publishes from the moment that slot's SET was
   * sent, if it was accepted.
   */
  function Election(script: seq<Await>, i: nat, limit: nat, first: nat, step: nat, now: int, ttl: int): (end: End)
    requires step < limit
  {
    var refused := Leading(script, i, limit - step);
    if refused == limit - step then End(None, None, Claims(first + step, limit, refused))
    else
      var started := if refused == 0 then now else script[i + refused - 1].at;
      End(Some((first + step + refused) % limit),
          if Says(script, i + refused, Done(true)) then Some(started + ttl) else None,
          Claims(first + step, limit, refused + 1))
  }

  function After(sent: seq<Command>, end: End): (r: End) { end.(sent := sent + end.sent) }

  /** The limit that the first await yields, if it is usable. */
  function ReadLimit(script: seq<Await>): (limit: Option<nat>)
    ensures forall n: nat :: limit == Some(n) <==> SaysLimit(script, 0, n)
  {
    if script == [] || script[0].Failed? then None
    else match script[0].reply
         case LimitIs(Missing) => Some(0)
         case LimitIs(Number(n)) => Some(n)
         case _ => None
  }

  /**
   * From the await `i` on, sent at `now`, once the limit is known and no slot is to be
   * released: a slot is renewed, and lost only to an explicit refusal; a gateway
   * without one competes.
   */
  function HoldEnd(owned: Option<nat>, script: seq<Await>, i: nat, limit: nat, now: int, random: nat, ttl: int)
    : (end: End)
  {
    if limit == 0 then End(owned, None, [])
    else if owned.None? then Election(script, i, limit, random % limit, 0, now, ttl)
    else
      End(if Says(script, i, Done(false)) then None else owned,
          if Says(script, i, Done(true)) then Some(now + ttl) else None,
          [Renew(owned.value)])
  }

  /**
   * From the limit on, read at `now`: a slot outside the limit is released first, and
   * once Redis has answered, whatever it answered, the gateway competes for another.
   */
  function SettleEnd(owned: Option<nat>, script: seq<Await>, i: nat, limit: nat, now: int, random: nat, ttl: int)
    : (end: End)
  {
    if owned.None? || owned.value < limit then HoldEnd(owned, script, i, limit, now, random, ttl)
    else
      var released := Says(script, i, Done(true)) || Says(script, i, Done(false));
      After([Release(owned.value)],
            if released then HoldEnd(None, script, i + 1, limit, script[i].at, random, ttl) else End(owned, None, []))
  }

  /** The whole cycle. An unknown limit keeps the slot and revokes eligibility. */
  function CycleEnd(owned: Option<nat>, script: seq<Await>, random: nat, ttl: int): (end: End) {
    var limit := ReadLimit(script);
    After([GetLimit],
          if limit.Some? then SettleEnd(owned, script, 1, limit.value, script[0].at, random, ttl)
          else End(owned, None, []))
  }

  // ---------------------------------------------------------------------------
  // The driven system does exactly this
  // ---------------------------------------------------------------------------

  lemma {:induction false} ScanSlotIsModulo(first: nat, limit: nat, step: nat)
    requires first < limit && step < limit
    ensures ScanSlot(first, limit, step) == (first + step) % limit
  {
    if first + step >= limit {
      assert first + step == (first + step - limit) + limit;
      assert (first + step) % limit == first + step - limit;
    }
  }

  /** One turn of an election: won, unknown, refused with slots left, or refused by the last. */
  lemma ElectionTurn(script: seq<Await>, i: nat, limit: nat, first: nat, step: nat, now: int, ttl: int)
    requires step < limit
    ensures var end := Election(script, i, limit, first, step, now, ttl);
            var slot := (first + step) % limit;
            if Says(script, i, Done(false)) then
              if step + 1 < limit then
                end == After([Reserve(slot)], Election(script, i + 1, limit, first, step + 1, script[i].at, ttl))
              else end == End(None, None, [Reserve(slot)])
            else end == End(Some(slot), if Says(script, i, Done(true)) then Some(now + ttl) else None, [Reserve(slot)])
  {
    var slot := (first + step) % limit;
    assert Claims(first + step, limit, 1) == [Reserve(slot)];
    if Says(script, i, Done(false)) {
      var refused := Leading(script, i + 1, limit - step - 1);
      assert Leading(script, i, limit - step) == refused + 1;
      var n := if refused == limit - step - 1 then refused else refused + 1;
      assert Claims(first + step, limit, n + 1) == [Reserve(slot)] + Claims(first + step + 1, limit, n);
    }
  }

  lemma {:induction false} ElectionIsExact(config: Config, begun: int, limit: nat, first: nat, step: nat, now: int,
                                       script: seq<Await>, i: nat, cut: int, random: nat)
    requires first < limit && step < limit && i <= |script|
    ensures EndOf(Drive(Contender(config, begun, limit, first, step, now), script[i..], cut, random))
         == Election(script, i, limit, first, step, now, config.ttl)
    decreases limit - step
  {
    hide Drive, Election;
    ScanAwait(config, begun, limit, first, step, now, script, i, cut, random);
    ScanSlotIsModulo(first, limit, step);
    ElectionTurn(script, i, limit, first, step, now, config.ttl);
    if Says(script, i, Done(false)) && step + 1 < limit {
      ElectionIsExact(config, begun, limit, first, step + 1, script[i].at, script, i + 1, cut, random);
    }
  }

  /** A gateway between cycles, as its task left it. */
  predicate AtRest(g: Gateway) { g.validUntil.Some? ==> g.owned.Some? }

  /** Past the limit: everything but the release. */
  lemma HoldIsExact(g: Gateway, begun: int, limit: nat, now: int, script: seq<Await>, i: nat, cut: int, random: nat)
    requires AtRest(g) && g.stale == [] && i <= |script|
    ensures EndOf(Drive(WithinLimit(g, begun, limit, now, random), script[i..], cut, random))
         == HoldEnd(g.owned, script, i, limit, now, random, g.config.ttl)
  {
    var next := WithinLimit(g, begun, limit, now, random);
    if limit > 0 && g.owned.None? {
      assert next == Contender(g.config, begun, limit, random % limit, 0, now);
      ElectionIsExact(g.config, begun, limit, random % limit, 0, now, script, i, cut, random);
    } else if limit > 0 {
      OneAwait(next, script, i, cut, random);
    }
  }

  /** From the limit on. */
  lemma SettleIsExact(g: Gateway, begun: int, limit: nat, now: int, script: seq<Await>, i: nat, cut: int, random: nat)
    requires AtRest(g) && g.stale == [] && i <= |script|
    ensures EndOf(Drive(OnLimit(g, begun, limit, now, random), script[i..], cut, random))
         == SettleEnd(g.owned, script, i, limit, now, random, g.config.ttl)
  {
    hide Drive, WithinLimit, HoldEnd;
    if g.owned.Some? && limit <= g.owned.value {
      var releasing := OnLimit(g, begun, limit, now, random);
      OneAwait(releasing, script, i, cut, random);
      if Says(script, i, Done(true)) || Says(script, i, Done(false)) {
        HoldIsExact(releasing.(owned := None), begun, limit, script[i].at, script, i + 1, cut, random);
      }
    } else {
      HoldIsExact(g, begun, limit, now, script, i, cut, random);
    }
  }

  /**
   * Every cycle of every gateway, whatever it left on the wire, ends exactly as its
   * replies and its random start make it end.
   */
  lemma {:induction false} CycleIsExact(g: Gateway, begun: int, script: seq<Await>, cut: int, random: nat)
    requires AtRest(g)
    ensures EndOf(Drive(Begin(g, begun), script, cut, random)) == CycleEnd(g.owned, script, random, g.config.ttl)
  {
    hide Drive, OnLimit, SettleEnd;
    var begin := Begin(g.(stale := []), begun);
    StaleRidesAlong(begin, g.stale, script, cut, random);
    assert begin.(stale := g.stale) == Begin(g, begun);
    OneAwait(begin, script, 0, cut, random);
    assert script[0..] == script;
    var limit := ReadLimit(script);
    if limit.Some? {
      var at := script[0].at;
      assert Resume(begin, script[0].reply, at, random) == OnLimit(begin, begun, limit.value, at, random);
      SettleIsExact(begin, begun, limit.value, at, script, 1, cut, random);
    }
  }

  // ---------------------------------------------------------------------------
  // Single situations, spelled out
  // ---------------------------------------------------------------------------

  /** A slot inside the limit: renewed, kept on an unknown answer, given up on a refusal. */
  lemma RenewalDecides(g: Gateway, begun: int, slot: nat, n: nat, read: int, answer: Await, cut: int, random: nat)
    requires AtRest(g) && g.owned == Some(slot) && slot < n
    ensures var script := [Replied(LimitIs(Number(n)), read), answer];
            var (end, sent) := Drive(Begin(g, begun), script, cut, random);
            && sent == [GetLimit, Renew(slot)]
            && end.owned == (if answer.Replied? && answer.reply == Done(false) then None else Some(slot))
            && end.validUntil ==
                 (if answer.Replied? && answer.reply == Done(true) then Some(read + g.config.ttl) else None)
  {
    var script := [Replied(LimitIs(Number(n)), read), answer];
    assert SaysLimit(script, 0, n);
    CycleIsExact(g, begun, script, cut, random);
  }

  /** A missing or zero limit: a slot is released and nothing else is sent, and nobody is eligible. */
  lemma NoLimitRetires(g: Gateway, begun: int, missing: bool, read: int, answer: Await, cut: int, random: nat)
    requires AtRest(g) && answer.Replied? && answer.reply.Done?
    ensures var limit := LimitIs(if missing then Missing else Number(0));
            var (end, sent) := Drive(Begin(g, begun), [Replied(limit, read), answer], cut, random);
            && end.owned == None && end.validUntil == None
            && sent == if g.owned.Some? then [GetLimit, Release(g.owned.value)] else [GetLimit]
  {
    var script := [Replied(LimitIs(if missing then Missing else Number(0)), read), answer];
    assert SaysLimit(script, 0, 0);
    CycleIsExact(g, begun, script, cut, random);
  }

  /** A slot outside the limit: released, and the same cycle competes, upwards from the random start and around. */
  lemma ReleasedCompetes(g: Gateway, begun: int, slot: nat, n: nat, answer: bool, read: int, at: int, refused: int,
                         won: int, cut: int, random: nat)
    requires AtRest(g) && g.owned == Some(slot) && 2 <= n <= slot
    ensures var script := [Replied(LimitIs(Number(n)), read), Replied(Done(answer), at),
                           Replied(Done(false), refused), Replied(Done(true), won)];
            var (end, sent) := Drive(Begin(g, begun), script, cut, random);
            var next := (random % n + 1) % n;
            && sent == [GetLimit, Release(slot), Reserve(random % n), Reserve(next)]
            && end.owned == Some(next) && end.validUntil == Some(refused + g.config.ttl)
  {
    var script := [Replied(LimitIs(Number(n)), read), Replied(Done(answer), at),
                   Replied(Done(false), refused), Replied(Done(true), won)];
    hide Drive, Election, Begin;
    var first, ttl := random % n, g.config.ttl;
    assert ReadLimit(script) == Some(n);
    CycleIsExact(g, begun, script, cut, random);
    ElectionTurn(script, 2, n, first, 0, at, ttl);
    ElectionTurn(script, 3, n, first, 1, refused, ttl);
    assert first % n == first;
    assert Election(script, 2, n, first, 0, at, ttl)
        == End(Some((first + 1) % n), Some(refused + ttl), [Reserve(first), Reserve((first + 1) % n)]);
    assert CycleEnd(g.owned, script, random, ttl)
        == After([GetLimit], After([Release(slot)], Election(script, 2, n, first, 0, at, ttl)));
  }

  /** A validated configuration is one of positive whole milliseconds, at least three intervals to a lease. */
  lemma ValidateIsExact(config: Config)
    ensures config.Validate() <==>
            exists ttl: nat, refresh: nat ::
              && config.ttl == ttl * 1_000_000 && config.refresh == refresh * 1_000_000
              && 1 <= refresh && 3 * refresh <= ttl <= 9_223_372_036_854_775_807
  {
    if config.Validate() {
      var ttl, refresh := config.ttl / 1_000_000, config.refresh / 1_000_000;
      assert config.ttl == ttl * 1_000_000 && config.refresh == refresh * 1_000_000;
    }
  }

  /** An abandoned or stopped cycle leaves its awaited command on the wire, behind the older ones. */
  lemma AbandonedLingers(slots: Slots, limit: RawLimit, now: int, id: GatewayId, g: Gateway, move: Move)
    requires CanMove(now, g, move) && (move.Abandon? || move.Stop?)
    ensures var (slots', g') := Moved(slots, limit, now, id, g, move);
            && slots' == slots && g'.current == None && g'.reply == None && g'.owned == g.owned
            && g'.stale == (if g.current.Some? then g.stale + [g.current.value] else g.stale)
            && (move.Abandon? ==> g'.validUntil == None)
  {
  }
}
