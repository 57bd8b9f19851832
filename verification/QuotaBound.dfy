/**
 * How far the deliberately non-atomic quota can overshoot, and what the counters
 * record, in every reachable state of every run.
 */
module QuotaBound {
  import opened Common
  import opened TokenCell
  import opened Admission

  // ---------------------------------------------------------------------------
  // The invariant of one provider
  // ---------------------------------------------------------------------------

  /** The awaited command and the received reply fit the phase. */
  predicate AttemptOk(a: Attempt) {
    && (a.current.Some? ==> a.reply == None)
    && match a.phase
       case Discovering =>
         (a.current.Some? ==> a.current.value == GetAddress) && (a.reply.Some? ==> a.reply.value.AddressIs?)
       case Checking =>
         && a.quota.Some?
         && (a.current.Some? ==> a.current.value == GetCount(a.quota.value.api))
         && (a.reply.Some? ==> a.reply.value.CountIs?)
       case Reserving(token) =>
         && (a.current.Some? ==> a.current.value == Reserve(a.scope, token))
         && (a.reply.Some? ==> a.reply.value.Done?)
       case Counting(_) =>
         && a.quota.Some?
         && (a.current.Some? ==> a.current.value == Count(a.quota.value.api))
         && (a.reply.Some? ==> a.reply.value == Counted)
  }

  /**
   * Single flight, and at most one increment still on the wire: an attempt past
   * discovery has received a reply, so nothing older is left ahead of it.
   */
  ghost predicate ProviderOk(p: Provider) {
    && (p.discovery.checking <==> p.attempts != map[])
    && (forall x, y | x in p.attempts && y in p.attempts :: x == y)
    && (forall x | x in p.attempts ::
          && AttemptOk(p.attempts[x])
          && (p.attempts[x].reply.Some? || !p.attempts[x].phase.Discovering? ==> p.stale == []))
    && (forall i | 0 < i < |p.stale| :: p.stale[i] == GetAddress)
  }

  lemma ProviderStart(p: Provider, s: System, move: Move)
    requires ProviderOk(p) && CanMove(p, s.now, move) && move.Start?
    ensures ProviderOk(MovedProvider(p, s, move))
  {
    assert p.attempts == map[];
    assert s.nextAttempt in MovedProvider(p, s, move).attempts;
  }

  lemma ProviderMove(p: Provider, s: System, move: Move)
    requires ProviderOk(p) && CanMove(p, s.now, move) && !move.Start?
    ensures ProviderOk(MovedProvider(p, s, move))
  {
    if move.ExecuteCurrent? || move.LoseCurrent? || move.Deliver? || move.Cancel? {
      var x := move.attempt;
      assert p.attempts.Keys == {x};
      assert p.attempts - {x} == map[];
    }
  }

  // ---------------------------------------------------------------------------
  // Counting providers
  // ---------------------------------------------------------------------------

  /** Two sets that agree away from `id`. */
  lemma Toggled<T>(before: set<T>, after: set<T>, id: T)
    requires before - {id} == after - {id}
    ensures |after| + (if id in before then 1 else 0) == |before| + (if id in after then 1 else 0)
  {
    assert before == (before - {id}) + (if id in before then {id} else {});
    assert after == (after - {id}) + (if id in after then {id} else {});
  }

  function Num(b: bool): (n: nat) { if b then 1 else 0 }

  /** How one move shifts its provider between the three groups. */
  lemma GroupsShift(s: System, id: ProviderId, move: Move)
    requires Enabled(s, On(id, move))
    ensures var s' := Next(s, On(id, move));
            var p, p' := s.providers[id], s'.providers[id];
            && |CheckedSet(s')| + Num(Checked(p, s.watched)) == |CheckedSet(s)| + Num(Checked(p', s.watched))
            && |ReservedSet(s')| + Num(Reserved(p, s.watched)) == |ReservedSet(s)| + Num(Reserved(p', s.watched))
            && |CountedSet(s')| + Num(Uncollected(p, s.watched)) == |CountedSet(s)| + Num(Uncollected(p', s.watched))
  {
    var s' := Next(s, On(id, move));
    Toggled(CheckedSet(s), CheckedSet(s'), id);
    Toggled(ReservedSet(s), ReservedSet(s'), id);
    Toggled(CountedSet(s), CountedSet(s'), id);
  }

  lemma CheckedAmongProviders(s: System)
    ensures |CheckedSet(s)| <= |s.providers|
  {
    SubsetCardinality(CheckedSet(s), s.providers.Keys);
  }

  // ---------------------------------------------------------------------------
  // The bound
  // ---------------------------------------------------------------------------

  /** The largest limit that counted since the last reset, and at least one. */
  function Ceiling(t: Tally): (n: nat) { if t.peak == 0 then 1 else t.peak }

  ghost predicate Bounded(s: System) {
    var count := CountOf(s.store, s.watched);
    && count + |CheckedSet(s)| + 1 <= Ceiling(s.tally) + |s.providers|
    && count + |ReservedSet(s)| <= s.tally.reserved + s.tally.carriedReserved
    && s.tally.issued + |CountedSet(s)| <= count + s.tally.carriedCounted
  }

  ghost predicate Inv(s: System) {
    && (forall id | id in s.providers :: ProviderOk(s.providers[id]))
    && (s.providers != map[] ==> Bounded(s))
    && (s.providers == map[] ==> CountOf(s.store, s.watched) == 0 && s.tally.issued == 0)
  }

  /** What each move does to the watched count and to the provider's own standing. */
  lemma StaleEffect(p: Provider, s: System)
    requires ProviderOk(p) && p.stale != []
    ensures var p' := MovedProvider(p, s, ExecuteStale);
            var n, n' := CountOf(s.store, s.watched), CountOf(MovedStore(p, s, ExecuteStale), s.watched);
            && Uncollected(p', s.watched) == Uncollected(p, s.watched)
            && (p.stale[0] == Count(s.watched) ==>
                  && n' == n + 1 && Checked(p, s.watched) && Reserved(p, s.watched)
                  && !Checked(p', s.watched) && !Reserved(p', s.watched))
            && (p.stale[0] != Count(s.watched) ==>
                  && n' == n && Checked(p', s.watched) == Checked(p, s.watched)
                  && Reserved(p', s.watched) == Reserved(p, s.watched))
  {
    assert p.stale == [p.stale[0]] + p.stale[1..];
    assert forall c | c in p.stale[1..] :: !c.Count?;
  }

  lemma CurrentEffect(p: Provider, s: System, x: AttemptId)
    requires ProviderOk(p) && CanMove(p, s.now, ExecuteCurrent(x))
    ensures var p' := MovedProvider(p, s, ExecuteCurrent(x));
            var a := p.attempts[x];
            var n, n' := CountOf(s.store, s.watched), CountOf(MovedStore(p, s, ExecuteCurrent(x)), s.watched);
            var t, t' := s.tally, MovedTally(p, s, ExecuteCurrent(x));
            && t'.issued == t.issued && t'.carriedReserved == t.carriedReserved && t'.carriedCounted == t.carriedCounted
            && t.peak <= t'.peak
            && (a.current.value == Count(s.watched) ==>
                  && n' == n + 1 && Checked(p, s.watched) && Reserved(p, s.watched)
                  && !Checked(p', s.watched) && !Reserved(p', s.watched) && !Uncollected(p, s.watched)
                  && t'.reserved == t.reserved)
            && (a.current.value != Count(s.watched) ==>
                  && n' == n && Uncollected(p', s.watched) == Uncollected(p, s.watched)
                  && Num(Reserved(p', s.watched)) + t.reserved <= Num(Reserved(p, s.watched)) + t'.reserved
                  && (Checked(p', s.watched) ==> Checked(p, s.watched) || n < t'.peak))
  {
    var p' := MovedProvider(p, s, ExecuteCurrent(x));
    assert forall y | y in p.attempts :: y == x;
    assert forall y | y in p'.attempts :: y == x;
    assert p'.attempts[x].phase == p.attempts[x].phase;
  }

  lemma DeliverEffect(p: Provider, s: System, x: AttemptId, participating: bool)
    requires ProviderOk(p) && CanMove(p, s.now, Deliver(x, participating))
    ensures var move := Deliver(x, participating);
            var p' := MovedProvider(p, s, move);
            var t, t' := s.tally, MovedTally(p, s, move);
            && t'.peak == t.peak && t'.reserved == t.reserved
            && t'.carriedReserved == t.carriedReserved && t'.carriedCounted == t.carriedCounted
            && (Checked(p', s.watched) ==> Checked(p, s.watched))
            && (Reserved(p', s.watched) ==> Reserved(p, s.watched))
            && t'.issued + Num(Uncollected(p', s.watched)) <= t.issued + Num(Uncollected(p, s.watched))
  {
    hide K.Sendable, CountOf;
    var p' := MovedProvider(p, s, Deliver(x, participating));
    assert forall y | y in p.attempts :: y == x;
    assert forall y | y in p'.attempts :: y == x;
    var a := p.attempts[x];
    if Watches(a, s.watched) && a.phase.Counting? {
      assert HoldsCount(a, s.watched);
    }
    if Watches(a, s.watched) && a.phase.Reserving? {
      assert HoldsCheck(a, s.watched);
    }
  }

  lemma OtherEffect(p: Provider, s: System, move: Move)
    requires ProviderOk(p) && CanMove(p, s.now, move)
    requires move.Start? || move.LoseStale? || move.LoseCurrent? || move.Cancel?
    ensures var p' := MovedProvider(p, s, move);
            && (Checked(p', s.watched) ==> Checked(p, s.watched))
            && (Reserved(p', s.watched) ==> Reserved(p, s.watched))
            && (Uncollected(p', s.watched) ==> Uncollected(p, s.watched))
  {
    var p' := MovedProvider(p, s, move);
    if move.Cancel? && Count(s.watched) in p'.stale && Count(s.watched) !in p.stale {
      assert HoldsCheck(p.attempts[move.attempt], s.watched);
      assert HoldsReservation(p.attempts[move.attempt], s.watched);
    }
  }

  lemma SameProviders(s: System, id: ProviderId, move: Move)
    requires Enabled(s, On(id, move))
    ensures |Next(s, On(id, move)).providers| == |s.providers|
  {
    assert Next(s, On(id, move)).providers.Keys == s.providers.Keys;
  }

  lemma BoundedStale(s: System, id: ProviderId)
    requires Inv(s) && Enabled(s, On(id, ExecuteStale))
    ensures Bounded(Next(s, On(id, ExecuteStale)))
  {
    GroupsShift(s, id, ExecuteStale);
    SameProviders(s, id, ExecuteStale);
    StaleEffect(s.providers[id], s);
  }

  /** The arithmetic of one executed command, away from the maps it acts on. */
  lemma CurrentArithmetic(n: nat, n': nat, checked: nat, checked': nat, reserved: nat, reserved': nat,
                          counted: nat, counted': nat, t: Tally, t': Tally, providers: nat,
                          c: bool, c': bool, r: bool, r': bool, u: bool, u': bool)
    requires n + checked + 1 <= Ceiling(t) + providers
    requires n + reserved <= t.reserved + t.carriedReserved
    requires t.issued + counted <= n + t.carriedCounted
    requires checked' + Num(c) == checked + Num(c') && checked' <= providers
    requires reserved' + Num(r) == reserved + Num(r')
    requires counted' + Num(u) == counted + Num(u')
    requires t'.issued == t.issued && t'.carriedReserved == t.carriedReserved && t'.carriedCounted == t.carriedCounted
    requires t.peak <= t'.peak
    requires || (n' == n + 1 && c && r && !c' && !r' && !u && t'.reserved == t.reserved)
             || (n' == n && u' == u && Num(r') + t.reserved <= Num(r) + t'.reserved && (c' ==> c || n < t'.peak))
    ensures n' + checked' + 1 <= Ceiling(t') + providers
    ensures n' + reserved' <= t'.reserved + t'.carriedReserved
    ensures t'.issued + counted' <= n' + t'.carriedCounted
  {
  }

  lemma BoundedCurrent(s: System, id: ProviderId, x: AttemptId)
    requires Inv(s) && Enabled(s, On(id, ExecuteCurrent(x)))
    ensures Bounded(Next(s, On(id, ExecuteCurrent(x))))
  {
    var s' := Next(s, On(id, ExecuteCurrent(x)));
    var p, p', api := s.providers[id], s'.providers[id], s.watched;
    GroupsShift(s, id, ExecuteCurrent(x));
    SameProviders(s, id, ExecuteCurrent(x));
    CurrentEffect(p, s, x);
    CheckedAmongProviders(s');
    CurrentArithmetic(CountOf(s.store, api), CountOf(s'.store, api), |CheckedSet(s)|, |CheckedSet(s')|,
                      |ReservedSet(s)|, |ReservedSet(s')|, |CountedSet(s)|, |CountedSet(s')|, s.tally, s'.tally,
                      |s.providers|, Checked(p, api), Checked(p', api), Reserved(p, api), Reserved(p', api),
                      Uncollected(p, api), Uncollected(p', api));
  }

  lemma BoundedDeliver(s: System, id: ProviderId, x: AttemptId, participating: bool)
    requires Inv(s) && Enabled(s, On(id, Deliver(x, participating)))
    ensures Bounded(Next(s, On(id, Deliver(x, participating))))
  {
    GroupsShift(s, id, Deliver(x, participating));
    SameProviders(s, id, Deliver(x, participating));
    DeliverEffect(s.providers[id], s, x, participating);
  }

  lemma BoundedOther(s: System, id: ProviderId, move: Move)
    requires Inv(s) && Enabled(s, On(id, move))
    requires move.Start? || move.LoseStale? || move.LoseCurrent? || move.Cancel?
    ensures Bounded(Next(s, On(id, move)))
  {
    GroupsShift(s, id, move);
    SameProviders(s, id, move);
    OtherEffect(s.providers[id], s, move);
  }

  lemma BoundedMove(s: System, id: ProviderId, move: Move)
    requires Inv(s) && Enabled(s, On(id, move))
    ensures Bounded(Next(s, On(id, move)))
  {
    match move {
      case ExecuteStale => BoundedStale(s, id);
      case ExecuteCurrent(x) => BoundedCurrent(s, id, x);
      case Deliver(x, participating) => BoundedDeliver(s, id, x, participating);
      case _ => BoundedOther(s, id, move);
    }
  }

  lemma InvMove(s: System, id: ProviderId, move: Move)
    requires Inv(s) && Enabled(s, On(id, move))
    ensures Inv(Next(s, On(id, move)))
  {
    BoundedMove(s, id, move);
    if move.Start? {
      ProviderStart(s.providers[id], s, move);
    } else {
      ProviderMove(s.providers[id], s, move);
    }
  }

  lemma InvReset(s: System)
    requires Inv(s)
    ensures Inv(Next(s, Reset))
  {
    var s' := Next(s, Reset);
    assert CheckedSet(s') == CheckedSet(s) && ReservedSet(s') == ReservedSet(s) && CountedSet(s') == CountedSet(s);
    CheckedAmongProviders(s');
  }

  lemma NewcomerHoldsNothing(p: Provider, api: Api)
    requires p.attempts == map[] && p.stale == []
    ensures !Checked(p, api) && !Reserved(p, api) && !Uncollected(p, api)
  {
  }

  lemma JoinKeepsGroups(s: System, id: ProviderId, ttl: int)
    requires Enabled(s, Join(id, ttl))
    ensures var s' := Next(s, Join(id, ttl));
            && CheckedSet(s') == CheckedSet(s) && ReservedSet(s') == ReservedSet(s) && CountedSet(s') == CountedSet(s)
            && |s'.providers| == |s.providers| + 1
            && (s.providers == map[] ==> CheckedSet(s) == {} && ReservedSet(s) == {} && CountedSet(s) == {})
  {
    hide Checked, Reserved, Uncollected;
    var s' := Next(s, Join(id, ttl));
    NewcomerHoldsNothing(s'.providers[id], s.watched);
    assert s'.providers.Keys == s.providers.Keys + {id};
  }

  lemma InvJoin(s: System, id: ProviderId, ttl: int)
    requires Inv(s) && Enabled(s, Join(id, ttl))
    ensures Inv(Next(s, Join(id, ttl)))
  {
    JoinKeepsGroups(s, id, ttl);
  }

  lemma InvStep(s: System, a: Action)
    requires Inv(s) && Enabled(s, a)
    ensures Inv(Next(s, a))
  {
    var s' := Next(s, a);
    match a
    case On(id, move) => InvMove(s, id, move);
    case Reset => InvReset(s);
    case Join(id, ttl) => InvJoin(s, id, ttl);
    case _ =>
      assert CheckedSet(s') == CheckedSet(s) && ReservedSet(s') == ReservedSet(s) && CountedSet(s') == CountedSet(s);
  }

  lemma InvStepAt(run: Run, i: nat)
    requires Steps(run) && i < |run.actions| && Inv(run.states[i])
    ensures Inv(run.states[i + 1])
  {
    hide Inv, Enabled, Next;
    StepAt(run, i);
    InvStep(run.states[i], run.actions[i]);
  }

  lemma InvStart(s: System)
    requires Init(s)
    ensures Inv(s)
  {
  }

  lemma {:induction false} InvAlways(run: Run, i: nat)
    requires IsRun(run) && i < |run.states|
    ensures Inv(run.states[i])
    decreases i
  {
    hide Inv, Init;
    if i == 0 {
      InvStart(run.states[0]);
    } else {
      InvAlways(run, i - 1);
      InvStepAt(run, i - 1);
    }
  }

  // ---------------------------------------------------------------------------
  // Main results
  // ---------------------------------------------------------------------------

  /** At most one attempt of a provider is ever past the discovery guard. */
  lemma OneAttemptPerProvider(run: Run, i: nat, id: ProviderId)
    requires IsRun(run) && i < |run.states| && id in run.states[i].providers
    ensures |run.states[i].providers[id].attempts| <= 1
    ensures run.states[i].providers[id].discovery.checking <==> |run.states[i].providers[id].attempts| == 1
  {
    InvAlways(run, i);
    var attempts := run.states[i].providers[id].attempts;
    if attempts != map[] {
      var x :| x in attempts;
      assert attempts.Keys == {x};
    }
  }

  /** If this step executes a count check that passes for the watched API, its limit is at most `limit`. */
  predicate PassesWithin(s: System, a: Action, limit: nat) {
    a.On? && a.id in s.providers && a.move.ExecuteCurrent? && a.move.attempt in s.providers[a.id].attempts ==>
      var attempt := s.providers[a.id].attempts[a.move.attempt];
      && Watches(attempt, s.watched) && attempt.phase.Checking?
      && CountOf(s.store, s.watched) < attempt.quota.value.limit ==>
        attempt.quota.value.limit <= limit
  }

  lemma PeakStep(s: System, a: Action, limit: nat)
    requires Inv(s) && Enabled(s, a) && PassesWithin(s, a, limit) && s.tally.peak <= limit
    ensures Next(s, a).tally.peak <= limit
  {
    hide Bounded, MovedStore, MovedProvider;
    if a.On? && a.move.ExecuteCurrent? {
      assert AttemptOk(s.providers[a.id].attempts[a.move.attempt]);
    }
  }

  lemma {:induction false} PeakSinceReset(run: Run, r: nat, i: nat, limit: nat)
    requires IsRun(run) && r <= i < |run.states|
    requires r == 0 || run.actions[r - 1] == Reset
    requires forall k | r <= k < i :: PassesWithin(run.states[k], run.actions[k], limit)
    ensures run.states[i].tally.peak <= limit
    decreases i
  {
    hide Inv, PassesWithin, Enabled;
    if i == r {
      if r > 0 {
        StepAt(run, r - 1);
      }
    } else {
      PeakSinceReset(run, r, i - 1, limit);
      InvAlways(run, i - 1);
      StepAt(run, i - 1);
      PeakStep(run.states[i - 1], run.actions[i - 1], limit);
    }
  }

  /**
   * Overshoot: from zero or from any reset on, while every check that passes uses a
   * limit of at most `limit`, the counter never exceeds `limit + G - 1` for `G`
   * independent providers, under every interleaving, loss and cancellation.
   */
  lemma Overshoot(run: Run, r: nat, i: nat, limit: nat)
    requires IsRun(run) && r <= i < |run.states| && run.states[i].providers != map[] && 1 <= limit
    requires r == 0 || run.actions[r - 1] == Reset
    requires forall k | r <= k < i :: PassesWithin(run.states[k], run.actions[k], limit)
    ensures CountOf(run.states[i].store, run.states[i].watched) <= limit + |run.states[i].providers| - 1
  {
    InvAlways(run, i);
    PeakSinceReset(run, r, i, limit);
  }

  /** Without attempts carried across a reset: tickets <= increments <= reservations. */
  ghost predicate Chain(s: System) {
    s.tally.issued <= CountOf(s.store, s.watched) <= s.tally.reserved
  }

  lemma Conservation(run: Run, i: nat)
    requires IsRun(run) && i < |run.states|
    requires run.states[i].tally.carriedReserved == 0 && run.states[i].tally.carriedCounted == 0
    ensures Chain(run.states[i])
    ensures Since(run, i, IssuesTicket) <= Since(run, i, Increments) <= Since(run, i, ConfirmsReservation)
  {
    InvAlways(run, i);
    CleanChain(run.states[i]);
    TallyIsExact(run, i);
  }

  // ---------------------------------------------------------------------------
  // What the bookkeeping counts
  // ---------------------------------------------------------------------------

  /** This step returns a ticket to a request under the watched API's quota. */
  predicate IssuesTicket(s: System, a: Action) {
    && a.On? && a.move.Deliver? && Enabled(s, a)
    && var attempt := s.providers[a.id].attempts[a.move.attempt];
       && attempt.quota.Some? && attempt.quota.value.api == s.watched
       && Resume(attempt, attempt.reply.value, s.nextToken, a.move.participating).Returned?
       && Resume(attempt, attempt.reply.value, s.nextToken, a.move.participating).outcome.Acquired?
  }

  /** This step executes a SET that an attempt under the watched API's quota awaits, and Redis accepts it. */
  predicate ConfirmsReservation(s: System, a: Action) {
    && a.On? && a.move.ExecuteCurrent? && Enabled(s, a)
    && var attempt := s.providers[a.id].attempts[a.move.attempt];
       && attempt.quota.Some? && attempt.quota.value.api == s.watched && attempt.current.value.Reserve?
       && !Present(SlotAt(s.store, attempt.current.value.scope), s.now)
  }

  /** This step executes an HINCRBY of the watched API, awaited or left over. */
  predicate Increments(s: System, a: Action) {
    && a.On? && Enabled(s, a)
    && var p := s.providers[a.id];
       || (a.move.ExecuteStale? && p.stale[0] == Count(s.watched))
       || (a.move.ExecuteCurrent? && p.attempts[a.move.attempt].current == Some(Count(s.watched)))
  }

  /** The steps up to state `i`, since the last reset, for which `counts` holds. */
  function Since(run: Run, i: nat, counts: (System, Action) -> bool): (n: nat)
    requires |run.states| == |run.actions| + 1 && i <= |run.actions|
  {
    if i == 0 || run.actions[i - 1].Reset? then 0
    else Since(run, i - 1, counts) + if counts(run.states[i - 1], run.actions[i - 1]) then 1 else 0
  }

  lemma TallyStep(s: System, a: Action)
    requires Inv(s) && Enabled(s, a) && !a.Reset?
    ensures Next(s, a).tally.issued == s.tally.issued + Num(IssuesTicket(s, a))
    ensures Next(s, a).tally.reserved == s.tally.reserved + Num(ConfirmsReservation(s, a))
    ensures CountOf(Next(s, a).store, s.watched) == CountOf(s.store, s.watched) + Num(Increments(s, a))
    ensures Next(s, a).watched == s.watched
  {
    hide Bounded, MovedProvider, Resume;
    if a.On? && a.move.ExecuteCurrent? {
      assert AttemptOk(s.providers[a.id].attempts[a.move.attempt]);
    }
  }

  /** The counter is the number of increments executed since the last reset, and the tally is as it says. */
  lemma {:induction false} TallyIsExact(run: Run, i: nat)
    requires IsRun(run) && i < |run.states|
    ensures run.states[i].tally.issued == Since(run, i, IssuesTicket)
    ensures run.states[i].tally.reserved == Since(run, i, ConfirmsReservation)
    ensures CountOf(run.states[i].store, run.states[i].watched) == Since(run, i, Increments)
    decreases i
  {
    hide Inv, Enabled, IssuesTicket, ConfirmsReservation, Increments;
    if i > 0 {
      StepAt(run, i - 1);
      if !run.actions[i - 1].Reset? {
        TallyIsExact(run, i - 1);
        InvAlways(run, i - 1);
        TallyStep(run.states[i - 1], run.actions[i - 1]);
      }
    }
  }

  /** A cancelled attempt leaves its awaited command on the wire, behind older ones, and frees the guard. */
  lemma CancelledLingers(p: Provider, s: System, x: AttemptId)
    requires CanMove(p, s.now, Cancel(x))
    ensures var p' := MovedProvider(p, s, Cancel(x));
            && MovedStore(p, s, Cancel(x)) == s.store && x !in p'.attempts && !p'.discovery.checking
            && p'.stale == if p.attempts[x].current.Some? then p.stale + [p.attempts[x].current.value] else p.stale
  {
  }

  // ---------------------------------------------------------------------------
  // Exactly when a reset keeps the chain
  // ---------------------------------------------------------------------------

  /** The chain holds in every continuation of `s` without a further reset. */
  ghost predicate KeepsChain(s: System) {
    forall run: Run, i: nat |
      Steps(run) && run.states[0] == s && Reset !in run.actions && i < |run.states| :: Chain(run.states[i])
  }

  ghost predicate Clean(s: System) {
    Inv(s) && s.tally.carriedReserved == 0 && s.tally.carriedCounted == 0
  }

  lemma CleanStep(s: System, a: Action)
    requires Clean(s) && Enabled(s, a) && a != Reset
    ensures Clean(Next(s, a))
  {
    hide Inv;
    InvStep(s, a);
  }

  lemma CleanStepAt(run: Run, i: nat)
    requires Steps(run) && i < |run.actions| && Clean(run.states[i]) && run.actions[i] != Reset
    ensures Clean(run.states[i + 1])
  {
    hide Clean, Enabled, Next;
    StepAt(run, i);
    CleanStep(run.states[i], run.actions[i]);
  }

  lemma CleanChain(s: System)
    requires Clean(s)
    ensures Chain(s)
  {
  }

  lemma {:induction false} CleanAlways(run: Run, i: nat)
    requires Steps(run) && Clean(run.states[0]) && Reset !in run.actions && i < |run.states|
    ensures Clean(run.states[i])
    decreases i
  {
    hide Clean;
    if i > 0 {
      CleanAlways(run, i - 1);
      assert run.actions[i - 1] in run.actions;
      CleanStepAt(run, i - 1);
    }
  }

  /** One step that leaves the chain broken refutes it. */
  lemma BrokenBy(s: System, a: Action)
    requires Enabled(s, a) && a != Reset && !Chain(Next(s, a))
    ensures !KeepsChain(s)
  {
    var run := Run([s, Next(s, a)], [a]);
    assert StepHolds(run, 0);
    assert !Chain(run.states[1]);
  }

  lemma BrokenLater(s: System, a: Action)
    requires Enabled(s, a) && a != Reset && !KeepsChain(Next(s, a))
    ensures !KeepsChain(s)
  {
    var run: Run, i: nat :|
      Steps(run) && run.states[0] == Next(s, a) && Reset !in run.actions && i < |run.states| && !Chain(run.states[i]);
    var longer := Run([s] + run.states, [a] + run.actions);
    forall k: nat | k < |longer.actions| ensures StepHolds(longer, k) {
      if k > 0 {
        StepAt(run, k - 1);
        assert longer.states[k] == run.states[k - 1] && longer.states[k + 1] == run.states[k];
      }
    }
    assert longer.states[i + 1] == run.states[i];
  }

  lemma CountedBreaks(s: System, id: ProviderId, x: AttemptId)
    requires s.tally.issued == 0 && CountOf(s.store, s.watched) == 0
    requires id in s.providers && ProviderOk(s.providers[id]) && x in s.providers[id].attempts
    requires HoldsCount(s.providers[id].attempts[x], s.watched)
    ensures !KeepsChain(s)
  {
    BrokenBy(s, On(id, Deliver(x, true)));
  }

  lemma StaleBreaks(s: System, id: ProviderId)
    requires s.tally.reserved == 0 && CountOf(s.store, s.watched) == 0
    requires id in s.providers && ProviderOk(s.providers[id]) && Count(s.watched) in s.providers[id].stale
    ensures !KeepsChain(s)
  {
    BrokenBy(s, On(id, ExecuteStale));
  }

  lemma CountingBreaks(s: System, id: ProviderId, x: AttemptId)
    requires s.tally.reserved == 0 && CountOf(s.store, s.watched) == 0
    requires id in s.providers && ProviderOk(s.providers[id]) && x in s.providers[id].attempts
    requires Watches(s.providers[id].attempts[x], s.watched)
    requires s.providers[id].attempts[x].phase.Counting? && s.providers[id].attempts[x].current.Some?
    ensures !KeepsChain(s)
  {
    BrokenBy(s, On(id, ExecuteCurrent(x)));
  }

  /** Delivering the confirmed SET sends the increment. */
  lemma ReservedSendsCount(s: System, id: ProviderId, x: AttemptId)
    requires id in s.providers && ProviderOk(s.providers[id]) && x in s.providers[id].attempts
    requires Watches(s.providers[id].attempts[x], s.watched)
    requires s.providers[id].attempts[x].phase.Reserving? && s.providers[id].attempts[x].reply == Some(Done(true))
    ensures Enabled(s, On(id, Deliver(x, true)))
    ensures var s' := Next(s, On(id, Deliver(x, true)));
            && s'.store == s.store && s'.tally == s.tally && s'.watched == s.watched
            && id in s'.providers && x in s'.providers[id].attempts
            && var a := s'.providers[id].attempts[x];
               Watches(a, s.watched) && a.phase.Counting? && a.current.Some?
  {
  }

  lemma ReservedBreaks(s: System, id: ProviderId, x: AttemptId)
    requires s.tally.reserved == 0 && CountOf(s.store, s.watched) == 0
    requires id in s.providers && ProviderOk(s.providers[id]) && x in s.providers[id].attempts
    requires HoldsReservation(s.providers[id].attempts[x], s.watched)
    ensures !KeepsChain(s)
  {
    if s.providers[id].attempts[x].phase.Counting? {
      CountingBreaks(s, id, x);
    } else {
      var a := On(id, Deliver(x, true));
      ReservedSendsCount(s, id, x);
      ProviderMove(s.providers[id], s, a.move);
      CountingBreaks(Next(s, a), id, x);
      BrokenLater(s, a);
    }
  }

  /**
   * "Tickets <= increments <= reservations since the last reset" survives a reset
   * if and only if no attempt stood between its confirmed SET and its returned ticket.
   */
  lemma ResetIsExact(s: System)
    requires Inv(s)
    ensures KeepsChain(Next(s, Reset)) <==> ReservedSet(s) == {} && CountedSet(s) == {}
  {
    var s' := Next(s, Reset);
    InvReset(s);
    if ReservedSet(s) == {} && CountedSet(s) == {} {
      forall run: Run, i: nat |
        Steps(run) && run.states[0] == s' && Reset !in run.actions && i < |run.states|
        ensures Chain(run.states[i])
      {
        CleanAlways(run, i);
        CleanChain(run.states[i]);
      }
    } else if CountedSet(s) != {} {
      var id :| id in CountedSet(s);
      var x :| x in s.providers[id].attempts && HoldsCount(s.providers[id].attempts[x], s.watched);
      CountedBreaks(s', id, x);
    } else {
      var id :| id in ReservedSet(s);
      if Count(s.watched) in s.providers[id].stale {
        StaleBreaks(s', id);
      } else {
        var x :| x in s.providers[id].attempts && HoldsReservation(s.providers[id].attempts[x], s.watched);
        ReservedBreaks(s', id, x);
      }
    }
  }
}
