/**
 * The request slots of the whole admission system are token cells with fresh
 * tokens: the commands that reach one scope's key form a history to which the
 * cell's succession theorem applies.
 */
module ReservationHistory {
  import opened Common
  import opened TokenCell
  import opened Admission
  import opened QuotaBound

  /** The command this step executes at Redis, with the provider's TTL. */
  function Executed(s: System, a: Action): (r: Option<(Command, int)>) {
    if a.On? && a.id in s.providers && CanMove(s.providers[a.id], s.now, a.move) then
      var p := s.providers[a.id];
      if a.move.ExecuteStale? then Some((p.stale[0], p.ttl))
      else if a.move.ExecuteCurrent? then Some((p.attempts[a.move.attempt].current.value, p.ttl))
      else None
    else None
  }

  /** What this step does to the key of `scope`. */
  function SlotEvent(s: System, a: Action, scope: Scope): (r: History<Token>) {
    var executed := Executed(s, a);
    if executed.Some? && executed.value.0.Reserve? && executed.value.0.scope == scope then
      [Event(s.now, Set(executed.value.0.token, executed.value.1))]
    else if a.Recorder? && a.scope == scope then [Event(s.now, a.op)]
    else []
  }

  /** Everything that happened to the key of `scope` up to state `i`. */
  function HistoryOf(run: Run, scope: Scope, i: nat): (h: History<Token>)
    requires |run.states| == |run.actions| + 1 && i <= |run.actions|
  {
    if i == 0 then [] else HistoryOf(run, scope, i - 1) + SlotEvent(run.states[i - 1], run.actions[i - 1], scope)
  }

  // ---------------------------------------------------------------------------
  // The key follows its history
  // ---------------------------------------------------------------------------

  lemma {:induction false} AppendEvent<T>(h: History<T>, e: Event<T>)
    requires WellTimed(h) && (h != [] ==> h[|h| - 1].at <= e.at)
    ensures WellTimed(h + [e]) && CellAfter(h + [e]) == Apply(CellAfter(h), e.at, e.op).0
  {
    var longer := h + [e];
    assert longer[..|h|] == h && longer[|h|] == e;
    forall i, j | 0 <= i < j < |longer| ensures longer[i].at <= longer[j].at {
      if j == |h| {
        assert h[i].at <= h[|h| - 1].at;
      }
    }
  }

  lemma SlotStep(s: System, a: Action, scope: Scope)
    requires Enabled(s, a)
    ensures var e := SlotEvent(s, a, scope);
            SlotAt(Next(s, a).store, scope)
            == if e == [] then SlotAt(s.store, scope) else Apply(SlotAt(s.store, scope), s.now, e[0].op).0
    ensures |SlotEvent(s, a, scope)| <= 1 && forall e | e in SlotEvent(s, a, scope) :: e.at == s.now
    ensures s.now <= Next(s, a).now
  {
    hide MovedProvider, MovedTally, ReservedSet, CountedSet;
  }

  /** `h` accounts for the key of `scope` in state `s`. */
  ghost predicate Accounts(h: History<Token>, s: System, scope: Scope) {
    CellAfter(h) == SlotAt(s.store, scope) && WellTimed(h) && (h != [] ==> h[|h| - 1].at <= s.now)
  }

  lemma {:induction false} AccountsStep(h: History<Token>, s: System, a: Action, scope: Scope)
    requires Enabled(s, a) && Accounts(h, s, scope)
    ensures Accounts(h + SlotEvent(s, a, scope), Next(s, a), scope)
  {
    hide SlotEvent, Next, Enabled, Apply;
    SlotStep(s, a, scope);
    var e := SlotEvent(s, a, scope);
    if e == [] {
      assert h + e == h;
    } else {
      AppendEvent(h, e[0]);
      assert h + e == h + [e[0]];
    }
  }

  lemma AccountsStart(s: System, scope: Scope)
    requires Init(s)
    ensures Accounts([], s, scope)
  {
  }

  lemma {:induction false} AccountsStepAt(run: Run, scope: Scope, i: nat)
    requires Steps(run) && i < |run.actions| && Accounts(HistoryOf(run, scope, i), run.states[i], scope)
    ensures Accounts(HistoryOf(run, scope, i + 1), run.states[i + 1], scope)
  {
    hide Accounts, Enabled, Next, SlotEvent;
    StepAt(run, i);
    AccountsStep(HistoryOf(run, scope, i), run.states[i], run.actions[i], scope);
  }

  lemma {:induction false} SlotFollowsHistory(run: Run, scope: Scope, i: nat)
    requires IsRun(run) && i < |run.states|
    ensures Accounts(HistoryOf(run, scope, i), run.states[i], scope)
    decreases i
  {
    hide Accounts;
    if i == 0 {
      AccountsStart(run.states[0], scope);
    } else {
      SlotFollowsHistory(run, scope, i - 1);
      AccountsStepAt(run, scope, i - 1);
    }
  }

  // ---------------------------------------------------------------------------
  // Tokens are offered once
  // ---------------------------------------------------------------------------

  /** `token` is offered by a command of `p` that may still reach Redis. */
  predicate Offers(p: Provider, token: Token) {
    || (p.stale != [] && p.stale[0].Reserve? && p.stale[0].token == token)
    || (exists x :: x in p.attempts && p.attempts[x].current.Some?
                    && p.attempts[x].current.value.Reserve? && p.attempts[x].current.value.token == token)
  }

  /** The tokens offered by the SET commands of a history. */
  function Tokens(h: History<Token>): (r: set<Token>) {
    set k | 0 <= k < |h| && h[k].op.Set? :: h[k].op.token
  }

  /** Outstanding offers are old, unique, and not yet in the key's history; executed offers are old. */
  ghost predicate TokensOk(providers: map<ProviderId, Provider>, next: Token, offered: set<Token>) {
    && (forall id, token: Token {:trigger Offers(providers[id], token)}
          | id in providers && Offers(providers[id], token) ::
          token < next && token !in offered)
    && (forall i, j, token: Token | i in providers && j in providers
                                    && Offers(providers[i], token) && Offers(providers[j], token) :: i == j)
    && (forall token: Token | token in offered :: token < next)
  }

  /** A move keeps its provider's outstanding offer, drops it, or makes one fresh offer. */
  lemma MoveOffers(p: Provider, s: System, move: Move, token: Token)
    requires ProviderOk(p) && CanMove(p, s.now, move)
    requires Offers(MovedProvider(p, s, move), token)
    ensures Offers(p, token) || token == s.nextToken
  {
    hide ProviderOk, Offers, Resume, Execute, AttemptOk;
    var p' := MovedProvider(p, s, move);
    match move
    case ExecuteStale => StaleOffers(p, p', token);
    case LoseStale(_) => StaleOffers(p, p', token);
    case Deliver(_, _) => DeliverOffers(p, s, move, token);
    case _ => OtherOffers(p, s, move, token);
  }

  lemma DeliverOffers(p: Provider, s: System, move: Move, token: Token)
    requires CanMove(p, s.now, move) && move.Deliver? && Offers(MovedProvider(p, s, move), token)
    ensures Offers(p, token) || token == s.nextToken
  {
    var p' := MovedProvider(p, s, move);
    var a := p.attempts[move.attempt];
    var turn := Resume(a, a.reply.value, s.nextToken, move.participating);
    if turn.Awaiting? && turn.attempt.current.Some? && turn.attempt.current.value.Reserve? {
      assert turn.attempt.current.value.token == s.nextToken;
    }
  }

  lemma OtherOffers(p: Provider, s: System, move: Move, token: Token)
    requires CanMove(p, s.now, move) && Offers(MovedProvider(p, s, move), token)
    requires move.Start? || move.ExecuteCurrent? || move.LoseCurrent? || move.Cancel?
    ensures Offers(p, token)
  {
    hide Execute;
  }

  lemma StaleOffers(p: Provider, p': Provider, token: Token)
    requires ProviderOk(p) && p'.attempts == p.attempts && Offers(p', token)
    requires p'.stale != [] ==> p'.stale[0] in p.stale
    ensures Offers(p, token)
  {
    if p'.stale != [] && p'.stale[0].Reserve? {
      var i :| 0 <= i < |p.stale| && p.stale[i] == p'.stale[0];
      assert i == 0;
    }
  }

  /** The executed offer is not outstanding any more. */
  lemma ExecutedOfferIsGone(p: Provider, s: System, move: Move, token: Token)
    requires ProviderOk(p) && CanMove(p, s.now, move)
    requires move.ExecuteStale? || move.ExecuteCurrent?
    requires var command := if move.ExecuteStale? then p.stale[0] else p.attempts[move.attempt].current.value;
             command.Reserve? && command.token == token
    ensures Offers(p, token) && !Offers(MovedProvider(p, s, move), token)
  {
    var p' := MovedProvider(p, s, move);
    if move.ExecuteStale? {
      assert forall x | x in p.attempts :: p.attempts[x].phase.Discovering?;
      assert p'.stale != [] ==> p'.stale[0] == p.stale[1];
    } else {
      assert p.attempts.Keys == {move.attempt};
    }
  }

  lemma AppendToken(h: History<Token>, e: Event<Token>)
    requires FreshTokens(h) && (e.op.Set? ==> e.op.token !in Tokens(h))
    ensures FreshTokens(h + [e])
    ensures Tokens(h + [e]) == Tokens(h) + (if e.op.Set? then {e.op.token} else {})
  {
    var longer := h + [e];
    assert longer[|h|] == e && forall i | 0 <= i < |h| :: longer[i] == h[i];
    forall i, j | 0 <= i < j < |longer| && longer[i].op.Set? && longer[j].op.Set?
      ensures longer[i].op.token != longer[j].op.token
    {
      if j == |h| {
        assert h[i].op.token in Tokens(h);
      }
    }
  }

  /** One provider changes its offer; `gone` is the token its move executed, if any. */
  lemma TokensReplace(providers: map<ProviderId, Provider>, next: Token, offered: set<Token>,
                      id: ProviderId, p: Provider, gone: set<Token>)
    requires TokensOk(providers, next, offered) && id in providers
    requires forall token: Token | Offers(p, token) :: (Offers(providers[id], token) || token == next) && token !in gone
    requires forall token: Token | token in gone :: Offers(providers[id], token)
    ensures TokensOk(providers[id := p], next + 1, offered + gone)
  {
  }

  lemma {:induction false} TokensJoin(providers: map<ProviderId, Provider>, next: Token, offered: set<Token>,
                                      id: ProviderId, p: Provider)
    requires TokensOk(providers, next, offered)
    requires forall token: Token :: !Offers(p, token)
    ensures TokensOk(providers[id := p], next, offered)
  {
  }

  /** The token of a SET that this step executes at the key of `scope`. */
  function Gone(s: System, a: Action, scope: Scope): (r: set<Token>) {
    var e := SlotEvent(s, a, scope);
    if e != [] && e[0].op.Set? then {e[0].op.token} else {}
  }

  lemma TokensMove(s: System, id: ProviderId, move: Move, scope: Scope, offered: set<Token>)
    requires Enabled(s, On(id, move)) && ProviderOk(s.providers[id])
    requires TokensOk(s.providers, s.nextToken, offered)
    ensures var s' := Next(s, On(id, move));
            TokensOk(s'.providers, s'.nextToken, offered + Gone(s, On(id, move), scope))
  {
    var p := s.providers[id];
    var p' := MovedProvider(p, s, move);
    var gone := Gone(s, On(id, move), scope);
    forall token: Token | token in gone ensures Offers(p, token) && !Offers(p', token) {
      ExecutedOfferIsGone(p, s, move, token);
    }
    forall token: Token | Offers(p', token) ensures Offers(p, token) || token == s.nextToken {
      MoveOffers(p, s, move, token);
    }
    TokensReplace(s.providers, s.nextToken, offered, id, p', gone);
  }

  lemma TokensStep(s: System, a: Action, scope: Scope, offered: set<Token>)
    requires Enabled(s, a) && TokensOk(s.providers, s.nextToken, offered)
    requires Inv(s)
    ensures var s' := Next(s, a); TokensOk(s'.providers, s'.nextToken, offered + Gone(s, a, scope))
  {
    hide TokensOk, Bounded, ProviderOk;
    match a
    case On(id, move) => TokensMove(s, id, move, scope, offered);
    case Join(id, _) =>
      assert offered + {} == offered;
      var p := Next(s, a).providers[id];
      assert forall token: Token :: !Offers(p, token);
      TokensJoin(s.providers, s.nextToken, offered, id, p);
    case _ =>
      assert offered + {} == offered;
  }

  /** A SET that reaches the key carries a token the key has never seen. */
  lemma EventIsFresh(s: System, a: Action, scope: Scope, offered: set<Token>)
    requires Enabled(s, a) && TokensOk(s.providers, s.nextToken, offered)
    ensures Gone(s, a, scope) !! offered
  {
    var e := SlotEvent(s, a, scope);
    if e != [] && e[0].op.Set? {
      assert Offers(s.providers[a.id], e[0].op.token);
    }
  }

  /** The history `h` of a scope's key and the tokens outstanding in `s` never repeat one. */
  ghost predicate TokensHold(s: System, h: History<Token>) {
    FreshTokens(h) && TokensOk(s.providers, s.nextToken, Tokens(h))
  }

  lemma TokensHoldStart(s: System)
    requires Init(s)
    ensures TokensHold(s, [])
  {
  }

  lemma TokensHoldStep(s: System, a: Action, scope: Scope, h: History<Token>)
    requires Inv(s) && Enabled(s, a) && TokensHold(s, h)
    ensures TokensHold(Next(s, a), h + SlotEvent(s, a, scope))
  {
    hide TokensOk, Enabled, Next, SlotEvent, Gone, FreshTokens, Tokens, ProviderOk, Bounded;
    TokensStep(s, a, scope, Tokens(h));
    EventIsFresh(s, a, scope, Tokens(h));
    ExtendTokens(s, a, scope, h);
  }

  lemma {:induction false} TokensAlways(run: Run, scope: Scope, i: nat)
    requires IsRun(run) && i < |run.states|
    ensures TokensHold(run.states[i], HistoryOf(run, scope, i))
    decreases i
  {
    hide Inv, TokensHold, Enabled, Next, SlotEvent;
    if i == 0 {
      TokensHoldStart(run.states[0]);
    } else {
      TokensAlways(run, scope, i - 1);
      InvAlways(run, i - 1);
      StepAt(run, i - 1);
      TokensHoldStep(run.states[i - 1], run.actions[i - 1], scope, HistoryOf(run, scope, i - 1));
    }
  }

  lemma ExtendTokens(s: System, a: Action, scope: Scope, h: History<Token>)
    requires FreshTokens(h) && Gone(s, a, scope) !! Tokens(h)
    ensures FreshTokens(h + SlotEvent(s, a, scope))
    ensures Tokens(h + SlotEvent(s, a, scope)) == Tokens(h) + Gone(s, a, scope)
  {
    var e := SlotEvent(s, a, scope);
    if e == [] {
      assert h + e == h;
    } else {
      assert h + e == h + [e[0]];
      AppendToken(h, e[0]);
    }
  }

  /**
   * In every run, once a ticket has been offered and does not own its slot, every
   * later command with its token answers false and changes nothing.
   */
  lemma LostTicketsStayInert(run: Run, scope: Scope, n: nat, offered: nat, lost: nat, m: nat)
    requires IsRun(run) && n < |run.states| && offered < lost <= m < |HistoryOf(run, scope, n)|
    requires var h := HistoryOf(run, scope, n);
             && h[offered].op.Set? && h[m].op.token == h[offered].op.token
             && !Owns(CellAfter(h[..lost]), h[lost].at, h[offered].op.token)
    ensures var h := HistoryOf(run, scope, n);
            !h[m].op.Set? && !Answer(h, m) && CellAfter(h[..m + 1]) == CellAfter(h[..m])
  {
    SlotFollowsHistory(run, scope, n);
    TokensAlways(run, scope, n);
    var h := HistoryOf(run, scope, n);
    LostTicketIsInertForever(h, h[offered].op.token, offered, lost, m);
  }

  /**
   * In every run, the reservations of one scope succeed each other: each accepted
   * SET comes after its predecessor completed or let its last extension run out,
   * and a ticket that lost the slot never affects it again.
   */
  lemma ReservationsSucceed(run: Run, scope: Scope, n: nat, i: nat, j: nat)
    requires IsRun(run) && n < |run.states|
    requires i < j < |HistoryOf(run, scope, n)|
    requires var h := HistoryOf(run, scope, n);
             h[i].op.Set? && h[j].op.Set? && Answer(h, i) && Answer(h, j)
    ensures var h := HistoryOf(run, scope, n);
            var token := h[i].op.token;
            var deadline := OwnDeadline(h[..j], token);
            && token != h[j].op.token
            && (|| (exists k :: i < k < j && h[k].op == Delete(token) && Answer(h, k))
                || (deadline.Some? && deadline.value <= h[j].at))
            && (forall m | j < m < |h| && h[m].op.token == token ::
                  !Answer(h, m) && CellAfter(h[..m + 1]) == CellAfter(h[..m]))
  {
    var h := HistoryOf(run, scope, n);
    var token := h[i].op.token;
    SlotFollowsHistory(run, scope, n);
    TokensAlways(run, scope, n);
    Succession(h, i, j);
    forall m | j < m < |h| && h[m].op.token == token
      ensures !Answer(h, m) && CellAfter(h[..m + 1]) == CellAfter(h[..m])
    {
      LostTicketIsInertForever(h, token, i, j, m);
    }
  }
}
