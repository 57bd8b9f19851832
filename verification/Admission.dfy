/**
 * Request admission as a transition system: any number of independent providers
 * (each standing for all its clones), one Redis writer holding the recorder address,
 * the request slots and the API counters, and the recorder's own commands.
 *
 * `acquire` is cut at its awaits. As for the lease, commands of one provider reach
 * Redis in order; a cancelled attempt leaves its command in `stale`.
 */
module Admission {
  import opened Common
  import opened TokenCell
  import D = Discovery
  import K = Ticket

  type Api = string
  type Scope = string
  type ProviderId = nat
  type AttemptId = nat
  type Token = nat

  /** What `GET <recorder_url_key>` decodes to: no key, an http origin, text that is no URI, or another URI. */
  datatype Address = NoAddress | Origin | Unparsable | NotOrigin

  datatype Command = GetAddress | GetCount(api: Api) | Reserve(scope: Scope, token: Token) | Count(api: Api)

  datatype Reply = AddressIs(address: Address) | CountIs(n: nat) | Done(accepted: bool) | Counted

  datatype Quota = Quota(api: Api, limit: nat)

  datatype Phase = Discovering | Checking | Reserving(token: Token) | Counting(token: Token)

  /** `usable` tells whether a ticket can be built from the discovered address. */
  datatype Attempt = Attempt(
    scope: Scope,
    quota: Option<Quota>,
    usable: bool,
    phase: Phase,
    current: Option<Command>,
    reply: Option<Reply>)

  datatype Outcome = Acquired(token: Token) | Busy | NoRecorder | QuotaExhausted | Failed

  /** The outcomes on which `acquire` marks its guard available before dropping it. */
  predicate Available(outcome: Outcome) {
    outcome.Acquired? || outcome.Busy? || outcome.QuotaExhausted?
  }

  // ---------------------------------------------------------------------------
  // One attempt
  // ---------------------------------------------------------------------------

  datatype Turn = Awaiting(attempt: Attempt) | Returned(outcome: Outcome)

  function Begin(scope: Scope, quota: Option<Quota>): (a: Attempt) {
    Attempt(scope, quota, true, Discovering, Some(GetAddress), None)
  }

  function Send(a: Attempt, phase: Phase, command: Command): (t: Turn) {
    Awaiting(a.(phase := phase, current := Some(command), reply := None))
  }

  /** The ticket is built, which scope and address may prevent; then its token is offered for the scope. */
  function Offer(a: Attempt, token: Token): (t: Turn) {
    if a.usable && K.Sendable(a.scope) then Send(a, Reserving(token), Reserve(a.scope, token)) else Returned(Failed)
  }

  /** The last eligibility check, after every Redis operation. */
  function Conclude(token: Token, participating: bool): (t: Turn) {
    if participating then Returned(Acquired(token)) else Returned(Failed)
  }

  /** From one reply to the next await or the outcome; `token` is the next fresh token. */
  function Resume(a: Attempt, reply: Reply, token: Token, participating: bool): (t: Turn) {
    match (a.phase, reply)
    case (Discovering, AddressIs(NoAddress)) => Returned(NoRecorder)
    case (Discovering, AddressIs(Unparsable)) => Returned(Failed)
    case (Discovering, AddressIs(found)) =>
      var a := a.(usable := found.Origin?);
      if a.quota.Some? then Send(a, Checking, GetCount(a.quota.value.api)) else Offer(a, token)
    case (Checking, CountIs(n)) =>
      if a.quota.None? then Returned(Failed)
      else if n >= a.quota.value.limit then Returned(QuotaExhausted)
      else Offer(a, token)
    case (Reserving(mine), Done(accepted)) =>
      if !accepted then Returned(Busy)
      else if a.quota.Some? then Send(a, Counting(mine), Count(a.quota.value.api))
      else Conclude(mine, participating)
    case (Counting(mine), Counted) => Conclude(mine, participating)
    case _ => Returned(Failed)
  }

  // ---------------------------------------------------------------------------
  // Redis
  // ---------------------------------------------------------------------------

  datatype Store = Store(
    address: Address,
    counts: map<Api, nat>,
    slots: map<Scope, Entry<Token>>)

  function CountOf(store: Store, api: Api): (n: nat) {
    if api in store.counts then store.counts[api] else 0
  }

  function SlotAt(store: Store, scope: Scope): (cell: Cell<Token>) {
    if scope in store.slots then Some(store.slots[scope]) else None
  }

  function SlotPut(store: Store, scope: Scope, cell: Cell<Token>): (r: Store) {
    store.(slots := if cell.Some? then store.slots[scope := cell.value] else store.slots - {scope})
  }

  function Execute(store: Store, now: int, ttl: int, command: Command): (r: (Store, Reply)) {
    match command
    case GetAddress => (store, AddressIs(store.address))
    case GetCount(api) => (store, CountIs(CountOf(store, api)))
    case Reserve(scope, token) =>
      var (cell, accepted) := Apply(SlotAt(store, scope), now, Set(token, ttl));
      (SlotPut(store, scope, cell), Done(accepted))
    case Count(api) => (store.(counts := store.counts[api := CountOf(store, api) + 1]), Counted)
  }

  // ---------------------------------------------------------------------------
  // The whole system
  // ---------------------------------------------------------------------------

  datatype Provider = Provider(
    ttl: int,
    discovery: D.State,
    attempts: map<AttemptId, Attempt>,
    stale: seq<Command>)

  /**
   * Bookkeeping for one watched API since the last reset of the counters: the
   * largest limit a check passed, confirmed reservations, tickets returned, and the
   * attempts that were between SET and HINCRBY, or past it, when the reset happened.
   */
  datatype Tally = Tally(peak: nat, reserved: nat, issued: nat, carriedReserved: nat, carriedCounted: nat)

  datatype System = System(
    now: int,
    store: Store,
    providers: map<ProviderId, Provider>,
    nextAttempt: AttemptId,
    nextToken: Token,
    watched: Api,
    tally: Tally)

  datatype Move =
    | Start(scope: Scope, quota: Option<Quota>)
    | ExecuteStale
    | ExecuteCurrent(attempt: AttemptId)
    | LoseStale(index: nat)
    | LoseCurrent(attempt: AttemptId)
    | Deliver(attempt: AttemptId, participating: bool)
    | Cancel(attempt: AttemptId)

  datatype Action =
    | Tick(to: int)
    | SetAddress(address: Address)
    | Reset
    | Recorder(scope: Scope, op: Op<Token>)
    | Join(id: ProviderId, ttl: int)
    | On(id: ProviderId, move: Move)

  ghost predicate Init(s: System) {
    && s.store.counts == map[] && s.store.slots == map[] && s.providers == map[]
    && s.tally == Tally(0, 0, 0, 0, 0)
  }

  predicate CanMove(p: Provider, now: int, move: Move) {
    match move
    case Start(_, _) => D.Outcome(p.discovery, now).Granted?
    case ExecuteStale => p.stale != []
    case ExecuteCurrent(x) => p.stale == [] && x in p.attempts && p.attempts[x].current.Some?
    case LoseStale(index) => index < |p.stale|
    case LoseCurrent(x) => x in p.attempts && p.attempts[x].current.Some?
    case Deliver(x, _) => x in p.attempts && p.attempts[x].reply.Some?
    case Cancel(x) => x in p.attempts
  }

  /** The future of attempt `x` ends; its guard is dropped and releases the flag. */
  function Ended(p: Provider, x: AttemptId, now: int, available: bool): (r: Provider) {
    p.(attempts := p.attempts - {x}, discovery := D.Dropped(now, available))
  }

  function Pending(a: Attempt): (r: seq<Command>) {
    if a.current.Some? then [a.current.value] else []
  }

  /** What one move does to its provider. */
  function MovedProvider(p: Provider, s: System, move: Move): (r: Provider)
    requires CanMove(p, s.now, move)
  {
    match move
    case Start(scope, quota) =>
      p.(discovery := p.discovery.(checking := true),
         attempts := p.attempts[s.nextAttempt := Begin(scope, quota)])
    case ExecuteStale => p.(stale := p.stale[1..])
    case ExecuteCurrent(x) =>
      var a := p.attempts[x];
      var reply := Execute(s.store, s.now, p.ttl, a.current.value).1;
      p.(attempts := p.attempts[x := a.(current := None, reply := Some(reply))])
    case LoseStale(index) => p.(stale := p.stale[..index] + p.stale[index + 1..])
    case LoseCurrent(x) => p.(attempts := p.attempts[x := p.attempts[x].(current := None)])
    case Deliver(x, participating) =>
      var a := p.attempts[x];
      (match Resume(a, a.reply.value, s.nextToken, participating)
       case Awaiting(next) => p.(attempts := p.attempts[x := next])
       case Returned(outcome) => Ended(p, x, s.now, Available(outcome)))
    case Cancel(x) => Ended(p, x, s.now, false).(stale := p.stale + Pending(p.attempts[x]))
  }

  function MovedStore(p: Provider, s: System, move: Move): (r: Store)
    requires CanMove(p, s.now, move)
  {
    match move
    case ExecuteStale => Execute(s.store, s.now, p.ttl, p.stale[0]).0
    case ExecuteCurrent(x) => Execute(s.store, s.now, p.ttl, p.attempts[x].current.value).0
    case _ => s.store
  }

  predicate Watches(a: Attempt, api: Api) { a.quota.Some? && a.quota.value.api == api }

  function MovedTally(p: Provider, s: System, move: Move): (r: Tally)
    requires CanMove(p, s.now, move)
  {
    match move
    case ExecuteCurrent(x) =>
      var a := p.attempts[x];
      var reply := Execute(s.store, s.now, p.ttl, a.current.value).1;
      if !Watches(a, s.watched) then s.tally
      else if reply.CountIs? && reply.n < a.quota.value.limit && s.tally.peak < a.quota.value.limit then
        s.tally.(peak := a.quota.value.limit)
      else if reply == Done(true) then s.tally.(reserved := s.tally.reserved + 1)
      else s.tally
    case Deliver(x, participating) =>
      var a := p.attempts[x];
      var turn := Resume(a, a.reply.value, s.nextToken, participating);
      if Watches(a, s.watched) && turn.Returned? && turn.outcome.Acquired? then
        s.tally.(issued := s.tally.issued + 1)
      else s.tally
    case _ => s.tally
  }

  predicate Enabled(s: System, a: Action) {
    match a
    case Tick(to) => s.now <= to
    case SetAddress(_) => true
    case Reset => true
    case Recorder(_, op) => !op.Set?
    case Join(id, ttl) => id !in s.providers && 0 < ttl
    case On(id, move) => id in s.providers && CanMove(s.providers[id], s.now, move)
  }

  function Next(s: System, a: Action): (r: System)
    requires Enabled(s, a)
  {
    match a
    case Tick(to) => s.(now := to)
    case SetAddress(address) => s.(store := s.store.(address := address))
    case Reset =>
      s.(store := s.store.(counts := map[]),
         tally := Tally(0, 0, 0, |ReservedSet(s)|, |CountedSet(s)|))
    case Recorder(scope, op) =>
      s.(store := SlotPut(s.store, scope, Apply(SlotAt(s.store, scope), s.now, op).0))
    case Join(id, ttl) => s.(providers := s.providers[id := Provider(ttl, D.FRESH, map[], [])])
    case On(id, move) =>
      var p := s.providers[id];
      s.(store := MovedStore(p, s, move),
         providers := s.providers[id := MovedProvider(p, s, move)],
         nextAttempt := s.nextAttempt + 1,
         nextToken := s.nextToken + 1,
         tally := MovedTally(p, s, move))
  }

  // ---------------------------------------------------------------------------
  // Where a provider stands with respect to one API
  // ---------------------------------------------------------------------------

  /** The check passed and the increment has not reached Redis yet. */
  predicate HoldsCheck(a: Attempt, api: Api) {
    && Watches(a, api)
    && (|| (a.phase.Checking? && a.reply.Some? && a.reply.value.CountIs? && a.reply.value.n < a.quota.value.limit)
        || a.phase.Reserving?
        || (a.phase.Counting? && a.current.Some?))
  }

  /** The reservation is confirmed and the increment has not reached Redis yet. */
  predicate HoldsReservation(a: Attempt, api: Api) {
    && Watches(a, api)
    && (|| (a.phase.Reserving? && a.reply == Some(Done(true)))
        || (a.phase.Counting? && a.current.Some?))
  }

  /** The increment happened and the ticket has not been returned yet. */
  predicate HoldsCount(a: Attempt, api: Api) {
    Watches(a, api) && a.phase.Counting? && a.reply.Some?
  }

  predicate Checked(p: Provider, api: Api) {
    (exists x :: x in p.attempts && HoldsCheck(p.attempts[x], api)) || Count(api) in p.stale
  }

  predicate Reserved(p: Provider, api: Api) {
    (exists x :: x in p.attempts && HoldsReservation(p.attempts[x], api)) || Count(api) in p.stale
  }

  predicate Uncollected(p: Provider, api: Api) {
    exists x :: x in p.attempts && HoldsCount(p.attempts[x], api)
  }

  function CheckedSet(s: System): (r: set<ProviderId>) {
    set id | id in s.providers && Checked(s.providers[id], s.watched)
  }

  function ReservedSet(s: System): (r: set<ProviderId>) {
    set id | id in s.providers && Reserved(s.providers[id], s.watched)
  }

  function CountedSet(s: System): (r: set<ProviderId>) {
    set id | id in s.providers && Uncollected(s.providers[id], s.watched)
  }

  // ---------------------------------------------------------------------------
  // Runs
  // ---------------------------------------------------------------------------

  datatype Run = Run(states: seq<System>, actions: seq<Action>)

  ghost predicate StepHolds(run: Run, i: nat) {
    && i < |run.actions| && i + 1 < |run.states|
    && Enabled(run.states[i], run.actions[i]) && run.states[i + 1] == Next(run.states[i], run.actions[i])
  }

  ghost predicate Steps(run: Run) {
    && |run.states| == |run.actions| + 1
    && forall i: nat | i < |run.actions| :: StepHolds(run, i)
  }

  ghost predicate IsRun(run: Run) {
    Steps(run) && Init(run.states[0])
  }

  lemma StepAt(run: Run, i: nat)
    requires Steps(run) && i < |run.actions|
    ensures Enabled(run.states[i], run.actions[i]) && run.states[i + 1] == Next(run.states[i], run.actions[i])
  {
    assert StepHolds(run, i);
  }
}
