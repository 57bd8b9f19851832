/**
 * The gateway participation lease as a transition system: any number of gateways,
 * one Redis writer holding the limit and the slot keys, and one clock.
 *
 * A gateway's refresh cycle is cut at its awaits. Between two awaits it runs
 * `Resume`, which follows the code from one reply to the next command. Commands
 * travel in order on each gateway's connection: `current` is the awaited one, and
 * `stale` holds commands whose await was abandoned and which may still reach Redis,
 * ahead of anything sent later, or never.
 */
module GatewayLease {
  import opened Common
  import opened TokenCell

  /** Stands for the boot token, drawn afresh by every provider start. */
  type GatewayId = nat

  const NANOS_PER_MILLI: int := 1_000_000

  /** Durations in nanoseconds. */
  datatype Config = Config(ttl: nat, refresh: nat) {
    predicate Validate() {
      !(|| ttl / NANOS_PER_MILLI == 0
        || ttl / NANOS_PER_MILLI > I64_MAX
        || ttl % NANOS_PER_MILLI != 0
        || refresh / NANOS_PER_MILLI == 0
        || refresh % NANOS_PER_MILLI != 0
        || refresh > ttl / 3)
    }
  }

  /** The string stored at `<prefix>:max-gateways`. */
  datatype RawLimit = Missing | Number(n: nat) | Malformed

  datatype Command = GetLimit | Reserve(slot: nat) | Renew(slot: nat) | Release(slot: nat)

  datatype Reply = LimitIs(raw: RawLimit) | Done(accepted: bool)

  /** Where the background task is suspended. */
  datatype Phase =
    | Booting(since: int)
    | Sleeping(wake: int)
    | Reading(begun: int)
    | Releasing(begun: int, limit: nat)
    | Renewing(begun: int, limit: nat, started: int)
    | Scanning(begun: int, limit: nat, first: nat, step: nat, started: int)
    | LoadingPolicy(since: int)
    | Stopped
  {
    predicate InCycle() { Reading? || Releasing? || Renewing? || Scanning? }
  }

  datatype Gateway = Gateway(
    config: Config,
    owned: Option<nat>,
    validUntil: Option<int>,
    phase: Phase,
    stale: seq<Command>,
    current: Option<Command>,
    reply: Option<Reply>)

  /** `is_valid` */
  predicate IsValid(g: Gateway, now: int) {
    g.validUntil.Some? && now < g.validUntil.value
  }

  // ---------------------------------------------------------------------------
  // The refresh cycle of one gateway
  // ---------------------------------------------------------------------------

  function Clear(g: Gateway): (r: Gateway) { g.(validUntil := None) }

  function Publish(g: Gateway, started: int): (r: Gateway) {
    g.(validUntil := Some(started + g.config.ttl))
  }

  function Send(g: Gateway, phase: Phase, command: Command): (r: Gateway) {
    g.(phase := phase, current := Some(command), reply := None)
  }

  function Finish(g: Gateway, now: int): (r: Gateway) {
    g.(phase := LoadingPolicy(now), current := None, reply := None)
  }

  /** The slot visited at `step` by `(first..limit).chain(0..first)`. */
  function ScanSlot(first: nat, limit: nat, step: nat): (slot: nat)
    requires first < limit && step < limit
    ensures slot < limit
  {
    if first + step < limit then first + step else first + step - limit
  }

  /** A timeout or error at any await: revoke locally, keep the possibly owned slot. */
  function Fail(g: Gateway, now: int): (r: Gateway) {
    var pending := if g.current.Some? then [g.current.value] else [];
    Finish(Clear(g), now).(stale := g.stale + pending)
  }

  function Begin(g: Gateway, now: int): (r: Gateway) {
    Send(g, Reading(now), GetLimit)
  }

  function TrySlot(g: Gateway, begun: int, limit: nat, first: nat, step: nat, now: int): (r: Gateway)
    requires first < limit && step < limit
  {
    var slot := ScanSlot(first, limit, step);
    Send(g.(owned := Some(slot)), Scanning(begun, limit, first, step, now), Reserve(slot))
  }

  /** The rest of `refresh` once the limit is known and an excess slot is gone. */
  function WithinLimit(g: Gateway, begun: int, limit: nat, now: int, random: nat): (r: Gateway) {
    if limit == 0 then Finish(Clear(g), now)
    else if g.owned.Some? then Send(g, Renewing(begun, limit, now), Renew(g.owned.value))
    else TrySlot(g, begun, limit, random % limit, 0, now)
  }

  function OnLimit(g: Gateway, begun: int, limit: nat, now: int, random: nat): (r: Gateway) {
    if g.owned.Some? && g.owned.value >= limit then
      Send(Clear(g), Releasing(begun, limit), Release(g.owned.value))
    else WithinLimit(g, begun, limit, now, random)
  }

  /** From the reply of the awaited command to the next await or the end of the cycle. */
  function Resume(g: Gateway, reply: Reply, now: int, random: nat): (r: Gateway) {
    match (g.phase, reply)
    case (Reading(begun), LimitIs(Missing)) => OnLimit(g, begun, 0, now, random)
    case (Reading(begun), LimitIs(Number(n))) => OnLimit(g, begun, n, now, random)
    case (Releasing(begun, limit), Done(_)) => WithinLimit(g.(owned := None), begun, limit, now, random)
    case (Renewing(_, _, started), Done(accepted)) =>
      if accepted then Finish(Publish(g, started), now)
      else Finish(Clear(g).(owned := None), now)
    case (Scanning(begun, limit, first, step, started), Done(accepted)) =>
      if accepted then Finish(Publish(g, started), now)
      else if first < limit && step + 1 < limit then TrySlot(g.(owned := None), begun, limit, first, step + 1, now)
      else Finish(g.(owned := None), now)
    case _ => Fail(g, now)
  }

  // ---------------------------------------------------------------------------
  // Redis
  // ---------------------------------------------------------------------------

  type Slots = map<nat, Entry<GatewayId>>

  function At(slots: Slots, slot: nat): (cell: Cell<GatewayId>) {
    if slot in slots then Some(slots[slot]) else None
  }

  function Put(slots: Slots, slot: nat, cell: Cell<GatewayId>): (r: Slots) {
    if cell.Some? then slots[slot := cell.value] else slots - {slot}
  }

  function SlotOp(command: Command, id: GatewayId, ttl: int): (op: Op<GatewayId>)
    requires !command.GetLimit?
  {
    match command
    case Reserve(_) => Set(id, ttl)
    case Renew(_) => Extend(id, ttl)
    case Release(_) => Delete(id)
  }

  /** One command executed atomically for gateway `id`. */
  function Execute(slots: Slots, limit: RawLimit, now: int, id: GatewayId, ttl: int, command: Command)
    : (r: (Slots, Reply))
  {
    if command.GetLimit? then (slots, LimitIs(limit))
    else
      var (cell, accepted) := Apply(At(slots, command.slot), now, SlotOp(command, id, ttl));
      (Put(slots, command.slot, cell), Done(accepted))
  }

  // ---------------------------------------------------------------------------
  // The whole system
  // ---------------------------------------------------------------------------

  /** `peak` records the largest limit ever published. */
  datatype System = System(
    now: int,
    limit: RawLimit,
    peak: nat,
    slots: Slots,
    gateways: map<GatewayId, Gateway>)

  /** One step of a single gateway, its connection, or its commands at Redis. */
  datatype Move =
    | Booted(pause: int)
    | Wake
    | ExecuteStale
    | ExecuteCurrent
    | LoseStale(index: nat)
    | LoseCurrent
    | Deliver(random: nat)
    | Abandon
    | PolicyDone(pause: int)
    | Stop

  datatype Action =
    | Tick(to: int)
    | SetLimit(raw: RawLimit)
    | Join(id: GatewayId, config: Config)
    | On(id: GatewayId, move: Move)

  ghost predicate Init(s: System) {
    s.slots == map[] && s.gateways == map[] && s.limit == Missing && s.peak == 0
  }

  /** Sleep after a cycle: 0.8 to 1.2 intervals for participants, 1.0 to 1.2 for standbys. */
  predicate Jitter(g: Gateway, now: int, pause: int) {
    if IsValid(g, now) then 8 * g.config.refresh <= 10 * pause <= 12 * g.config.refresh
    else 10 * g.config.refresh <= 10 * pause <= 12 * g.config.refresh
  }

  predicate CanMove(now: int, g: Gateway, move: Move) {
    match move
    case Booted(pause) => g.phase.Booting? && 0 <= pause <= g.config.refresh
    case Wake => g.phase.Sleeping? && g.phase.wake <= now
    case ExecuteStale => g.stale != []
    case ExecuteCurrent => g.stale == [] && g.current.Some?
    case LoseStale(index) => index < |g.stale|
    case LoseCurrent => g.current.Some?
    case Deliver(_) => g.phase.InCycle() && g.reply.Some?
    case Abandon => g.phase.InCycle()
    case PolicyDone(pause) => g.phase.LoadingPolicy? && Jitter(g, now, pause)
    case Stop => true
  }

  function Moved(slots: Slots, limit: RawLimit, now: int, id: GatewayId, g: Gateway, move: Move): (r: (Slots, Gateway))
    requires CanMove(now, g, move)
  {
    match move
    case Booted(pause) => (slots, g.(phase := Sleeping(now + pause)))
    case Wake => (slots, Begin(g, now))
    case ExecuteStale =>
      (Execute(slots, limit, now, id, g.config.ttl, g.stale[0]).0, g.(stale := g.stale[1..]))
    case ExecuteCurrent =>
      var (slots', reply) := Execute(slots, limit, now, id, g.config.ttl, g.current.value);
      (slots', g.(current := None, reply := Some(reply)))
    case LoseStale(index) => (slots, g.(stale := g.stale[..index] + g.stale[index + 1..]))
    case LoseCurrent => (slots, g.(current := None))
    case Deliver(random) => (slots, Resume(g, g.reply.value, now, random))
    case Abandon => (slots, Fail(g, now))
    case PolicyDone(pause) => (slots, g.(phase := Sleeping(now + pause)))
    case Stop => (slots, Halt(g))
  }

  /** The last provider clone is dropped: the task is aborted where it is suspended. */
  function Halt(g: Gateway): (r: Gateway) {
    var pending := if g.current.Some? then [g.current.value] else [];
    g.(phase := Stopped, stale := g.stale + pending, current := None, reply := None)
  }

  predicate Enabled(s: System, a: Action) {
    match a
    case Tick(to) => s.now <= to
    case SetLimit(_) => true
    case Join(id, config) => id !in s.gateways && config.Validate()
    case On(id, move) => id in s.gateways && CanMove(s.now, s.gateways[id], move)
  }

  function Next(s: System, a: Action): (r: System)
    requires Enabled(s, a)
  {
    match a
    case Tick(to) => s.(now := to)
    case SetLimit(raw) =>
      s.(limit := raw, peak := if raw.Number? && s.peak < raw.n then raw.n else s.peak)
    case Join(id, config) =>
      s.(gateways := s.gateways[id := Gateway(config, None, None, Booting(s.now), [], None, None)])
    case On(id, move) =>
      var (slots, g) := Moved(s.slots, s.limit, s.now, id, s.gateways[id], move);
      s.(slots := slots, gateways := s.gateways[id := g])
  }

  /** A finite run: every state follows from its predecessor by the recorded action. */
  datatype Run = Run(states: seq<System>, actions: seq<Action>)

  ghost predicate StepHolds(run: Run, i: nat) {
    && i < |run.actions| && i + 1 < |run.states|
    && Enabled(run.states[i], run.actions[i]) && run.states[i + 1] == Next(run.states[i], run.actions[i])
  }

  ghost predicate Steps(run: Run) {
    && |run.states| == |run.actions| + 1
    && forall i: nat | i < |run.actions| :: StepHolds(run, i)
  }

  ghost predicate IsRun(run: Run) {
    Steps(run) && Init(run.states[0])
  }

  lemma StepAt(run: Run, i: nat)
    requires Steps(run) && i < |run.actions|
    ensures Enabled(run.states[i], run.actions[i]) && run.states[i + 1] == Next(run.states[i], run.actions[i])
  {
    assert StepHolds(run, i);
  }

  function Eligible(s: System): (r: set<GatewayId>) {
    set id | id in s.gateways && IsValid(s.gateways[id], s.now)
  }
}
