/**
 * One refresh cycle of the transition system, driven by a script: the outcome of each
 * of its awaits in turn. Every behaviour of Redis and of the timeout is some script.
 */
module LeaseDrive {
  import opened Common
  import opened GatewayLease

  /** What one await yields: a reply, or an error or timeout that ends the cycle. */
  datatype Await = Replied(reply: Reply, at: int) | Failed(at: int)

  /**
   * The transition system driven by the same script: the gateway it ends in and the
   * commands it sent. A script that ends early is the timeout, at `cut`.
   */
  function Drive(g: Gateway, script: seq<Await>, cut: int, random: nat): (r: (Gateway, seq<Command>))
    decreases |script|
  {
    if !g.phase.InCycle() then (g, [])
    else
      var sent := if g.current.Some? then [g.current.value] else [];
      if script == [] then (Fail(g, cut), sent)
      else match script[0]
           case Failed(at) => (Fail(g, at), sent)
           case Replied(reply, at) =>
             var (end, rest) := Drive(Resume(g, reply, at, random), script[1..], cut, random);
             (end, sent + rest)
  }

  /** Errors, timeouts and replies of the wrong kind end the cycle and keep the slot. */
  predicate Ends(g: Gateway, script: seq<Await>, i: nat)
    requires i <= |script|
  {
    || i == |script|
    || script[i].Failed?
    || script[i].reply.Done? == g.phase.Reading?
    || script[i].reply == LimitIs(Malformed)
  }

  /** One await of the driven system. */
  lemma OneAwait(g: Gateway, script: seq<Await>, i: nat, cut: int, random: nat)
    requires g.phase.InCycle() && g.current.Some? && i <= |script|
    ensures var drive := Drive(g, script[i..], cut, random);
            if Ends(g, script, i) then
              drive.0.owned == g.owned && drive.0.validUntil == None && drive.1 == [g.current.value]
            else
              var next := Drive(Resume(g, script[i].reply, script[i].at, random), script[i + 1..], cut, random);
              drive == (next.0, [g.current.value] + next.1)
  {
    if i < |script| {
      assert script[i..][1..] == script[i + 1..];
    }
  }

  /** Commands left over from abandoned cycles ride along and influence nothing the task does. */
  lemma {:induction false} StaleRidesAlong(g: Gateway, stale: seq<Command>, script: seq<Await>, cut: int, random: nat)
    ensures var plain := Drive(g, script, cut, random);
            var laden := Drive(g.(stale := stale), script, cut, random);
            laden.0 == plain.0.(stale := laden.0.stale) && laden.1 == plain.1
    decreases |script|
  {
    if g.phase.InCycle() && script != [] && script[0].Replied? {
      var next := Resume(g, script[0].reply, script[0].at, random);
      var next' := Resume(g.(stale := stale), script[0].reply, script[0].at, random);
      assert next' == next.(stale := next'.stale);
      StaleRidesAlong(next, next'.stale, script[1..], cut, random);
    }
  }

  /** A cycle leaves the configuration alone and publishes no deadline without a slot. */
  lemma {:induction false} DriveKeeps(g: Gateway, script: seq<Await>, cut: int, random: nat)
    requires g.validUntil.Some? || g.phase.Renewing? || g.phase.Scanning? ==> g.owned.Some?
    requires g.phase.Releasing? || g.phase.Scanning? ==> g.validUntil == None
    ensures var end := Drive(g, script, cut, random).0;
            end.config == g.config && !end.phase.InCycle() && (end.validUntil.Some? ==> end.owned.Some?)
    decreases |script|
  {
    if g.phase.InCycle() && script != [] && script[0].Replied? {
      DriveKeeps(Resume(g, script[0].reply, script[0].at, random), script[1..], cut, random);
    }
  }

  // ---------------------------------------------------------------------------
  // The order of the election scan
  // ---------------------------------------------------------------------------

  function Range(lo: nat, hi: nat): (r: seq<nat>)
    requires lo <= hi
    ensures |r| == hi - lo && forall i | 0 <= i < |r| :: r[i] == lo + i
  {
    seq(hi - lo, i requires 0 <= i => lo + i)
  }

  /** `(first..limit).chain(0..first)` */
  function ScanOrder(first: nat, limit: nat): (order: seq<nat>)
    requires first < limit
    ensures |order| == limit && forall i | 0 <= i < limit :: order[i] == ScanSlot(first, limit, i)
  {
    Range(first, limit) + Range(0, first)
  }

  /** The circular scan visits every slot of `0..limit` exactly once. */
  lemma ScanIsPermutation(first: nat, limit: nat)
    requires first < limit
    ensures forall i, j | 0 <= i < j < limit :: ScanOrder(first, limit)[i] != ScanOrder(first, limit)[j]
    ensures forall slot | 0 <= slot < limit :: slot in ScanOrder(first, limit)
  {
    var order := ScanOrder(first, limit);
    forall slot | 0 <= slot < limit ensures slot in order {
      var step := if first <= slot then slot - first else slot + limit - first;
      assert order[step] == slot;
    }
  }

  // ---------------------------------------------------------------------------
  // One turn of the scan
  // ---------------------------------------------------------------------------

  /** The `n` awaits from position `start` on were all answered by an NX refusal. */
  ghost predicate Refusals(script: seq<Await>, start: nat, n: nat) {
    && start + n <= |script|
    && forall k | start <= k < start + n :: script[k].Replied? && script[k].reply == Done(false)
  }

  /** A gateway between cycles with nothing on the wire. */
  function Rested(config: Config, owned: Option<nat>, validUntil: Option<int>, wake: int): (g: Gateway) {
    Gateway(config, owned, validUntil, Sleeping(wake), [], None, None)
  }

  /** The gateway while it awaits `Reserve` at the given step of the scan. */
  function Contender(config: Config, begun: int, limit: nat, first: nat, step: nat, now: int): (g: Gateway)
    requires first < limit && step < limit
  {
    TrySlot(Rested(config, None, None, begun), begun, limit, first, step, now)
  }

  /** One await of the scan: win, unknown, refused with slots left, or refused by the last. */
  lemma ScanAwait(config: Config, begun: int, limit: nat, first: nat, step: nat, now: int,
                  script: seq<Await>, i: nat, cut: int, random: nat)
    requires first < limit && step < limit && i <= |script|
    ensures var g := Contender(config, begun, limit, first, step, now);
            var slot := ScanSlot(first, limit, step);
            var drive := Drive(g, script[i..], cut, random);
            if Ends(g, script, i) then
              drive.0.owned == Some(slot) && drive.0.validUntil == None && drive.1 == [Reserve(slot)]
            else if script[i].reply.accepted then
              drive.0.owned == Some(slot) && drive.0.validUntil == Some(now + config.ttl) && drive.1 == [Reserve(slot)]
            else if step + 1 < limit then
              var contender := Contender(config, begun, limit, first, step + 1, script[i].at);
              var next := Drive(contender, script[i + 1..], cut, random);
              drive.0 == next.0 && drive.1 == [Reserve(slot)] + next.1
            else
              drive.0.owned == None && drive.0.validUntil == None && drive.1 == [Reserve(slot)]
  {
    var g := Contender(config, begun, limit, first, step, now);
    OneAwait(g, script, i, cut, random);
    if !Ends(g, script, i) && !script[i].reply.accepted && step + 1 < limit {
      assert Resume(g, script[i].reply, script[i].at, random)
          == Contender(config, begun, limit, first, step + 1, script[i].at);
    }
  }
}
