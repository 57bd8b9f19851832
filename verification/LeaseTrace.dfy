/**
 * Every refresh cycle of every run of the transition system is the background
 * task's: the replies and failures it met in the run, in order, form a script, and
 * driving the task with that very script sends the same commands and ends in the
 * same slot, deadline and phase.
 */
module LeaseTrace {
  import opened Common
  import opened GatewayLease
  import opened LeaseDrive

  /** Equal up to what is on the wire. */
  predicate SameCore(g: Gateway, h: Gateway) {
    g.config == h.config && g.owned == h.owned && g.validUntil == h.validUntil && g.phase == h.phase
  }

  /** The awaited command, if it has not reached Redis yet. */
  function Wire(g: Gateway): (r: seq<Command>) {
    if g.phase.InCycle() && g.current.Some? then [g.current.value] else []
  }

  // ---------------------------------------------------------------------------
  // Driving does not depend on the wire
  // ---------------------------------------------------------------------------

  /** Equal, wire included, for what is compared next. */
  predicate SameAwait(g: Gateway, h: Gateway) { SameCore(g, h) && Wire(g) == Wire(h) }

  lemma WithinLimitCore(g: Gateway, h: Gateway, begun: int, limit: nat, now: int, random: nat)
    requires SameCore(g, h)
    ensures SameAwait(WithinLimit(g, begun, limit, now, random), WithinLimit(h, begun, limit, now, random))
  {
    hide ScanSlot;
  }

  lemma TrySlotCore(g: Gateway, h: Gateway, begun: int, limit: nat, first: nat, step: nat, now: int)
    requires SameCore(g, h) && first < limit && step < limit
    ensures SameAwait(TrySlot(g, begun, limit, first, step, now), TrySlot(h, begun, limit, first, step, now))
  {
    hide ScanSlot;
  }

  lemma ResumeCore(g: Gateway, h: Gateway, reply: Reply, now: int, random: nat)
    requires SameCore(g, h)
    ensures SameAwait(Resume(g, reply, now, random), Resume(h, reply, now, random))
  {
    hide WithinLimit, TrySlot;
    match (g.phase, reply)
    case (Reading(begun), LimitIs(Missing)) => WithinLimitCore(g, h, begun, 0, now, random);
    case (Reading(begun), LimitIs(Number(n))) => WithinLimitCore(g, h, begun, n, now, random);
    case (Releasing(begun, limit), Done(_)) =>
      WithinLimitCore(g.(owned := None), h.(owned := None), begun, limit, now, random);
    case (Scanning(begun, limit, first, step, _), Done(accepted)) =>
      if !accepted && first < limit && step + 1 < limit {
        TrySlotCore(g.(owned := None), h.(owned := None), begun, limit, first, step + 1, now);
      }
    case _ =>
  }

  /** The commands a driven cycle sends after the one it awaits. */
  function After(g: Gateway, script: seq<Await>, cut: int, random: nat): (r: seq<Command>) {
    if !g.phase.InCycle() || script == [] || script[0].Failed? then []
    else Drive(Resume(g, script[0].reply, script[0].at, random), script[1..], cut, random).1
  }

  lemma DriveWire(g: Gateway, script: seq<Await>, cut: int, random: nat)
    ensures Drive(g, script, cut, random).1 == Wire(g) + After(g, script, cut, random)
  {
  }

  lemma {:induction false} DriveCore(g: Gateway, h: Gateway, script: seq<Await>, cut: int, random: nat)
    requires SameCore(g, h)
    ensures SameCore(Drive(g, script, cut, random).0, Drive(h, script, cut, random).0)
    ensures After(g, script, cut, random) == After(h, script, cut, random)
    decreases |script|
  {
    if g.phase.InCycle() && script != [] && script[0].Replied? {
      hide Resume;
      var reply, at, rest := script[0].reply, script[0].at, script[1..];
      var g', h' := Resume(g, reply, at, random), Resume(h, reply, at, random);
      ResumeCore(g, h, reply, at, random);
      DriveCore(g', h', rest, cut, random);
      DriveWire(g', rest, cut, random);
      DriveWire(h', rest, cut, random);
    }
  }

  // ---------------------------------------------------------------------------
  // The script of a cycle in a run
  // ---------------------------------------------------------------------------

  /** `id` is inside one cycle from position `i` to its end at `j`, and its task is not stopped. */
  ghost predicate OneCycle(run: Run, i: nat, j: nat, id: GatewayId) {
    && Steps(run) && i <= j < |run.states|
    && (forall k | i <= k <= j :: id in run.states[k].gateways)
    && (forall k | i <= k < j :: run.states[k].gateways[id].phase.InCycle() && run.actions[k] != On(id, Stop))
    && !run.states[j].gateways[id].phase.InCycle()
  }

  predicate Resumes(a: Action, id: GatewayId) { a.On? && a.id == id && a.move.Deliver? }

  predicate Abandons(a: Action, id: GatewayId) { a.On? && a.id == id && a.move.Abandon? }

  /** What the step `a` yields to the await of gateway `id`. */
  function Met(s: System, a: Action, id: GatewayId): (r: seq<Await>) {
    if id !in s.gateways then []
    else if Resumes(a, id) && s.gateways[id].reply.Some? then [Replied(s.gateways[id].reply.value, s.now)]
    else if Abandons(a, id) then [Failed(s.now)]
    else []
  }

  /** The replies and failures that gateway `id` met between positions `i` and `j`. */
  function Delivered(run: Run, i: nat, j: nat, id: GatewayId): (script: seq<Await>)
    requires |run.states| == |run.actions| + 1 && j < |run.states|
    decreases j - i
  {
    if i >= j then [] else Met(run.states[i], run.actions[i], id) + Delivered(run, i + 1, j, id)
  }

  /** The commands it sent in between, each on the delivery of a reply. */
  function Sent(run: Run, i: nat, j: nat, id: GatewayId): (commands: seq<Command>)
    requires |run.states| == |run.actions| + 1 && j < |run.states|
    decreases j - i
  {
    if i >= j then []
    else
      var sent := if Resumes(run.actions[i], id) && id in run.states[i + 1].gateways
                  then Wire(run.states[i + 1].gateways[id]) else [];
      sent + Sent(run, i + 1, j, id)
  }

  /** The delivery at `k`, if it is one, went as the draw `random` makes it go. */
  ghost predicate AgreesAt(run: Run, k: nat, id: GatewayId, random: nat) {
    && k < |run.actions| && k + 1 < |run.states|
    && id in run.states[k].gateways && id in run.states[k + 1].gateways
    && var g := run.states[k].gateways[id];
       Resumes(run.actions[k], id) ==>
         g.reply.Some? && run.states[k + 1].gateways[id] == Resume(g, g.reply.value, run.states[k].now, random)
  }

  /** `random` is the draw of this cycle. */
  ghost predicate Agrees(run: Run, i: nat, j: nat, id: GatewayId, random: nat) {
    forall k: nat | i <= k < j :: AgreesAt(run, k, id, random)
  }

  /** What one step means for a gateway inside its cycle. */
  lemma StepInCycle(s: System, a: Action, id: GatewayId)
    requires Enabled(s, a) && id in s.gateways && s.gateways[id].phase.InCycle() && a != On(id, Stop)
    ensures var g, g' := s.gateways[id], Next(s, a).gateways[id];
            if Resumes(a, id) then g.reply.Some? && g' == Resume(g, g.reply.value, s.now, a.move.random)
            else if Abandons(a, id) then g' == Fail(g, s.now)
            else SameCore(g, g')
  {
  }

  // ---------------------------------------------------------------------------
  // The random start is drawn once
  // ---------------------------------------------------------------------------

  lemma DrawsOnce(g: Gateway, reply: Reply, now: int, random: nat, random': nat)
    ensures var next := Resume(g, reply, now, random);
            next == Resume(g, reply, now, random') || (!g.phase.Scanning? && next.phase.Scanning?)
    ensures var next := Resume(g, reply, now, random);
            g.phase.Scanning? ==> next.phase.Scanning? || !next.phase.InCycle()
  {
  }

  /** A scan under way goes on whatever is drawn later. */
  lemma {:induction false} ScanAgrees(run: Run, i: nat, j: nat, id: GatewayId, random: nat)
    requires OneCycle(run, i, j, id) && (i < j ==> run.states[i].gateways[id].phase.Scanning?)
    ensures Agrees(run, i, j, id, random)
    decreases j - i
  {
    if i < j {
      hide Resume, Next, Enabled;
      var s, a := run.states[i], run.actions[i];
      var g := s.gateways[id];
      StepAt(run, i);
      StepInCycle(s, a, id);
      if Resumes(a, id) {
        DrawsOnce(g, g.reply.value, s.now, a.move.random, random);
      }
      assert AgreesAt(run, i, id, random);
      if i + 1 < j {
        assert run.states[i + 1].gateways[id].phase.InCycle();
        ScanAgrees(run, i + 1, j, id, random);
      }
    }
  }

  lemma {:induction false} DrawOf(run: Run, i: nat, j: nat, id: GatewayId) returns (random: nat)
    requires OneCycle(run, i, j, id)
    ensures Agrees(run, i, j, id, random)
    decreases j - i
  {
    random := 0;
    if i < j {
      hide Resume, Next, Enabled;
      var s, a := run.states[i], run.actions[i];
      var g := s.gateways[id];
      StepAt(run, i);
      StepInCycle(s, a, id);
      random := DrawOf(run, i + 1, j, id);
      if Resumes(a, id) {
        DrawsOnce(g, g.reply.value, s.now, a.move.random, random);
        if run.states[i + 1].gateways[id] != Resume(g, g.reply.value, s.now, random) {
          random := a.move.random;
          ScanAgrees(run, i + 1, j, id, random);
        }
      }
      assert AgreesAt(run, i, id, random);
    }
  }

  // ---------------------------------------------------------------------------
  // Runs are driven by what they met
  // ---------------------------------------------------------------------------

  /** Driving from position `i` on with what the run met ends as the run does. */
  ghost predicate Driven(run: Run, i: nat, j: nat, id: GatewayId, cut: int, random: nat)
    requires OneCycle(run, i, j, id)
  {
    var g := run.states[i].gateways[id];
    var drive := Drive(g, Delivered(run, i, j, id), cut, random);
    SameCore(drive.0, run.states[j].gateways[id]) && drive.1 == Wire(g) + Sent(run, i, j, id)
  }

  lemma DriveOne(g: Gateway, reply: Reply, at: int, rest: seq<Await>, cut: int, random: nat)
    requires g.phase.InCycle()
    ensures var (end, sent) := Drive(Resume(g, reply, at, random), rest, cut, random);
            Drive(g, [Replied(reply, at)] + rest, cut, random) == (end, Wire(g) + sent)
  {
    assert ([Replied(reply, at)] + rest)[1..] == rest;
  }

  /** Two gateways that differ on the wire only are driven alike. */
  lemma DriveAlike(g: Gateway, h: Gateway, script: seq<Await>, cut: int, random: nat, rest: seq<Command>)
    requires SameCore(g, h) && Drive(h, script, cut, random).1 == Wire(h) + rest
    ensures Drive(g, script, cut, random).1 == Wire(g) + rest
    ensures SameCore(Drive(g, script, cut, random).0, Drive(h, script, cut, random).0)
  {
    hide Drive, After;
    DriveCore(g, h, script, cut, random);
    DriveWire(g, script, cut, random);
    DriveWire(h, script, cut, random);
    assert rest == (Wire(h) + rest)[|Wire(h)|..] == After(h, script, cut, random);
  }

  /** A step that changes only the wire. */
  lemma QuietStep(run: Run, i: nat, j: nat, id: GatewayId, cut: int, random: nat)
    requires OneCycle(run, i, j, id) && i < j && !Resumes(run.actions[i], id) && !Abandons(run.actions[i], id)
    requires SameCore(run.states[i].gateways[id], run.states[i + 1].gateways[id])
    requires Driven(run, i + 1, j, id, cut, random)
    ensures Driven(run, i, j, id, cut, random)
  {
    hide StepHolds, Drive, Wire;
    var g, g' := run.states[i].gateways[id], run.states[i + 1].gateways[id];
    DriveAlike(g, g', Delivered(run, i + 1, j, id), cut, random, Sent(run, i + 1, j, id));
    assert Delivered(run, i, j, id) == Delivered(run, i + 1, j, id);
    assert Sent(run, i, j, id) == Sent(run, i + 1, j, id);
  }

  /** The failure that ends the cycle. */
  lemma LastStep(run: Run, i: nat, id: GatewayId, cut: int, random: nat)
    requires OneCycle(run, i, i + 1, id) && Abandons(run.actions[i], id)
    requires run.states[i + 1].gateways[id] == Fail(run.states[i].gateways[id], run.states[i].now)
    ensures Driven(run, i, i + 1, id, cut, random)
  {
    hide StepHolds;
    assert Delivered(run, i, i + 1, id) == [Failed(run.states[i].now)];
    assert Sent(run, i, i + 1, id) == [];
  }

  /** A reply is delivered and the cycle goes on. */
  lemma DeliveredStep(run: Run, i: nat, j: nat, id: GatewayId, cut: int, random: nat)
    requires OneCycle(run, i, j, id) && i < j && Resumes(run.actions[i], id) && AgreesAt(run, i, id, random)
    requires Driven(run, i + 1, j, id, cut, random)
    ensures Driven(run, i, j, id, cut, random)
  {
    hide StepHolds, Drive, Wire, Resume;
    var s := run.states[i];
    var g := s.gateways[id];
    var next := run.states[i + 1].gateways[id];
    var rest := Delivered(run, i + 1, j, id);
    DriveOne(g, g.reply.value, s.now, rest, cut, random);
    assert Delivered(run, i, j, id) == [Replied(g.reply.value, s.now)] + rest;
    assert Sent(run, i, j, id) == Wire(next) + Sent(run, i + 1, j, id);
  }

  lemma {:induction false} TailIsDriven(run: Run, i: nat, j: nat, id: GatewayId, cut: int, random: nat)
    requires OneCycle(run, i, j, id) && Agrees(run, i, j, id, random)
    ensures Driven(run, i, j, id, cut, random)
    decreases j - i
  {
    if i < j {
      hide Next, Enabled, Driven, Resume, AgreesAt;
      var s, a := run.states[i], run.actions[i];
      StepAt(run, i);
      StepInCycle(s, a, id);
      if Abandons(a, id) {
        assert i + 1 == j;
        LastStep(run, i, id, cut, random);
      } else {
        TailIsDriven(run, i + 1, j, id, cut, random);
        if Resumes(a, id) {
          assert AgreesAt(run, i, id, random);
          DeliveredStep(run, i, j, id, cut, random);
        } else {
          QuietStep(run, i, j, id, cut, random);
        }
      }
    }
  }

  /**
   * From the wake-up that begins it to its end, a cycle of any run is the imperative
   * task's cycle, for the replies and failures that run delivered and the random start
   * it drew: same commands, and the same slot, deadline and phase.
   */
  lemma {:induction false} EveryCycleIsDriven(run: Run, i: nat, j: nat, id: GatewayId, cut: int) returns (random: nat)
    requires i < j && OneCycle(run, i + 1, j, id) && run.actions[i] == On(id, Wake)
    ensures id in run.states[i].gateways && Agrees(run, i + 1, j, id, random)
    ensures var begun := Begin(run.states[i].gateways[id], run.states[i].now);
            var (end, sent) := Drive(begun, Delivered(run, i + 1, j, id), cut, random);
            && SameCore(end, run.states[j].gateways[id])
            && sent == [GetLimit] + Sent(run, i + 1, j, id)
  {
    StepAt(run, i);
    random := DrawOf(run, i + 1, j, id);
    TailIsDriven(run, i + 1, j, id, cut, random);
  }
}
