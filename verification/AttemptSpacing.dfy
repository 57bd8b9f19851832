/**
 * The discovery discipline inside admission runs: the provider's guard and cooldown
 * behave as the discovery system does, so the failed and cancelled attempts of one
 * provider are spaced by the retry interval in every run.
 */
module AttemptSpacing {
  import opened Admission
  import Q = QuotaBound
  import D = Discovery

  /** This step ends an attempt of provider `id` whose guard was not marked available. */
  predicate Fails(s: System, a: Action, id: ProviderId) {
    && a.On? && a.id == id && id in s.providers && CanMove(s.providers[id], s.now, a.move)
    && match a.move
       case Cancel(_) => true
       case Deliver(x, participating) =>
         var attempt := s.providers[id].attempts[x];
         var turn := Resume(attempt, attempt.reply.value, s.nextToken, participating);
         turn.Returned? && !Available(turn.outcome)
       case _ => false
  }

  /** The instants at which attempts of `id` failed or were cancelled, up to state `i`. */
  function Failures(run: Run, id: ProviderId, i: nat): (r: seq<int>)
    requires |run.states| == |run.actions| + 1 && i <= |run.actions|
  {
    if i == 0 then []
    else Failures(run, id, i - 1) + FailureAt(run.states[i - 1], run.actions[i - 1], id)
  }

  function FailureAt(s: System, a: Action, id: ProviderId): (r: seq<int>) {
    if Fails(s, a, id) then [s.now] else []
  }

  /** Provider `id` as a discovery system. */
  function View(s: System, id: ProviderId, failures: seq<int>): (d: D.System) {
    if id in s.providers then D.System(s.now, s.providers[id].discovery, |s.providers[id].attempts|, failures)
    else D.System(s.now, D.FRESH, 0, failures)
  }

  ghost predicate Spaced(s: System, id: ProviderId, failures: seq<int>) {
    D.Inv(View(s, id, failures)) && (id !in s.providers ==> failures == [])
  }

  /** The move ends an attempt; `available` tells whether its guard was marked. */
  predicate Ends(p: Provider, s: System, move: Move, available: bool)
    requires CanMove(p, s.now, move)
  {
    match move
    case Cancel(_) => !available
    case Deliver(x, participating) =>
      var turn := Resume(p.attempts[x], p.attempts[x].reply.value, s.nextToken, participating);
      turn.Returned? && available == Available(turn.outcome)
    case _ => false
  }

  lemma StartMove(p: Provider, s: System, move: Move)
    requires Q.ProviderOk(p) && CanMove(p, s.now, move) && move.Start?
    ensures |p.attempts| == 0 && |MovedProvider(p, s, move).attempts| == 1
  {
    assert p.attempts == map[];
    assert MovedProvider(p, s, move).attempts.Keys == {s.nextAttempt};
  }

  lemma EndMove(p: Provider, s: System, move: Move, available: bool)
    requires Q.ProviderOk(p) && CanMove(p, s.now, move) && Ends(p, s, move, available)
    ensures var p' := MovedProvider(p, s, move);
            |p.attempts| == 1 && |p'.attempts| == 0 && p'.discovery == D.Dropped(s.now, available)
  {
    hide Resume, Q.AttemptOk;
    var x := move.attempt;
    assert p.attempts.Keys == {x};
    assert p.attempts - {x} == map[];
  }

  lemma QuietMove(p: Provider, s: System, move: Move)
    requires CanMove(p, s.now, move) && !move.Start? && !Ends(p, s, move, true) && !Ends(p, s, move, false)
    ensures var p' := MovedProvider(p, s, move);
            |p'.attempts| == |p.attempts| && p'.discovery == p.discovery
  {
    hide Resume, Execute;
    assert MovedProvider(p, s, move).attempts.Keys == p.attempts.Keys;
  }

  /** Provider `id` after its own move, as a discovery system. */
  function Moved(s: System, id: ProviderId, move: Move, failures: seq<int>): (d: D.System)
    requires Enabled(s, On(id, move))
  {
    View(Next(s, On(id, move)), id, failures + FailureAt(s, On(id, move), id))
  }

  lemma StartView(s: System, id: ProviderId, move: Move, failures: seq<int>)
    requires Enabled(s, On(id, move)) && Q.ProviderOk(s.providers[id]) && move.Start?
    ensures var v := View(s, id, failures);
            D.Enabled(v, D.Ask(s.now)) && Moved(s, id, move, failures) == D.Next(v, D.Ask(s.now))
  {
    hide Q.ProviderOk, MovedTally, MovedStore;
    StartMove(s.providers[id], s, move);
    assert failures + [] == failures;
  }

  lemma EndView(s: System, id: ProviderId, move: Move, failures: seq<int>, available: bool)
    requires Enabled(s, On(id, move)) && Q.ProviderOk(s.providers[id]) && Ends(s.providers[id], s, move, available)
    ensures var v := View(s, id, failures);
            var finish := D.Finish(s.now, available);
            D.Enabled(v, finish) && Moved(s, id, move, failures) == D.Next(v, finish)
  {
    hide Q.ProviderOk, Resume, Available, MovedProvider, MovedTally, MovedStore;
    EndMove(s.providers[id], s, move, available);
    assert Fails(s, On(id, move), id) == !available;
    assert failures + [] == failures;
  }

  lemma QuietView(s: System, id: ProviderId, move: Move, failures: seq<int>)
    requires Enabled(s, On(id, move)) && !move.Start?
    requires !Ends(s.providers[id], s, move, true) && !Ends(s.providers[id], s, move, false)
    ensures Moved(s, id, move, failures) == View(s, id, failures)
  {
    hide Resume, Available, MovedProvider, MovedTally, MovedStore;
    QuietMove(s.providers[id], s, move);
    assert failures + [] == failures;
  }

  lemma OwnStep(s: System, id: ProviderId, move: Move, failures: seq<int>)
    requires Enabled(s, On(id, move)) && Q.ProviderOk(s.providers[id]) && D.Inv(View(s, id, failures))
    ensures D.Inv(Moved(s, id, move, failures))
  {
    hide Q.ProviderOk, D.Inv, Moved, View, Ends, CanMove, D.Enabled, D.Next;
    var v := View(s, id, failures);
    if move.Start? {
      StartView(s, id, move, failures);
      D.InvStep(v, D.Ask(s.now));
    } else if Ends(s.providers[id], s, move, true) {
      EndView(s, id, move, failures, true);
      D.InvStep(v, D.Finish(s.now, true));
    } else if Ends(s.providers[id], s, move, false) {
      EndView(s, id, move, failures, false);
      D.InvStep(v, D.Finish(s.now, false));
    } else {
      QuietView(s, id, move, failures);
    }
  }

  lemma SpacedStep(s: System, a: Action, id: ProviderId, failures: seq<int>)
    requires Q.Inv(s) && Enabled(s, a) && Spaced(s, id, failures)
    ensures Spaced(Next(s, a), id, failures + FailureAt(s, a, id))
  {
    hide Q.ProviderOk, Q.Bounded, D.Inv, View, FailureAt;
    if a.On? && a.id == id {
      OwnStep(s, id, a.move, failures);
    } else {
      OthersStep(s, a, id, failures);
    }
  }

  lemma OthersStep(s: System, a: Action, id: ProviderId, failures: seq<int>)
    requires Enabled(s, a) && Spaced(s, id, failures) && !(a.On? && a.id == id)
    ensures Spaced(Next(s, a), id, failures + FailureAt(s, a, id))
  {
    hide Resume;
    assert failures + [] == failures;
    var s' := Next(s, a);
    if a.Join? && a.id == id {
      assert View(s', id, failures) == View(s, id, failures);
    } else {
      D.InvLater(View(s, id, failures), s'.now);
    }
  }

  lemma SpacedStart(s: System, id: ProviderId)
    requires Init(s)
    ensures Spaced(s, id, [])
  {
  }

  lemma {:induction false} SpacedAlways(run: Run, id: ProviderId, i: nat)
    requires IsRun(run) && i < |run.states|
    ensures Spaced(run.states[i], id, Failures(run, id, i))
    decreases i
  {
    hide Spaced, Q.Inv, Enabled, Next, FailureAt;
    if i == 0 {
      SpacedStart(run.states[0], id);
    } else {
      SpacedAlways(run, id, i - 1);
      Q.InvAlways(run, i - 1);
      StepAt(run, i - 1);
      SpacedStep(run.states[i - 1], run.actions[i - 1], id, Failures(run, id, i - 1));
    }
  }

  /**
   * In every run, however attempts fail, lose replies or are cancelled, any window of
   * length W holds at most W / 10 s + 1 failed or cancelled attempts of one provider.
   */
  lemma AttemptFailuresAreSpaced(run: Run, id: ProviderId, i: nat, from: int, length: nat)
    requires IsRun(run) && i < |run.states|
    ensures |D.FailuresWithin(Failures(run, id, i), from, length)| <= length / D.RETRY_INTERVAL + 1
  {
    SpacedAlways(run, id, i);
    D.SpacedFailures(Failures(run, id, i), from, length);
  }
}
