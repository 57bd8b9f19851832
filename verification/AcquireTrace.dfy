/**
 * Every admission attempt of every run of the transition system is `acquire`'s: the
 * replies and the cancellation it met in the run, in order, form a script, and
 * driving `acquire` with that very script sends the same commands, has the same
 * outcome, and leaves the shared discovery state that its guard decides.
 */
module AcquireTrace {
  import opened Common
  import opened Admission
  import opened AcquireTask
  import Q = QuotaBound
  import D = Discovery

  /** Equal up to what is on the wire. */
  predicate SameCore(a: Attempt, b: Attempt) {
    a.scope == b.scope && a.quota == b.quota && a.usable == b.usable && a.phase == b.phase
  }

  // ---------------------------------------------------------------------------
  // Driving does not depend on the wire
  // ---------------------------------------------------------------------------

  ghost predicate SameTurn(t: Turn, u: Turn) {
    match (t, u)
    case (Awaiting(a), Awaiting(b)) => SameCore(a, b) && a.current == b.current
    case _ => t == u
  }

  lemma ResumeCore(a: Attempt, b: Attempt, reply: Reply, token: Token, participating: bool)
    requires SameCore(a, b)
    ensures SameTurn(Resume(a, reply, token, participating), Resume(b, reply, token, participating))
  {
    assert b == a.(current := b.current, reply := b.reply);
  }

  /** The commands a driven attempt sends after the one it awaits. */
  function After(a: Attempt, script: seq<Await>, cut: int, token: Token, participating: bool): (r: seq<Command>) {
    if script == [] || script[0].Interrupted? then []
    else match Resume(a, script[0].reply, token, participating)
         case Returned(_) => []
         case Awaiting(next) => Drive(next, script[1..], cut, token, participating).sent
  }

  lemma DriveWire(a: Attempt, script: seq<Await>, cut: int, token: Token, participating: bool)
    ensures Drive(a, script, cut, token, participating).sent
         == Pending(a) + After(a, script, cut, token, participating)
  {
  }

  lemma {:induction false} DriveCore(a: Attempt, b: Attempt, script: seq<Await>, cut: int, token: Token,
                                     participating: bool)
    requires SameCore(a, b)
    ensures var t, u := Drive(a, script, cut, token, participating), Drive(b, script, cut, token, participating);
            t.outcome == u.outcome && t.at == u.at
    ensures After(a, script, cut, token, participating) == After(b, script, cut, token, participating)
    decreases |script|
  {
    if script != [] && script[0].Replied? {
      hide Resume;
      ResumeCore(a, b, script[0].reply, token, participating);
      var t := Resume(a, script[0].reply, token, participating);
      var u := Resume(b, script[0].reply, token, participating);
      if t.Awaiting? && u.Awaiting? {
        DriveCore(t.attempt, u.attempt, script[1..], cut, token, participating);
        DriveWire(t.attempt, script[1..], cut, token, participating);
        DriveWire(u.attempt, script[1..], cut, token, participating);
      }
    }
  }

  /** Two attempts that differ on the wire only are driven alike. */
  lemma DriveAlike(a: Attempt, b: Attempt, script: seq<Await>, cut: int, token: Token, participating: bool,
                   rest: seq<Command>)
    requires SameCore(a, b) && Drive(b, script, cut, token, participating).sent == Pending(b) + rest
    ensures var t, u := Drive(a, script, cut, token, participating), Drive(b, script, cut, token, participating);
            t.outcome == u.outcome && t.at == u.at && t.sent == Pending(a) + rest
  {
    hide Drive, After;
    DriveCore(a, b, script, cut, token, participating);
    DriveWire(a, script, cut, token, participating);
    DriveWire(b, script, cut, token, participating);
    assert rest == (Pending(b) + rest)[|Pending(b)|..] == After(b, script, cut, token, participating);
  }

  // ---------------------------------------------------------------------------
  // Attempts in runs
  // ---------------------------------------------------------------------------

  predicate Alive(s: System, id: ProviderId, x: AttemptId) {
    id in s.providers && x in s.providers[id].attempts
  }

  predicate Resumes(a: Action, id: ProviderId, x: AttemptId) {
    a.On? && a.id == id && a.move.Deliver? && a.move.attempt == x
  }

  predicate Cancels(a: Action, id: ProviderId, x: AttemptId) { a == On(id, Cancel(x)) }

  /** What the code makes of the reply that step `a` delivers to attempt `x`. */
  function TurnAt(s: System, a: Action, id: ProviderId, x: AttemptId): (t: Turn)
    requires Alive(s, id, x)
  {
    var attempt := s.providers[id].attempts[x];
    if Resumes(a, id, x) && attempt.reply.Some? then
      Resume(attempt, attempt.reply.value, s.nextToken, a.move.participating)
    else Returned(Failed)
  }

  /** The outcome with which the step `a` ends attempt `x`. */
  function Ending(s: System, a: Action, id: ProviderId, x: AttemptId): (outcome: Outcome)
    requires Alive(s, id, x)
  {
    var turn := TurnAt(s, a, id, x);
    if turn.Returned? then turn.outcome else Failed
  }

  /** What one step means for a living attempt: it ends, it is resumed, or only the wire changes. */
  lemma StepOfAttempt(s: System, a: Action, id: ProviderId, x: AttemptId)
    requires Enabled(s, a) && Alive(s, id, x) && Q.ProviderOk(s.providers[id])
    ensures var s' := Next(s, a);
            var attempt := s.providers[id].attempts[x];
            && id in s'.providers
            && if Cancels(a, id, x) then
                 !Alive(s', id, x) && s'.providers[id].discovery == D.Dropped(s.now, false)
               else if Resumes(a, id, x) then
                 && attempt.reply.Some?
                 && var turn := TurnAt(s, a, id, x);
                    if turn.Awaiting? then Alive(s', id, x) && s'.providers[id].attempts[x] == turn.attempt
                    else
                      && !Alive(s', id, x)
                      && s'.providers[id].discovery == D.Dropped(s.now, Available(turn.outcome))
               else Alive(s', id, x) && SameCore(attempt, s'.providers[id].attempts[x])
  {
    hide Resume, Execute, Q.AttemptOk;
    if a.On? && a.id == id {
      assert s.providers[id].discovery.checking;
      assert !a.move.Start?;
    }
  }

  /** Attempt `x` lives from position `i` on and is ended by the step at `j`. */
  ghost predicate OneAttempt(run: Run, i: nat, j: nat, id: ProviderId, x: AttemptId) {
    && IsRun(run) && i <= j < |run.actions|
    && (forall k | i <= k <= j :: Alive(run.states[k], id, x))
    && !Alive(run.states[j + 1], id, x)
  }

  /** The step at one position of a living attempt. */
  lemma AttemptStepAt(run: Run, i: nat, j: nat, id: ProviderId, x: AttemptId)
    requires OneAttempt(run, i, j, id, x)
    ensures |run.states| == |run.actions| + 1
    ensures var s, a, s' := run.states[i], run.actions[i], run.states[i + 1];
            var attempt := s.providers[id].attempts[x];
            && id in s'.providers
            && if Cancels(a, id, x) then
                 i == j && s'.providers[id].discovery == D.Dropped(s.now, false)
               else if Resumes(a, id, x) then
                 && attempt.reply.Some?
                 && var turn := TurnAt(s, a, id, x);
                    if turn.Awaiting? then i < j && s'.providers[id].attempts[x] == turn.attempt
                    else i == j && s'.providers[id].discovery == D.Dropped(s.now, Available(turn.outcome))
               else i < j && SameCore(attempt, s'.providers[id].attempts[x])
  {
    hide Next, Enabled, Resume, TurnAt, SameCore, Q.Bounded, Q.ProviderOk;
    Q.InvAlways(run, i);
    StepAt(run, i);
    StepOfAttempt(run.states[i], run.actions[i], id, x);
  }

  // ---------------------------------------------------------------------------
  // The script of an attempt in a run
  // ---------------------------------------------------------------------------

  /** What the step `a` yields to the await of attempt `x`. */
  function Met(s: System, a: Action, id: ProviderId, x: AttemptId): (r: seq<Await>) {
    if !Alive(s, id, x) then []
    else
      var attempt := s.providers[id].attempts[x];
      if Resumes(a, id, x) && attempt.reply.Some? then [Replied(attempt.reply.value, s.now)]
      else if Cancels(a, id, x) then [Interrupted(s.now)]
      else []
  }

  /** What attempt `x` met in the steps from `i` to `j`. */
  function Delivered(run: Run, i: nat, j: nat, id: ProviderId, x: AttemptId): (script: seq<Await>)
    requires |run.states| == |run.actions| + 1 && j < |run.actions|
    decreases j + 1 - i
  {
    if i > j then [] else Met(run.states[i], run.actions[i], id, x) + Delivered(run, i + 1, j, id, x)
  }

  /** The commands it sent in these steps, each on the delivery of a reply. */
  function Sent(run: Run, i: nat, j: nat, id: ProviderId, x: AttemptId): (commands: seq<Command>)
    requires |run.states| == |run.actions| + 1 && j < |run.actions|
    decreases j + 1 - i
  {
    if i > j then []
    else
      var sent := if Resumes(run.actions[i], id, x) && Alive(run.states[i + 1], id, x)
                  then Pending(run.states[i + 1].providers[id].attempts[x]) else [];
      sent + Sent(run, i + 1, j, id, x)
  }

  /** The delivery at `k`, if it is one, went as this token and this final eligibility make it go. */
  ghost predicate AgreesAt(run: Run, k: nat, id: ProviderId, x: AttemptId, token: Token, participating: bool) {
    && k < |run.actions| && k < |run.states| && Alive(run.states[k], id, x)
    && var attempt := run.states[k].providers[id].attempts[x];
       Resumes(run.actions[k], id, x) ==>
         && attempt.reply.Some?
         && TurnAt(run.states[k], run.actions[k], id, x)
            == Resume(attempt, attempt.reply.value, token, participating)
  }

  /** `token` is the one this attempt drew, and `participating` what its last check found. */
  ghost predicate Agrees(run: Run, i: nat, j: nat, id: ProviderId, x: AttemptId, token: Token, participating: bool) {
    forall k: nat | i <= k <= j :: AgreesAt(run, k, id, x, token, participating)
  }

  // ---------------------------------------------------------------------------
  // The token is drawn once, the eligibility consulted last
  // ---------------------------------------------------------------------------

  predicate PastOffer(a: Attempt) { a.phase.Reserving? || a.phase.Counting? }

  lemma TurnDraws(a: Attempt, reply: Reply, token: Token, token': Token, participating: bool, participating': bool)
    ensures var t := Resume(a, reply, token, participating);
            && (PastOffer(a) ==> t == Resume(a, reply, token', participating))
            && (PastOffer(a) && t.Awaiting? ==> PastOffer(t.attempt))
            && (t.Awaiting? ==>
                  && t == Resume(a, reply, token, participating')
                  && (t == Resume(a, reply, token', participating') || PastOffer(t.attempt)))
  {
  }

  /** An attempt that offered its token does not look at later ones. */
  lemma {:induction false} PastAgrees(run: Run, i: nat, j: nat, id: ProviderId, x: AttemptId,
                                      token: Token, token': Token, participating: bool)
    requires OneAttempt(run, i, j, id, x) && Agrees(run, i, j, id, x, token, participating)
    requires PastOffer(run.states[i].providers[id].attempts[x])
    ensures Agrees(run, i, j, id, x, token', participating)
    decreases j - i
  {
    hide Resume, IsRun;
    var s, a := run.states[i], run.actions[i];
    var attempt := s.providers[id].attempts[x];
    AttemptStepAt(run, i, j, id, x);
    assert AgreesAt(run, i, id, x, token, participating);
    if Resumes(a, id, x) {
      TurnDraws(attempt, attempt.reply.value, token, token', participating, participating);
    }
    assert AgreesAt(run, i, id, x, token', participating);
    if i < j {
      PastAgrees(run, i + 1, j, id, x, token, token', participating);
    }
  }

  lemma {:induction false} DrawOf(run: Run, i: nat, j: nat, id: ProviderId, x: AttemptId)
    returns (token: Token, participating: bool)
    requires OneAttempt(run, i, j, id, x)
    ensures Agrees(run, i, j, id, x, token, participating)
    decreases j - i
  {
    hide Resume, IsRun;
    AttemptStepAt(run, i, j, id, x);
    var s, a := run.states[i], run.actions[i];
    var attempt := s.providers[id].attempts[x];
    token, participating := s.nextToken, Resumes(a, id, x) && a.move.participating;
    if i < j {
      token, participating := DrawOf(run, i + 1, j, id, x);
      if Resumes(a, id, x) {
        var reply := attempt.reply.value;
        TurnDraws(attempt, reply, s.nextToken, token, a.move.participating, participating);
        if TurnAt(s, a, id, x) != Resume(attempt, reply, token, participating) {
          PastAgrees(run, i + 1, j, id, x, token, s.nextToken, participating);
          token := s.nextToken;
        }
      }
    }
    assert AgreesAt(run, i, id, x, token, participating);
  }

  // ---------------------------------------------------------------------------
  // Runs are driven by what they met
  // ---------------------------------------------------------------------------

  /** Driving from position `i` on with what the run met ends as the run does. */
  ghost predicate Driven(run: Run, i: nat, j: nat, id: ProviderId, x: AttemptId, cut: int, token: Token,
                         participating: bool)
    requires |run.states| == |run.actions| + 1 && i <= j < |run.actions|
    requires Alive(run.states[i], id, x) && Alive(run.states[j], id, x)
  {
    var attempt := run.states[i].providers[id].attempts[x];
    var t := Drive(attempt, Delivered(run, i, j, id, x), cut, token, participating);
    && t.outcome == Ending(run.states[j], run.actions[j], id, x) && t.at == run.states[j].now
    && t.sent == Pending(attempt) + Sent(run, i, j, id, x)
    && id in run.states[j + 1].providers
    && run.states[j + 1].providers[id].discovery == D.Dropped(t.at, Available(t.outcome))
  }

  lemma DriveOne(a: Attempt, reply: Reply, at: int, rest: seq<Await>, cut: int, token: Token, participating: bool)
    ensures var t := Drive(a, [Replied(reply, at)] + rest, cut, token, participating);
            var turn := Resume(a, reply, token, participating);
            if turn.Returned? then t == Trace(turn.outcome, Pending(a), at)
            else
              var u := Drive(turn.attempt, rest, cut, token, participating);
              t == u.(sent := Pending(a) + u.sent)
  {
    assert ([Replied(reply, at)] + rest)[1..] == rest;
  }

  /** The step that ends the attempt. */
  lemma LastStep(run: Run, j: nat, id: ProviderId, x: AttemptId, cut: int, token: Token, participating: bool)
    requires OneAttempt(run, j, j, id, x) && AgreesAt(run, j, id, x, token, participating)
    ensures |run.states| == |run.actions| + 1 && Driven(run, j, j, id, x, cut, token, participating)
  {
    hide IsRun, Resume;
    var s, a := run.states[j], run.actions[j];
    var attempt := s.providers[id].attempts[x];
    AttemptStepAt(run, j, j, id, x);
    if Resumes(a, id, x) {
      assert Delivered(run, j, j, id, x) == [Replied(attempt.reply.value, s.now)] + [];
      DriveOne(attempt, attempt.reply.value, s.now, [], cut, token, participating);
    } else {
      assert Delivered(run, j, j, id, x) == [Interrupted(s.now)];
    }
    assert Sent(run, j, j, id, x) == [];
  }

  /** A reply is delivered and the attempt goes on. */
  lemma DeliveredStep(run: Run, i: nat, j: nat, id: ProviderId, x: AttemptId, cut: int, token: Token,
                      participating: bool)
    requires OneAttempt(run, i, j, id, x) && i < j && |run.states| == |run.actions| + 1
    requires Resumes(run.actions[i], id, x) && AgreesAt(run, i, id, x, token, participating)
    requires Driven(run, i + 1, j, id, x, cut, token, participating)
    ensures Driven(run, i, j, id, x, cut, token, participating)
  {
    hide IsRun, Resume, Drive, Pending, Ending;
    var s := run.states[i];
    var attempt := s.providers[id].attempts[x];
    var rest := Delivered(run, i + 1, j, id, x);
    AttemptStepAt(run, i, j, id, x);
    DriveOne(attempt, attempt.reply.value, s.now, rest, cut, token, participating);
    assert Delivered(run, i, j, id, x) == [Replied(attempt.reply.value, s.now)] + rest;
    var next := run.states[i + 1].providers[id].attempts[x];
    assert Sent(run, i, j, id, x) == Pending(next) + Sent(run, i + 1, j, id, x);
  }

  /** A step that changes only the wire. */
  lemma QuietStep(run: Run, i: nat, j: nat, id: ProviderId, x: AttemptId, cut: int, token: Token,
                  participating: bool)
    requires OneAttempt(run, i, j, id, x) && i < j && |run.states| == |run.actions| + 1
    requires !Resumes(run.actions[i], id, x) && !Cancels(run.actions[i], id, x)
    requires Driven(run, i + 1, j, id, x, cut, token, participating)
    ensures Driven(run, i, j, id, x, cut, token, participating)
  {
    hide IsRun, Resume, Drive, Pending, Ending;
    AttemptStepAt(run, i, j, id, x);
    var attempt, next := run.states[i].providers[id].attempts[x], run.states[i + 1].providers[id].attempts[x];
    var rest, sent := Delivered(run, i + 1, j, id, x), Sent(run, i + 1, j, id, x);
    DriveAlike(attempt, next, rest, cut, token, participating, sent);
    assert Delivered(run, i, j, id, x) == rest && Sent(run, i, j, id, x) == sent;
  }

  lemma {:induction false} TailIsDriven(run: Run, i: nat, j: nat, id: ProviderId, x: AttemptId, cut: int,
                                        token: Token, participating: bool)
    requires OneAttempt(run, i, j, id, x) && Agrees(run, i, j, id, x, token, participating)
    ensures |run.states| == |run.actions| + 1 && Driven(run, i, j, id, x, cut, token, participating)
    decreases j - i
  {
    hide IsRun, Driven, TurnAt, AgreesAt;
    AttemptStepAt(run, i, j, id, x);
    assert AgreesAt(run, i, id, x, token, participating);
    if i == j {
      LastStep(run, j, id, x, cut, token, participating);
    } else {
      TailIsDriven(run, i + 1, j, id, x, cut, token, participating);
      if Resumes(run.actions[i], id, x) {
        DeliveredStep(run, i, j, id, x, cut, token, participating);
      } else {
        QuietStep(run, i, j, id, x, cut, token, participating);
      }
    }
  }

  /**
   * From its start to its end or cancellation, an attempt of any run is `acquire`, for
   * what that run delivered, the token it drew and the eligibility it found last: same
   * outcome, same commands, and the cooldown that outcome calls for.
   */
  lemma {:induction false} EveryAttemptIsDriven(run: Run, i: nat, j: nat, id: ProviderId, scope: Scope,
                                                quota: Option<Quota>, cut: int)
    returns (token: Token, participating: bool)
    requires i < j && i < |run.actions| && i < |run.states| && run.actions[i] == On(id, Start(scope, quota))
    requires OneAttempt(run, i + 1, j, id, run.states[i].nextAttempt)
    ensures |run.states| == |run.actions| + 1
    ensures var x := run.states[i].nextAttempt;
            var t := Drive(Begin(scope, quota), Delivered(run, i + 1, j, id, x), cut, token, participating);
            && Agrees(run, i + 1, j, id, x, token, participating)
            && t.outcome == Ending(run.states[j], run.actions[j], id, x) && t.at == run.states[j].now
            && t.sent == [GetAddress] + Sent(run, i + 1, j, id, x)
            && id in run.states[j + 1].providers
            && var discovery := run.states[j + 1].providers[id].discovery;
               && !discovery.checking
               && discovery.retryAfter ==
                    if t.outcome.Acquired? || t.outcome.Busy? || t.outcome.QuotaExhausted? then None
                    else Some(t.at + 10_000_000_000)
  {
    var x := run.states[i].nextAttempt;
    StepAt(run, i);
    token, participating := DrawOf(run, i + 1, j, id, x);
    TailIsDriven(run, i + 1, j, id, x, cut, token, participating);
  }
}
