/**
 * Recorder discovery: one attempt at a time across all provider clones, and a
 * cooldown decided by the guard's drop on every exit path, cancellation included.
 */
module Discovery {
  import opened Common

  /** Ten seconds, in nanoseconds. */
  const RETRY_INTERVAL: int := 10_000_000_000

  datatype State = State(retryAfter: Option<int>, checking: bool)

  datatype Lookup = Granted | CoolingDown | InProgress

  const FRESH := State(None, false)

  function Outcome(s: State, now: int): (lookup: Lookup) {
    if s.retryAfter.Some? && now < s.retryAfter.value then CoolingDown
    else if s.checking then InProgress
    else Granted
  }

  /** The state left behind when a guard is dropped. */
  function Dropped(now: int, available: bool): (s: State) {
    State(if available then None else Some(now + RETRY_INTERVAL), false)
  }

  /**
   * Lookups after a guard was dropped: a marked guard leaves the way free, an unmarked
   * one closes it for exactly ten seconds, whoever asks.
   */
  lemma CooldownEndsOnTime(dropped: int, available: bool, later: int)
    requires dropped <= later
    ensures Outcome(Dropped(dropped, available), later) ==
            if available || dropped + 10_000_000_000 <= later then Granted else CoolingDown
  {
  }

  /** While an attempt is under way, others are turned away, and go free as soon as it is over. */
  lemma OnlyOneIsGranted(s: State, now: int)
    requires Outcome(s, now).Granted?
    ensures !s.checking && Outcome(s.(checking := true), now) == InProgress
    ensures Outcome(FRESH, now) == Granted
  {
  }

  // ---------------------------------------------------------------------------
  // The shared object and its guard
  // ---------------------------------------------------------------------------

  class RecorderDiscovery {
    var retryAfter: Option<int>
    var checking: bool

    constructor ()
      ensures Abs() == FRESH
    {
      retryAfter, checking := None, false;
    }

    function Abs(): (s: State)
      reads this
    {
      State(retryAfter, checking)
    }

    method TryLookup(now: int) returns (lookup: Lookup, guard: Guard?)
      modifies this
      ensures lookup == Outcome(old(Abs()), now)
      // The cooldown is looked at first, then the flag.
      ensures lookup.CoolingDown? <==> old(retryAfter).Some? && now < old(retryAfter).value
      ensures lookup.InProgress? <==> !lookup.CoolingDown? && old(checking)
      ensures lookup.Granted? <==> guard != null
      ensures lookup.Granted? ==> fresh(guard) && guard.discovery == this && !guard.available
      ensures lookup.Granted? ==> Abs() == old(Abs()).(checking := true)
      ensures !lookup.Granted? ==> Abs() == old(Abs())
    {
      guard := null;
      if retryAfter.Some? && now < retryAfter.value {
        return CoolingDown, null;
      }
      if checking {
        return InProgress, null;
      }
      checking := true;
      guard := new Guard(this);
      return Granted, guard;
    }
  }

  class Guard {
    const discovery: RecorderDiscovery
    var available: bool

    constructor (discovery: RecorderDiscovery)
      ensures this.discovery == discovery && !available
    {
      this.discovery := discovery;
      available := false;
    }

    /** `available(self)` consumes the guard: it is marked and then dropped. */
    method Available(now: int)
      modifies this, discovery
      ensures discovery.Abs() == Dropped(now, true) && !discovery.checking && discovery.retryAfter == None
    {
      available := true;
      Drop(now);
    }

    method Drop(now: int)
      modifies discovery
      ensures discovery.Abs() == Dropped(now, available) && !discovery.checking
      ensures discovery.retryAfter == if available then None else Some(now + 10_000_000_000)
    {
      discovery.checking := false;
      discovery.retryAfter := if !available then Some(now + RETRY_INTERVAL) else None;
    }
  }

  // ---------------------------------------------------------------------------
  // Runs: any number of clones asking and finishing in any order
  // ---------------------------------------------------------------------------

  /** `guards` outstanding guards, and the instants at which attempts failed or were cancelled. */
  datatype System = System(now: int, state: State, guards: nat, failures: seq<int>)

  datatype Action = Ask(at: int) | Finish(at: int, available: bool)

  predicate Enabled(s: System, a: Action) {
    s.now <= a.at && (a.Finish? ==> s.guards > 0)
  }

  function Next(s: System, a: Action): (r: System)
    requires Enabled(s, a)
  {
    match a
    case Ask(at) =>
      if Outcome(s.state, at).Granted? then System(at, s.state.(checking := true), s.guards + 1, s.failures)
      else s.(now := at)
    case Finish(at, available) =>
      System(at, Dropped(at, available), s.guards - 1, if available then s.failures else s.failures + [at])
  }

  ghost predicate Legal(s: System, actions: seq<Action>)
    decreases |actions|
  {
    actions == [] || (Enabled(s, actions[0]) && Legal(Next(s, actions[0]), actions[1..]))
  }

  function After(s: System, actions: seq<Action>): (r: System)
    requires Legal(s, actions)
    decreases |actions|
  {
    if actions == [] then s else After(Next(s, actions[0]), actions[1..])
  }

  /** At most one guard, and failures spaced by the retry interval. */
  ghost predicate Inv(s: System) {
    && s.guards == (if s.state.checking then 1 else 0)
    && (forall i | 0 <= i < |s.failures| - 1 :: s.failures[i] + RETRY_INTERVAL <= s.failures[i + 1])
    && (s.failures != [] ==>
          var last := s.failures[|s.failures| - 1];
          last + RETRY_INTERVAL <= s.now || (!s.state.checking && s.state.retryAfter == Some(last + RETRY_INTERVAL)))
  }

  lemma InvStep(s: System, a: Action)
    requires Inv(s) && Enabled(s, a)
    ensures Inv(Next(s, a))
  {
  }

  /** Time passing without a request. */
  lemma InvLater(s: System, later: int)
    requires Inv(s) && s.now <= later
    ensures Inv(s.(now := later))
  {
  }

  lemma {:induction false} InvAlways(s: System, actions: seq<Action>)
    requires Inv(s) && Legal(s, actions)
    ensures Inv(After(s, actions))
    decreases |actions|
  {
    if actions != [] {
      InvStep(s, actions[0]);
      InvAlways(Next(s, actions[0]), actions[1..]);
    }
  }

  /** Single flight: however the clones interleave, at most one attempt holds a guard. */
  lemma SingleFlight(now: int, actions: seq<Action>)
    requires Legal(System(now, FRESH, 0, []), actions)
    ensures After(System(now, FRESH, 0, []), actions).guards <= 1
  {
    InvAlways(System(now, FRESH, 0, []), actions);
  }

  lemma {:induction false} Spread(f: seq<int>, i: nat, j: nat)
    requires forall k | 0 <= k < |f| - 1 :: f[k] + RETRY_INTERVAL <= f[k + 1]
    requires i <= j < |f|
    ensures f[i] + (j - i) * RETRY_INTERVAL <= f[j]
    decreases j
  {
    if i < j {
      Spread(f, i, j - 1);
    }
  }

  /** The failed or cancelled attempts that ended inside a window. */
  function FailuresWithin(f: seq<int>, from: int, length: nat): (r: set<nat>) {
    set k: nat | k < |f| && from <= f[k] <= from + length
  }

  /** Any window of length W holds at most W / 10 s + 1 failed or cancelled attempts. */
  lemma FailuresAreSpaced(now: int, actions: seq<Action>, from: int, length: nat)
    requires Legal(System(now, FRESH, 0, []), actions)
    ensures |FailuresWithin(After(System(now, FRESH, 0, []), actions).failures, from, length)|
            <= length / RETRY_INTERVAL + 1
  {
    InvAlways(System(now, FRESH, 0, []), actions);
    SpacedFailures(After(System(now, FRESH, 0, []), actions).failures, from, length);
  }

  /** Instants a retry interval apart: at most W / 10 s + 1 of them fall into a window of length W. */
  lemma SpacedFailures(f: seq<int>, from: int, length: nat)
    requires forall k | 0 <= k < |f| - 1 :: f[k] + RETRY_INTERVAL <= f[k + 1]
    ensures |FailuresWithin(f, from, length)| <= length / RETRY_INTERVAL + 1
  {
    var inside := FailuresWithin(f, from, length);
    var bound := length / RETRY_INTERVAL + 1;
    if inside != {} {
      var first := Least(inside);
      forall k | k in inside ensures k - first < bound {
        Spread(f, first, k);
        assert (k - first) * RETRY_INTERVAL <= length;
      }
      var slot := map k | k in inside :: (k - first) as nat;
      Pigeonhole(inside, slot, bound);
    }
  }

  lemma {:induction false} Least(s: set<nat>) returns (least: nat)
    requires s != {}
    ensures least in s && forall k | k in s :: least <= k
    decreases |s|
  {
    var x :| x in s;
    var rest := s - {x};
    if rest == {} {
      assert s == {x};
      least := x;
    } else {
      var y := Least(rest);
      least := if x < y then x else y;
      assert forall k | k in s :: k == x || k in rest;
    }
  }
}
