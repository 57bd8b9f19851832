/**
 * The policy snapshot shared by provider clones: a cache keyed by the raw Redis
 * value, and the serialized loads that replace it.
 */
module PolicyStore {
  import opened Common
  import opened Policy

  type Raw = Option<string>

  /** The JSON decoder, and the libraries behind the compiler. */
  datatype Parsers = Parsers(json: string -> Option<Config>, lib: Library)

  /** The policy a raw value stands for, if it is acceptable; a missing key is the default policy. */
  ghost function PolicyOf(raw: Raw, parsers: Parsers): (r: Option<Compiled>) {
    var config := if raw.Some? then parsers.json(raw.value) else Some(DEFAULT);
    if config.Some? && Acceptable(config.value, parsers.lib) then Some(CompiledOf(config.value)) else None
  }

  datatype Snapshot = Snapshot(raw: Raw, policy: Option<Compiled>)

  const UNLOADED := Snapshot(None, None)

  /** A loaded policy is the compilation of the stored raw value. */
  ghost predicate Coherent(s: Snapshot, parsers: Parsers) {
    s.policy.Some? ==> s.policy == PolicyOf(s.raw, parsers)
  }

  /** Always recompiling: what a load means, without the unchanged-value shortcut. */
  ghost function Reloaded(s: Snapshot, raw: Raw, parsers: Parsers): (r: Snapshot) {
    var policy := PolicyOf(raw, parsers);
    if policy.Some? then Snapshot(raw, policy) else s
  }

  /** `Value` as the loader decodes it. */
  datatype Value = Nil | Bulk(bytes: string) | Other

  class Store {
    const parsers: Parsers
    var snapshot: Snapshot

    ghost predicate Valid()
      reads this
    {
      Coherent(snapshot, parsers)
    }

    constructor (parsers: Parsers)
      ensures Valid() && snapshot == UNLOADED && this.parsers == parsers
    {
      this.parsers := parsers;
      snapshot := UNLOADED;
    }

    /**
     * `load`, from the reply of its GET on. The shortcut is invisible: the snapshot
     * afterwards is the one recompiling would have produced, and a failed load
     * changes nothing.
     */
    method Load(reply: Option<Value>) returns (ok: bool)
      requires Valid()
      modifies this
      ensures Valid()
      ensures reply == None || reply == Some(Other) ==> !ok
      ensures reply == Some(Nil) ==> ok && snapshot == Snapshot(None, PolicyOf(None, parsers))
      ensures reply.Some? && reply.value.Bulk? ==>
                var raw := Some(reply.value.bytes);
                && (ok <==> PolicyOf(raw, parsers).Some?)
                && (ok ==> snapshot == Snapshot(raw, PolicyOf(raw, parsers)))
      ensures !ok ==> snapshot == old(snapshot)
    {
      if reply == None || reply == Some(Other) {
        return false;
      }
      var raw: Raw := if reply.value.Nil? then None else Some(reply.value.bytes);
      if snapshot.policy.Some? && snapshot.raw == raw {
        return true;
      }
      var config := if raw.Some? then parsers.json(raw.value) else Some(DEFAULT);
      if config.None? {
        return false;
      }
      var compiled := Compile(config.value, parsers.lib);
      if compiled.Err? {
        return false;
      }
      snapshot := Snapshot(raw, Some(compiled.value));
      return true;
    }
  }

  // ---------------------------------------------------------------------------
  // Concurrent manual and periodic loads
  // ---------------------------------------------------------------------------

  type LoaderId = nat

  /** A loader waits for the lock, then for its GET, then holds the version it read. */
  datatype Loader = Waiting | Fetching | Fetched(version: nat)

  /**
   * `versions` lists every value the policy key ever had; its last element is
   * current. `version` is the one the published snapshot was read at.
   */
  datatype System = System(
    versions: seq<Raw>,
    snapshot: Snapshot,
    version: nat,
    lock: Option<LoaderId>,
    loaders: map<LoaderId, Loader>)

  datatype Action =
    | Write(raw: Raw)
    | Request(id: LoaderId)
    | Lock(id: LoaderId)
    | Fetch(id: LoaderId)
    | Finish(id: LoaderId)
    | Cancel(id: LoaderId)

  ghost predicate Init(s: System) {
    |s.versions| == 1 && s.snapshot == UNLOADED && s.version == 0 && s.lock == None && s.loaders == map[]
  }

  predicate Enabled(s: System, a: Action) {
    match a
    case Write(_) => true
    case Request(id) => id !in s.loaders
    case Lock(id) => id in s.loaders && s.loaders[id].Waiting? && s.lock == None
    case Fetch(id) => id in s.loaders && s.loaders[id].Fetching? && s.versions != []
    case Finish(id) => id in s.loaders && s.loaders[id].Fetched? && s.loaders[id].version < |s.versions|
    case Cancel(id) => id in s.loaders
  }

  /** Ending a load, however it ends, drops its lock guard. */
  function Left(s: System, id: LoaderId): (r: System) {
    s.(loaders := s.loaders - {id}, lock := if s.lock == Some(id) then None else s.lock)
  }

  ghost function Next(s: System, a: Action, parsers: Parsers): (r: System)
    requires Enabled(s, a)
  {
    match a
    case Write(raw) => s.(versions := s.versions + [raw])
    case Request(id) => s.(loaders := s.loaders[id := Waiting])
    case Lock(id) => s.(loaders := s.loaders[id := Fetching], lock := Some(id))
    case Fetch(id) => s.(loaders := s.loaders[id := Fetched(|s.versions| - 1)])
    case Finish(id) =>
      var read := s.loaders[id].version;
      var raw := s.versions[read];
      Left(s, id).(snapshot := Reloaded(s.snapshot, raw, parsers),
                   version := if PolicyOf(raw, parsers).Some? then read else s.version)
    case Cancel(id) => Left(s, id)
  }

  /** Only the lock holder is past waiting, and it never holds a version older than the snapshot's. */
  ghost predicate Inv(s: System, parsers: Parsers) {
    && s.version < |s.versions|
    && Coherent(s.snapshot, parsers)
    && (s.snapshot.policy.Some? ==> s.snapshot.raw == s.versions[s.version])
    && (forall id | id in s.loaders && !s.loaders[id].Waiting? :: s.lock == Some(id))
    && (forall id | id in s.loaders && s.loaders[id].Fetched? ::
          s.version <= s.loaders[id].version < |s.versions|)
  }

  lemma InvStep(s: System, a: Action, parsers: Parsers)
    requires Inv(s, parsers) && Enabled(s, a)
    ensures Inv(Next(s, a, parsers), parsers)
    ensures s.version <= Next(s, a, parsers).version
  {
  }

  /** However a load ends, its lock is free for the next one. */
  lemma EndedLoadFreesTheLock(s: System, id: LoaderId, other: LoaderId, cancelled: bool, parsers: Parsers)
    requires Inv(s, parsers) && s.lock == Some(id) && other != id && other in s.loaders && s.loaders[other].Waiting?
    requires Enabled(s, if cancelled then Cancel(id) else Finish(id))
    ensures var s' := Next(s, if cancelled then Cancel(id) else Finish(id), parsers);
            id !in s'.loaders && Enabled(s', Lock(other)) && (cancelled ==> s'.snapshot == s.snapshot)
  {
  }

  ghost predicate IsRun(states: seq<System>, actions: seq<Action>, parsers: Parsers) {
    && |states| == |actions| + 1 && Init(states[0])
    && forall i | 0 <= i < |actions| ::
         Enabled(states[i], actions[i]) && states[i + 1] == Next(states[i], actions[i], parsers)
  }

  lemma {:induction false} InvAlways(states: seq<System>, actions: seq<Action>, parsers: Parsers, i: nat)
    requires IsRun(states, actions, parsers) && i < |states|
    ensures Inv(states[i], parsers)
    decreases i
  {
    if i > 0 {
      InvAlways(states, actions, parsers, i - 1);
      InvStep(states[i - 1], actions[i - 1], parsers);
    }
  }

  /** Loader `id` reads the key at `i` and finishes at `j`. */
  ghost predicate OneLoad(states: seq<System>, actions: seq<Action>, parsers: Parsers, i: nat, j: nat, id: LoaderId) {
    && IsRun(states, actions, parsers) && i < j < |actions|
    && actions[i] == Fetch(id) && actions[j] == Finish(id)
    && forall k | i < k < j :: actions[k] != Finish(id) && actions[k] != Cancel(id)
  }

  lemma {:induction false} HoldsWhatItRead(states: seq<System>, actions: seq<Action>, parsers: Parsers,
                                           i: nat, j: nat, k: nat, id: LoaderId)
    requires OneLoad(states, actions, parsers, i, j, id) && i < k <= j
    ensures id in states[k].loaders && states[k].loaders[id] == Fetched(|states[i].versions| - 1)
    ensures states[i].versions <= states[k].versions
    decreases k
  {
    assert states[k] == Next(states[k - 1], actions[k - 1], parsers);
    InvAlways(states, actions, parsers, i);
    if i + 1 < k {
      HoldsWhatItRead(states, actions, parsers, i, j, k - 1, id);
    }
  }

  /**
   * A load that finishes publishes the value that was current when it read the key, if
   * that value is acceptable, and otherwise leaves the snapshot alone.
   */
  lemma LoadsPublishWhatTheyRead(states: seq<System>, actions: seq<Action>, parsers: Parsers,
                                 i: nat, j: nat, id: LoaderId)
    requires OneLoad(states, actions, parsers, i, j, id)
    ensures states[i].versions != []
    ensures var n := |states[i].versions| - 1;
            var policy := PolicyOf(states[i].versions[n], parsers);
            if policy.Some? then
              states[j + 1].snapshot == Snapshot(states[i].versions[n], policy) && states[j + 1].version == n
            else states[j + 1].snapshot == states[j].snapshot && states[j + 1].version == states[j].version
  {
    InvAlways(states, actions, parsers, i);
    HoldsWhatItRead(states, actions, parsers, i, j, j, id);
    assert states[j + 1] == Next(states[j], actions[j], parsers);
  }

  /**
   * However loads are interleaved and cancelled, the published snapshot is the
   * compilation of one past value of the key, and that value never goes backwards.
   */
  lemma {:induction false} SnapshotsNeverGoBack(states: seq<System>, actions: seq<Action>, parsers: Parsers,
                                                i: nat, j: nat)
    requires IsRun(states, actions, parsers) && i <= j < |states|
    ensures states[i].version <= states[j].version < |states[j].versions|
    ensures states[j].snapshot.policy.Some? ==>
              states[j].snapshot.policy == PolicyOf(states[j].versions[states[j].version], parsers)
    decreases j
  {
    InvAlways(states, actions, parsers, j);
    if i < j {
      SnapshotsNeverGoBack(states, actions, parsers, i, j - 1);
      InvAlways(states, actions, parsers, j - 1);
      InvStep(states[j - 1], actions[j - 1], parsers);
    }
  }
}
