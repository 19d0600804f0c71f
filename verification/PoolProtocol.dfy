/** Any number of uncoordinated processes on one pool: every write is a compare-and-swap on the
    version that was read, and the operator removes keys without reading a version. */
module PoolProtocol {
  import opened Addressing
  import opened Allocation
  import opened Codec
  import opened AddAttempt
  import opened PoolRelease

  // ---------------------------------------------------------------------
  // State
  // ---------------------------------------------------------------------

  datatype Pool = Pool(version: nat, content: Offsets)

  /** What a write means, independently of the content it is computed from. */
  datatype Commit =
    | Added(who: Requester, offset: nat)
    | Deleted(containerID: string, ifName: string, offset: nat)
    | RolledBack(who: Requester, offset: nat)
    | Removed(offsets: set<nat>)

  function Apply(c: Commit, m: Offsets): Offsets {
    match c
    case Added(who, k) => m[k := Alloc(who)]
    case Deleted(_, _, k) => m - {k}
    case RolledBack(_, k) => m - {k}
    case Removed(ks) => m - ks
  }

  /** What a process may decide from the content it has read. */
  ghost predicate Justified(c: Commit, m: Offsets) {
    match c
    case Added(who, k) => OwnOffset(m, who, k) || (k !in m && forall j :: !OwnOffset(m, who, j))
    case Deleted(containerID, ifName, k) => HeldBy(m, containerID, ifName, k)
    case RolledBack(who, k) => StillCommitted(m, who, k)
    case Removed(_) => false
  }

  /** An ADD attempt decides in this way, whatever its configuration. */
  lemma AttemptIsJustified(conf: RangeConfiguration, base: Addr, m: Offsets, taken: seq<Addr>, who: Requester, k: nat)
    requires conf.range.Some? && TakesOffset(conf, base, m, taken, who, k)
    ensures Justified(Added(who, k), m)
  {
  }

  /** The stored pool, the pool object each process holds, and the commits so far. The object keeps
      the version it was read with even after its own write, because the response is discarded. */
  datatype State = State(pool: Pool, held: map<nat, Pool>, log: seq<Commit>)

  datatype Step =
    | Read(id: nat)
    | Patch(id: nat, commit: Commit)
    | OperatorRemove(offsets: set<nat>)
    | Crash(id: nat)

  // ---------------------------------------------------------------------
  // Steps
  // ---------------------------------------------------------------------

  ghost predicate Enabled(s: State, step: Step) {
    step.Patch? ==> step.id in s.held && Justified(step.commit, s.held[step.id].content)
  }

  ghost predicate Lands(s: State, step: Step) {
    step.Patch? && step.id in s.held && s.held[step.id].version == s.pool.version
  }

  ghost function After(s: State, step: Step): State
    requires Enabled(s, step)
  {
    match step
    case Read(id) => s.(held := s.held[id := s.pool])
    case Patch(id, c) =>
      var mine := s.held[id];
      var written := Apply(c, mine.content);
      var s' := s.(held := s.held[id := Pool(mine.version, written)]);
      if Lands(s, step) then s'.(pool := Pool(s.pool.version + 1, written), log := s.log + [c]) else s'
    case OperatorRemove(ks) =>
      s.(pool := Pool(s.pool.version + 1, s.pool.content - ks), log := s.log + [Removed(ks)])
    case Crash(id) => s.(held := s.held - {id})
  }

  /** A run from a pool without double owners and without readers. */
  ghost predicate IsRun(trace: seq<State>, steps: seq<Step>) {
    && |trace| == |steps| + 1
    && UniqueOwners(trace[0].pool.content) && trace[0].held == map[] && trace[0].log == []
    && (forall i :: 0 <= i < |steps| ==> Enabled(trace[i], steps[i]) && trace[i + 1] == After(trace[i], steps[i]))
  }

  // ---------------------------------------------------------------------
  // The invariant
  // ---------------------------------------------------------------------

  /** No object is newer than the pool, and one of the same version has the same content. */
  ghost predicate Inv(s: State) {
    && UniqueOwners(s.pool.content)
    && (forall id :: id in s.held ==> s.held[id].version <= s.pool.version)
    && (forall id :: id in s.held && s.held[id].version == s.pool.version ==> s.held[id].content == s.pool.content)
  }

  lemma ApplyKeepsUniqueOwners(c: Commit, m: Offsets)
    requires UniqueOwners(m) && Justified(c, m)
    ensures UniqueOwners(Apply(c, m))
  {
    if c.Added? {
      forall j | j in m && OwnedBy(m[j], c.who) ensures j == c.offset {
        assert OwnOffset(m, c.who, j);
      }
    }
  }

  lemma StepKeepsInv(s: State, step: Step)
    requires Inv(s) && Enabled(s, step)
    ensures Inv(After(s, step))
    ensures Lands(s, step) ==> Justified(step.commit, s.pool.content) && After(s, step).pool.content == Apply(step.commit, s.pool.content)
  {
    if Lands(s, step) {
      ApplyKeepsUniqueOwners(step.commit, s.pool.content);
    }
  }

  /** In every run, however processes interleave, crash or retry and whatever the operator removes,
      each (pod, interface) owns at most one key of the pool. */
  lemma {:induction false} RunKeepsInv(trace: seq<State>, steps: seq<Step>, i: nat)
    requires IsRun(trace, steps) && i < |trace|
    ensures Inv(trace[i])
  {
    if i > 0 {
      RunKeepsInv(trace, steps, i - 1);
      StepKeepsInv(trace[i - 1], steps[i - 1]);
    }
  }

  // ---------------------------------------------------------------------
  // No lost updates
  // ---------------------------------------------------------------------

  /** The commits applied one at a time, in order. */
  function Replay(m: Offsets, log: seq<Commit>): Offsets {
    if log == [] then m else Apply(log[|log| - 1], Replay(m, log[..|log| - 1]))
  }

  lemma StepLogs(s: State, step: Step)
    requires Inv(s) && Enabled(s, step)
    ensures
      var s' := After(s, step);
      || (s'.log == s.log && s'.pool.content == s.pool.content)
      || (exists c :: s'.log == s.log + [c] && s'.pool.content == Apply(c, s.pool.content))
  {
  }

  lemma ReplayNext(m: Offsets, log: seq<Commit>, c: Commit)
    ensures Replay(m, log + [c]) == Apply(c, Replay(m, log))
  {
  }

  /** The pool always equals the replay of all commits in commit order, although each process
      computed its whole write from the copy it had read. */
  lemma {:induction false} NoLostUpdates(trace: seq<State>, steps: seq<Step>, i: nat)
    requires IsRun(trace, steps) && i < |trace|
    ensures trace[i].pool.content == Replay(trace[0].pool.content, trace[i].log)
  {
    if i > 0 {
      NoLostUpdates(trace, steps, i - 1);
      RunKeepsInv(trace, steps, i - 1);
      hide Inv, Enabled, After, Apply, Replay;
      var s, s' := trace[i - 1], trace[i];
      StepLogs(s, steps[i - 1]);
      if s'.log != s.log {
        var c :| s'.log == s.log + [c] && s'.pool.content == Apply(c, s.pool.content);
        ReplayNext(trace[0].pool.content, s.log, c);
      }
    }
  }

  // ---------------------------------------------------------------------
  // Ownership
  // ---------------------------------------------------------------------

  lemma StepKeepsOwner(s: State, step: Step, k: nat)
    requires Inv(s) && Enabled(s, step)
    requires k in s.pool.content && k in After(s, step).pool.content
    ensures SameOwners(s.pool.content[k], After(s, step).pool.content[k])
  {
  }

  /** A committed address changes its (pod, interface) only after its key has been gone: if it has
      different owners at two moments, at some moment between them the pool does not hold it. */
  lemma {:induction false} OwnerChangesOnlyThroughRemoval(trace: seq<State>, steps: seq<Step>, i: nat, j: nat, k: nat)
    requires IsRun(trace, steps) && i <= j < |trace|
    requires k in trace[i].pool.content && k in trace[j].pool.content
    requires !SameOwners(trace[i].pool.content[k], trace[j].pool.content[k])
    ensures exists t :: i < t < j && k !in trace[t].pool.content
  {
    if k in trace[j - 1].pool.content {
      RunKeepsInv(trace, steps, j - 1);
      StepKeepsOwner(trace[j - 1], steps[j - 1], k);
      OwnerChangesOnlyThroughRemoval(trace, steps, i, j - 1, k);
    }
  }

  // ---------------------------------------------------------------------
  // What DEL and rollback remove
  // ---------------------------------------------------------------------

  /** However it interleaves, a rollback write leaves the pool alone or removes exactly the entry
      (address, container, pod, interface) its own ADD committed. */
  lemma RollbackIsExact(trace: seq<State>, steps: seq<Step>, i: nat, who: Requester, k: nat)
    requires IsRun(trace, steps) && i < |steps|
    requires steps[i].Patch? && steps[i].commit == RolledBack(who, k)
    ensures
      var m, m' := trace[i].pool.content, trace[i + 1].pool.content;
      m' == m || (k in m && m[k] == Alloc(who) && m' == m - {k})
  {
    RunKeepsInv(trace, steps, i);
    StepKeepsInv(trace[i], steps[i]);
  }

  /** However it interleaves, a DEL write leaves the pool alone or removes one entry of its own
      container: an entry that a newer sandbox has taken over stays. */
  lemma DeleteIsExact(trace: seq<State>, steps: seq<Step>, i: nat, containerID: string, ifName: string, k: nat)
    requires IsRun(trace, steps) && i < |steps|
    requires steps[i].Patch? && steps[i].commit == Deleted(containerID, ifName, k)
    ensures
      var m, m' := trace[i].pool.content, trace[i + 1].pool.content;
      && (m' == m || (HeldBy(m, containerID, ifName, k) && m' == m - {k}))
      && (forall j :: j in m && m[j].containerID != containerID ==> j in m' && m'[j] == m[j])
  {
    RunKeepsInv(trace, steps, i);
    StepKeepsInv(trace[i], steps[i]);
  }

  ghost predicate NoReadBetween(steps: seq<Step>, id: nat, i: nat, j: nat)
    requires i <= j <= |steps|
  {
    forall t :: i <= t < j ==> !(steps[t].Read? && steps[t].id == id)
  }

  lemma {:induction false} ObjectStaysOld(trace: seq<State>, steps: seq<Step>, id: nat, i: nat, j: nat)
    requires IsRun(trace, steps) && i < j < |trace|
    requires steps[i].Patch? && steps[i].id == id && Lands(trace[i], steps[i])
    requires NoReadBetween(steps, id, i, j)
    ensures id in trace[j].held ==> trace[j].held[id].version < trace[j].pool.version
  {
    if j > i + 1 {
      ObjectStaysOld(trace, steps, id, i, j - 1);
    }
  }

  /** A rollback that reuses the pool object of its own successful write never takes effect: the
      object still has the version from before that write, so the first attempt always conflicts. */
  lemma RollbackWithoutRereadConflicts(trace: seq<State>, steps: seq<Step>, id: nat, i: nat, j: nat)
    requires IsRun(trace, steps) && i < j < |steps|
    requires steps[i].Patch? && steps[i].id == id && Lands(trace[i], steps[i])
    requires steps[j].Patch? && steps[j].id == id && NoReadBetween(steps, id, i, j)
    ensures trace[j + 1].pool == trace[j].pool && trace[j + 1].log == trace[j].log
  {
    ObjectStaysOld(trace, steps, id, i, j);
  }
}
