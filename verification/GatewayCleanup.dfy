/** Dead handles do not stay in the registry: every registered process has a clean-up pending. */
module GatewayCleanup {
  import opened Wrappers
  import opened Runs
  import opened Gateway

  ghost predicate Tended(s: State) {
    forall sid | sid in s.registry :: (sid, s.registry[sid]) in s.watchers
  }

  lemma RegisterKeeps(s: State, c: CallId, t: State)
    requires Tended(s) && RegisterStep(s, c) == Some(t)
    ensures Tended(t)
  {
  }

  ghost predicate Untouched(s: State, t: State) {
    t.registry == s.registry && t.watchers == s.watchers
  }

  lemma PersistLeavesRegistry(f: Faults, s: State, c: CallId, write: RowWrite, t: State)
    requires DeliverPersistStep(s, c, write) == Some(t) || ResumePersistStep(f, s, c, write) == Some(t)
    ensures Untouched(s, t)
  {
  }

  lemma SpawnLeavesRegistry(f: Faults, s: State, c: CallId, launch: Launch, t: State)
    requires SpawnStep(f, s, c, launch) == Some(t)
    ensures Untouched(s, t)
  {
  }

  lemma FetchLeavesRegistry(f: Faults, s: State, c: CallId, found: Option<string>, ok: bool, t: State)
    requires FetchStep(f, s, c, found, ok) == Some(t)
    ensures Untouched(s, t)
  {
  }

  lemma GateLeavesRegistry(s: State, c: CallId, t: State)
    requires TakeGateStep(s, c) == Some(t) || ReleaseGateStep(s, c) == Some(t) || StopReturnsStep(s, c) == Some(t)
    ensures Untouched(s, t)
  {
  }

  lemma ProbeLeavesRegistry(s: State, c: CallId, t: State)
    requires LookUpStep(s, c) == Some(t) || ProbeStep(s, c) == Some(t)
    ensures Untouched(s, t)
  {
  }

  lemma StepKeeps(f: Faults, s: State, a: Action, t: State)
    requires Tended(s) && Step(f, s, a) == Some(t)
    ensures Tended(t)
  {
    match a
    case Register(c) => RegisterKeeps(s, c, t);
    case CleanUp(_, _) =>
    case Restart =>
    case Fetch(c, found, ok) => FetchLeavesRegistry(f, s, c, found, ok, t);
    case Spawn(c, launch) => SpawnLeavesRegistry(f, s, c, launch, t);
    case Persist(c, write) => PersistLeavesRegistry(f, s, c, write, t);
    case TakeGate(c) => GateLeavesRegistry(s, c, t);
    case ReleaseGate(c) => GateLeavesRegistry(s, c, t);
    case StopReturns(c) => GateLeavesRegistry(s, c, t);
    case LookUp(c) => ProbeLeavesRegistry(s, c, t);
    case Probe(c) => ProbeLeavesRegistry(s, c, t);
    case BeginDeliver(_, _, _, _) =>
    case BeginResume(_, _) =>
    case CheckCache(_) =>
    case FirstRead(_, _, _) =>
    case SendAck(_) =>
    case Exit(_) =>
  }

  lemma {:induction false} RunKeeps(f: Faults, s: State, run: seq<Action>, t: State)
    requires Tended(s) && RunFrom(Steps(f), s, run) == Some(t)
    ensures Tended(t)
    decreases |run|
  {
    if run == [] {
    } else {
      var next := Step(f, s, run[0]).value;
      StepKeeps(f, s, run[0], next);
      RunKeeps(f, next, run[1..], t);
    }
  }

  /** Under every fault, a registered process that has exited can be cleaned up at once, which
      removes its handle and touches neither other handles nor anything else but the watcher. */
  lemma DeadHandlesGo(f: Faults, s: State, sid: string)
    requires Reaches(Steps(f), INIT, s) && sid in s.registry
    requires s.registry[sid] in s.procs && !s.procs[s.registry[sid]].running
    ensures var t := Step(f, s, CleanUp(sid, s.registry[sid]));
            && t.Some? && sid !in t.value.registry
            && (forall k | k in s.registry && k != sid :: k in t.value.registry && t.value.registry[k] == s.registry[k])
            && t.value == s.(registry := t.value.registry, watchers := s.watchers - {(sid, s.registry[sid])})
  {
    var run :| RunFrom(Steps(f), INIT, run) == Some(s);
    RunKeeps(f, INIT, run, s);
  }

  /** A clean-up that comes after the id was taken over leaves the successor registered. */
  lemma SuccessorsStay(f: Faults, s: State, sid: string, p: ProcId, t: State)
    requires Step(f, s, CleanUp(sid, p)) == Some(t) && sid in s.registry && s.registry[sid] != p
    ensures t.registry == s.registry
  {
  }
}
