/** No gate is ever stuck: under every fault, each call can always be brought to its answer. */
module GatewayProgress {
  import opened Wrappers
  import opened Runs
  import opened Gateway
  import Safety = GatewaySafety

  /** The call whose step an action is. */
  function Actor(a: Action): Option<CallId> {
    match a
    case BeginDeliver(c, _, _, _) => Some(c)
    case BeginResume(c, _) => Some(c)
    case CheckCache(c) => Some(c)
    case FirstRead(c, _, _) => Some(c)
    case TakeGate(c) => Some(c)
    case Fetch(c, _, _) => Some(c)
    case LookUp(c) => Some(c)
    case Probe(c) => Some(c)
    case Spawn(c, _) => Some(c)
    case Persist(c, _) => Some(c)
    case Register(c) => Some(c)
    case StopReturns(c) => Some(c)
    case ReleaseGate(c) => Some(c)
    case SendAck(c) => Some(c)
    case Exit(_) => None
    case CleanUp(_, _) => None
    case Restart => None
  }

  /** Handlers stay on their own path, and the processes they deal with were launched. */
  predicate OnPath(call: Call, procs: map<ProcId, Process>) {
    match call.pc
    case Spawned(_, p) => p in procs
    case Persisted(p) => p in procs && call.kind.Deliver?
    case Registered(_, p) => p in procs && call.kind.Resume?
    case Acking(_) => call.kind.Deliver?
    case _ => true
  }

  ghost predicate Inv(s: State) {
    Safety.GatesHeld(s) && forall c | c in s.calls :: OnPath(s.calls[c], s.procs)
  }

  /** One call moves and stays on its side of the gate. */
  lemma MoveKeeps(s: State, c: CallId, t: State)
    requires Inv(s) && t.gates == s.gates && c in t.calls && t.calls == s.calls[c := t.calls[c]]
    requires c in s.calls ==> t.calls[c].envelope == s.calls[c].envelope
    requires InGate(t.calls[c].pc) <==> c in s.calls && InGate(s.calls[c].pc)
    requires s.procs.Keys <= t.procs.Keys && OnPath(t.calls[c], t.procs)
    ensures Inv(t)
  {
  }

  lemma GateKeeps(s: State, c: CallId, t: State)
    requires Inv(s) && (TakeGateStep(s, c) == Some(t) || ReleaseGateStep(s, c) == Some(t))
    ensures Inv(t)
  {
  }

  lemma DeliverPersistKeeps(s: State, c: CallId, write: RowWrite, t: State)
    requires Inv(s) && DeliverPersistStep(s, c, write) == Some(t) && s.calls[c].kind.Deliver?
    ensures Inv(t)
  {
    MoveKeeps(s, c, t);
  }

  lemma ResumePersistKeeps(f: Faults, s: State, c: CallId, write: RowWrite, t: State)
    requires Inv(s) && ResumePersistStep(f, s, c, write) == Some(t)
    ensures Inv(t)
  {
    MoveKeeps(s, c, t);
  }

  lemma RegisterKeeps(s: State, c: CallId, t: State)
    requires Inv(s) && RegisterStep(s, c) == Some(t)
    ensures Inv(t)
  {
    MoveKeeps(s, c, t);
  }

  lemma FetchKeeps(f: Faults, s: State, c: CallId, found: Option<string>, ok: bool, t: State)
    requires Inv(s) && FetchStep(f, s, c, found, ok) == Some(t)
    ensures Inv(t)
  {
    MoveKeeps(s, c, t);
  }

  lemma SpawnKeeps(f: Faults, s: State, c: CallId, launch: Launch, t: State)
    requires Inv(s) && SpawnStep(f, s, c, launch) == Some(t)
    ensures Inv(t)
  {
    MoveKeeps(s, c, t);
  }

  lemma OpenStepKeeps(f: Faults, s: State, a: Action, t: State)
    requires Inv(s) && Step(f, s, a) == Some(t) && (a.CheckCache? || a.FirstRead? || a.SendAck?)
    ensures Inv(t)
  {
    MoveKeeps(s, a.call, t);
  }

  lemma GatedStepKeeps(f: Faults, s: State, a: Action, t: State)
    requires Inv(s) && Step(f, s, a) == Some(t) && (a.LookUp? || a.Probe? || a.StopReturns?)
    ensures Inv(t)
  {
    MoveKeeps(s, a.call, t);
  }

  lemma StepKeeps(f: Faults, s: State, a: Action, t: State)
    requires Inv(s) && Step(f, s, a) == Some(t)
    ensures Inv(t)
  {
    match a
    case BeginDeliver(c, _, _, _) => MoveKeeps(s, c, t);
    case BeginResume(c, _) => MoveKeeps(s, c, t);
    case TakeGate(c) => GateKeeps(s, c, t);
    case ReleaseGate(c) => GateKeeps(s, c, t);
    case Fetch(c, found, ok) => FetchKeeps(f, s, c, found, ok, t);
    case Spawn(c, launch) => SpawnKeeps(f, s, c, launch, t);
    case Persist(c, write) =>
      if s.calls[c].kind.Deliver? {
        DeliverPersistKeeps(s, c, write, t);
      } else {
        ResumePersistKeeps(f, s, c, write, t);
      }
    case Register(c) => RegisterKeeps(s, c, t);
    case Exit(_) =>
    case CleanUp(_, _) =>
    case Restart =>
    case LookUp(_) => GatedStepKeeps(f, s, a, t);
    case Probe(_) => GatedStepKeeps(f, s, a, t);
    case StopReturns(_) => GatedStepKeeps(f, s, a, t);
    case _ => OpenStepKeeps(f, s, a, t);
  }

  lemma {:induction false} RunKeeps(f: Faults, s: State, run: seq<Action>, t: State)
    requires Inv(s) && RunFrom(Steps(f), s, run) == Some(t)
    ensures Inv(t)
    decreases |run|
  {
    if run == [] {
    } else {
      var next := Step(f, s, run[0]).value;
      StepKeeps(f, s, run[0], next);
      RunKeeps(f, next, run[1..], t);
    }
  }

  // ----- what is always possible -----

  lemma SomeAnswer(sessions: map<string, string>, envelope: string) returns (found: Option<string>)
    ensures Answers(sessions, envelope, found)
  {
    if sid :| sid in sessions && sessions[sid] == envelope { found := Some(sid); } else { found := None; }
  }

  /** How far a call is from its answer. */
  function Rank(pc: Pc): nat {
    match pc
    case Arrived => 10
    case Queued(_) => 9
    case Holding(_) => 8
    case Fetched(_) => 7
    case Probing(_, _) => 6
    case Spawning(_) => 5
    case Spawned(_, _) => 4
    case Persisted(_) => 3
    case Registered(_, _) => 3
    case Stopping(_) => 3
    case Leaving(_) => 2
    case Acking(_) => 1
    case Finished(_) => 0
  }

  /** A step of the call's own that no error, cache or process can prevent, but for the gate
      it may wait for and the exit of a process it has told to stop. */
  lemma OwnStep(f: Faults, s: State, c: CallId) returns (a: Action)
    requires Inv(s) && c in s.calls && !s.calls[c].pc.Finished?
    requires s.calls[c].pc.Queued? ==> s.calls[c].envelope !in s.gates
    requires s.calls[c].pc.Stopping? ==> s.calls[c].pc.proc in s.procs ==> !s.procs[s.calls[c].pc.proc].running
    ensures Actor(a) == Some(c) && Step(f, s, a).Some?
  {
    var call := s.calls[c];
    assert OnPath(call, s.procs);
    match call.pc
    case Arrived =>
      var found := SomeAnswer(s.sessions, call.envelope);
      a := if call.kind.Deliver? then CheckCache(c) else FirstRead(c, found, true);
    case Queued(_) => a := TakeGate(c);
    case Holding(_) =>
      var found := SomeAnswer(s.sessions, call.envelope);
      a := Fetch(c, found, true);
    case Fetched(_) => a := LookUp(c);
    case Probing(_, _) => a := Probe(c);
    case Spawning(_) => a := Spawn(c, LaunchFails);
    case Spawned(_, _) => a := if call.kind.Deliver? then Persist(c, Written) else Register(c);
    case Persisted(_) => a := Register(c);
    case Registered(_, _) => a := Persist(c, Written);
    case Stopping(_) => a := StopReturns(c);
    case Leaving(_) => a := ReleaseGate(c);
    case Acking(_) => a := SendAck(c);
  }

  /** Call `c` alone has moved, closer to its answer. */
  ghost predicate Moved(s: State, t: State, c: CallId) {
    && c in t.calls && t.calls == s.calls[c := t.calls[c]]
    && (c in s.calls ==> t.calls[c] == s.calls[c].(pc := t.calls[c].pc) && Rank(t.calls[c].pc) < Rank(s.calls[c].pc))
  }

  lemma BeginMoves(f: Faults, s: State, a: Action, t: State)
    requires Step(f, s, a) == Some(t) && (a.BeginDeliver? || a.BeginResume?)
    ensures Moved(s, t, a.call)
  {
  }

  lemma OpenMoves(f: Faults, s: State, a: Action, t: State)
    requires Step(f, s, a) == Some(t) && (a.CheckCache? || a.FirstRead?)
    ensures Moved(s, t, a.call)
  {
  }

  lemma AckMoves(s: State, c: CallId, t: State)
    requires SendAckStep(s, c) == Some(t)
    ensures Moved(s, t, c)
  {
  }

  lemma GatedMoves(f: Faults, s: State, a: Action, t: State)
    requires Step(f, s, a) == Some(t)
    requires a.TakeGate? || a.LookUp? || a.Probe? || a.StopReturns? || a.ReleaseGate?
    ensures Moved(s, t, a.call)
  {
  }

  lemma FetchMoves(f: Faults, s: State, c: CallId, found: Option<string>, ok: bool, t: State)
    requires FetchStep(f, s, c, found, ok) == Some(t)
    ensures Moved(s, t, c)
  {
  }

  lemma SpawnMoves(f: Faults, s: State, c: CallId, launch: Launch, t: State)
    requires SpawnStep(f, s, c, launch) == Some(t)
    ensures Moved(s, t, c)
  {
  }

  lemma DeliverPersistMoves(s: State, c: CallId, write: RowWrite, t: State)
    requires DeliverPersistStep(s, c, write) == Some(t)
    ensures Moved(s, t, c)
  {
  }

  lemma ResumePersistMoves(f: Faults, s: State, c: CallId, write: RowWrite, t: State)
    requires ResumePersistStep(f, s, c, write) == Some(t)
    ensures Moved(s, t, c)
  {
  }

  lemma RegisterMoves(s: State, c: CallId, t: State)
    requires DeliverRegisterStep(s, c) == Some(t) || ResumeRegisterStep(s, c) == Some(t)
    ensures Moved(s, t, c)
  {
  }

  lemma OpenOrGated(f: Faults, s: State, a: Action, t: State)
    requires Step(f, s, a) == Some(t) && !a.Restart? && Actor(a).Some?
    requires !a.Fetch? && !a.Spawn? && !a.Persist? && !a.Register? && !a.SendAck?
    ensures Moved(s, t, a.call)
  {
    if a.TakeGate? || a.LookUp? || a.Probe? || a.StopReturns? || a.ReleaseGate? {
      GatedMoves(f, s, a, t);
    } else if a.BeginDeliver? || a.BeginResume? {
      BeginMoves(f, s, a, t);
    } else {
      OpenMoves(f, s, a, t);
    }
  }

  /** Every step of a call takes it closer to its answer and leaves all other calls alone. */
  lemma StepMoves(f: Faults, s: State, a: Action, t: State)
    requires Step(f, s, a) == Some(t) && !a.Restart?
    ensures if Actor(a).Some? then Moved(s, t, Actor(a).value) else t.calls == s.calls
  {
    match a
    case Fetch(c, found, ok) => FetchMoves(f, s, c, found, ok, t);
    case Spawn(c, launch) => SpawnMoves(f, s, c, launch, t);
    case Persist(c, write) =>
      if s.calls[c].kind.Deliver? {
        DeliverPersistMoves(s, c, write, t);
      } else {
        ResumePersistMoves(f, s, c, write, t);
      }
    case Register(c) => RegisterMoves(s, c, t);
    case SendAck(c) => AckMoves(s, c, t);
    case Exit(_) =>
    case CleanUp(_, _) =>
    case _ => OpenOrGated(f, s, a, t);
  }

  /** Steps of others, short of a restart, leave a call where it is. */
  lemma OthersStay(f: Faults, s: State, a: Action, t: State, c: CallId)
    requires Step(f, s, a) == Some(t) && Actor(a) != Some(c) && !a.Restart? && c in s.calls
    ensures c in t.calls && t.calls[c] == s.calls[c]
  {
    StepMoves(f, s, a, t);
  }

  /** Nothing but the exit of the process it stops can hold a call up inside its gate. */
  lemma Advance(f: Faults, s: State, c: CallId) returns (t: State)
    requires Inv(s) && c in s.calls && !s.calls[c].pc.Finished?
    requires s.calls[c].pc.Queued? ==> s.calls[c].envelope !in s.gates
    ensures Inv(t) && Reaches(Steps(f), s, t) && Moved(s, t, c)
  {
    var s0 := s;
    Stays(Steps(f), s);
    if s.calls[c].pc.Stopping? && s.calls[c].pc.proc in s.procs {
      s0 := ExitStep(s, s.calls[c].pc.proc).value;
      ReachNext(Steps(f), s, s, Exit(s.calls[c].pc.proc), s0);
      StepKeeps(f, s, Exit(s.calls[c].pc.proc), s0);
    }
    var a := OwnStep(f, s0, c);
    t := Step(f, s0, a).value;
    StepMoves(f, s0, a, t);
    StepKeeps(f, s0, a, t);
    ReachNext(Steps(f), s, s0, a, t);
  }

  /** From inside its gate a call can always be brought out of it, others standing still. */
  lemma {:induction false} GateCanBeFreed(f: Faults, s: State, c: CallId) returns (t: State)
    requires Inv(s) && c in s.calls && InGate(s.calls[c].pc)
    ensures Inv(t) && Reaches(Steps(f), s, t) && Moved(s, t, c) && !InGate(t.calls[c].pc)
    ensures s.calls[c].envelope !in t.gates
    decreases Rank(s.calls[c].pc)
  {
    t := Advance(f, s, c);
    if InGate(t.calls[c].pc) {
      var u := GateCanBeFreed(f, t, c);
      RunsJoin(Steps(f), s, t, u);
      t := u;
    }
  }

  /** In every reachable state, under every fault, each call can be brought to its answer:
      by its own steps once the gate it may wait for has been freed by its holder's. */
  lemma {:induction false} CallCanFinish(f: Faults, s: State, c: CallId) returns (t: State)
    requires Inv(s) && c in s.calls
    ensures Reaches(Steps(f), s, t) && c in t.calls && t.calls[c].pc.Finished?
    decreases Rank(s.calls[c].pc)
  {
    if s.calls[c].pc.Finished? {
      t := s;
      Stays(Steps(f), s);
    } else {
      var open := s;
      Stays(Steps(f), s);
      if s.calls[c].pc.Queued? && s.calls[c].envelope in s.gates {
        open := GateCanBeFreed(f, s, s.gates[s.calls[c].envelope]);
      }
      var next := Advance(f, open, c);
      t := CallCanFinish(f, next, c);
      RunsJoin(Steps(f), open, next, t);
      RunsJoin(Steps(f), s, open, t);
    }
  }

  /** However a run has gone, no restart is needed to bring a call to its answer. */
  lemma NoCallIsStuck(f: Faults, s: State, c: CallId) returns (t: State)
    requires Reaches(Steps(f), INIT, s) && c in s.calls
    ensures Reaches(Steps(f.(restarts := false)), s, t) && c in t.calls && t.calls[c].pc.Finished?
  {
    var run :| RunFrom(Steps(f), INIT, run) == Some(s);
    RunKeeps(f, INIT, run, s);
    t := CallCanFinish(f.(restarts := false), s, c);
  }
}
