/** No ack without a launched process and a written row, under every fault. */
module GatewayProvenance {
  import opened Wrappers
  import opened Runs
  import opened Gateway

  ghost predicate LaunchedAs(procs: map<ProcId, Process>, sid: string, envelope: string) {
    exists p :: p in procs && procs[p].envelope == envelope && Sid(procs[p]) == sid
  }

  /** The session id was written to the register for this envelope, after a process of
      the envelope was launched under it. */
  ghost predicate Backed(s: State, sid: string, envelope: string) {
    (sid, envelope) in s.persisted && LaunchedAs(s.procs, sid, envelope)
  }

  ghost predicate HeldBacked(s: State, held: Option<string>, envelope: string) {
    held.Some? ==> Backed(s, held.value, envelope)
  }

  ghost predicate Launched(s: State, p: ProcId, envelope: string) {
    p in s.procs && s.procs[p].envelope == envelope
  }

  ghost predicate CallBacked(s: State, call: Call) {
    var e := call.envelope;
    match call.pc
    case Arrived => true
    case Queued(known) => HeldBacked(s, known, e)
    case Holding(known) => HeldBacked(s, known, e)
    case Fetched(sid) => Backed(s, sid, e)
    case Probing(sid, _) => Backed(s, sid, e)
    case Spawning(_) => true
    case Spawned(_, p) => Launched(s, p, e)
    case Persisted(p) => Launched(s, p, e) && (Sid(s.procs[p]), e) in s.persisted
    case Registered(_, p) => Launched(s, p, e)
    case Stopping(_) => true
    case Leaving(result) => HeldBacked(s, result, e)
    case Acking(sid) => Backed(s, sid, e)
    case Finished(reply) =>
      reply.Accepted? ==> call.kind.Deliver? && reply.ack in s.acks && reply.ack.deliveryId == call.kind.deliveryId
  }

  /** With stable delivery ids, an id determines its envelope. */
  ghost predicate StableId(f: Faults, id: string, envelope: string) {
    !f.foreignIds ==> id == "d-" + envelope
  }

  ghost predicate Inv(f: Faults, s: State) {
    && (forall sid :: sid in s.sessions ==> Backed(s, sid, s.sessions[sid]))
    && (forall c :: c in s.calls ==> CallBacked(s, s.calls[c]))
    && (forall c :: c in s.calls && s.calls[c].kind.Deliver? ==>
         StableId(f, s.calls[c].kind.deliveryId, s.calls[c].envelope))
    && (forall id :: id in s.cache ==> s.cache[id] in s.acks && s.cache[id].deliveryId == id)
    && (forall a :: a in s.acks ==> Backed(s, a.sessionId, a.envelopeId) && StableId(f, a.deliveryId, a.envelopeId))
    && |s.cache| <= MAX_CACHED_DELIVERIES
  }

  /** History only grows: no process, row write or ack is ever forgotten. */
  ghost predicate Remembers(s: State, t: State) {
    && s.persisted <= t.persisted && s.acks <= t.acks
    && (forall p | p in s.procs ::
          p in t.procs && t.procs[p].envelope == s.procs[p].envelope && t.procs[p].pid == s.procs[p].pid)
  }

  lemma BackedStays(s: State, t: State, sid: string, envelope: string)
    requires Remembers(s, t) && Backed(s, sid, envelope)
    ensures Backed(t, sid, envelope)
  {
    var p :| p in s.procs && s.procs[p].envelope == envelope && Sid(s.procs[p]) == sid;
    assert p in t.procs && Sid(t.procs[p]) == sid;
  }

  lemma CallBackedStays(s: State, t: State, call: Call)
    requires Remembers(s, t) && CallBacked(s, call)
    ensures CallBacked(t, call)
  {
    match call.pc
    case Queued(known) => if known.Some? { BackedStays(s, t, known.value, call.envelope); }
    case Holding(known) => if known.Some? { BackedStays(s, t, known.value, call.envelope); }
    case Fetched(sid) => BackedStays(s, t, sid, call.envelope);
    case Probing(sid, _) => BackedStays(s, t, sid, call.envelope);
    case Leaving(result) => if result.Some? { BackedStays(s, t, result.value, call.envelope); }
    case Acking(sid) => BackedStays(s, t, sid, call.envelope);
    case _ =>
  }

  /** One call moved; rows are old or were just written for it. */
  lemma CallStepKeeps(f: Faults, s: State, t: State, c: CallId)
    requires Inv(f, s) && Remembers(s, t) && c in t.calls && t.calls == s.calls[c := t.calls[c]]
    requires CallBacked(t, t.calls[c])
    requires t.calls[c].kind.Deliver? ==> StableId(f, t.calls[c].kind.deliveryId, t.calls[c].envelope)
    requires forall sid | sid in t.sessions ::
               (sid in s.sessions && s.sessions[sid] == t.sessions[sid]) || Backed(t, sid, t.sessions[sid])
    requires t.cache == s.cache && t.acks == s.acks
    ensures Inv(f, t)
  {
    forall x | x in t.calls ensures CallBacked(t, t.calls[x]) {
      if x != c { CallBackedStays(s, t, s.calls[x]); }
    }
    forall sid | sid in t.sessions ensures Backed(t, sid, t.sessions[sid]) {
      if sid in s.sessions && s.sessions[sid] == t.sessions[sid] { BackedStays(s, t, sid, t.sessions[sid]); }
    }
    forall a | a in t.acks ensures Backed(t, a.sessionId, a.envelopeId) {
      BackedStays(s, t, a.sessionId, a.envelopeId);
    }
  }

  lemma RowsAfterWrite(s: State, e: string, row: Option<string>, sid: string)
    ensures var rows := if row.Some? then RekeyRow(s.sessions, e, sid) else InsertRow(s.sessions, e, sid);
            rows.Some? ==> forall k :: k in rows.value ==>
              (k in s.sessions && rows.value[k] == s.sessions[k]) || (k == sid && rows.value[k] == e)
  {
  }

  lemma WriteKeeps(f: Faults, s: State, t: State, c: CallId, p: ProcId, sid: string)
    requires Inv(f, s) && c in s.calls && Launched(s, p, s.calls[c].envelope) && sid == Sid(s.procs[p])
    requires c in t.calls && t.calls == s.calls[c := s.calls[c].(pc := t.calls[c].pc)]
    requires t.calls[c].pc in {Persisted(p), Stopping(p), Leaving(Some(sid)), Leaving(None)}
    requires t.persisted == s.persisted + {(sid, s.calls[c].envelope)}
    requires t.procs == s.procs && t.cache == s.cache && t.acks == s.acks
    requires forall k | k in t.sessions ::
               (k in s.sessions && t.sessions[k] == s.sessions[k]) || (k == sid && t.sessions[k] == s.calls[c].envelope)
    ensures Inv(f, t)
  {
    assert LaunchedAs(t.procs, sid, s.calls[c].envelope);
    CallStepKeeps(f, s, t, c);
  }

  /** Only the call's place (and the gates) change; it may hold what it held or what it read. */
  lemma PlaceKeeps(f: Faults, s: State, t: State, c: CallId)
    requires Inv(f, s) && c in s.calls && c in t.calls
    requires t.calls == s.calls[c := s.calls[c].(pc := t.calls[c].pc)] && CallBacked(s, t.calls[c])
    requires t.sessions == s.sessions && t.procs == s.procs && t.persisted == s.persisted
    requires t.cache == s.cache && t.acks == s.acks
    ensures Inv(f, t)
  {
    assert Remembers(s, t);
    CallBackedStays(s, t, t.calls[c]);
    CallStepKeeps(f, s, t, c);
  }

  /** A call that gives up holds nothing. */
  lemma GiveUpKeeps(f: Faults, s: State, c: CallId, pc: Pc)
    requires Inv(f, s) && c in s.calls && (pc.Stopping? || pc == Leaving(None))
    ensures Inv(f, Move(s, c, pc))
  {
    PlaceKeeps(f, s, Move(s, c, pc), c);
  }

  lemma DeliverPersistKeeps(f: Faults, s: State, c: CallId, write: RowWrite)
    requires Inv(f, s) && DeliverPersistStep(s, c, write).Some?
    ensures Inv(f, DeliverPersistStep(s, c, write).value)
  {
    var t := DeliverPersistStep(s, c, write).value;
    var Call(_, e, Spawned(row, p)) := s.calls[c];
    assert CallBacked(s, s.calls[c]);
    if t == Move(s, c, Stopping(p)) {
      GiveUpKeeps(f, s, c, Stopping(p));
    } else {
      RowsAfterWrite(s, e, row, Sid(s.procs[p]));
      WriteKeeps(f, s, t, c, p, Sid(s.procs[p]));
    }
  }

  lemma ResumePersistKeeps(f: Faults, s: State, c: CallId, write: RowWrite)
    requires Inv(f, s) && ResumePersistStep(f, s, c, write).Some?
    ensures Inv(f, ResumePersistStep(f, s, c, write).value)
  {
    var t := ResumePersistStep(f, s, c, write).value;
    var Call(_, e, Registered(row, p)) := s.calls[c];
    assert CallBacked(s, s.calls[c]);
    if t == Move(s, c, Leaving(None)) {
      GiveUpKeeps(f, s, c, Leaving(None));
    } else {
      RowsAfterWrite(s, e, Some(""), Sid(s.procs[p]));
      WriteKeeps(f, s, t, c, p, Sid(s.procs[p]));
    }
  }

  lemma SendAckKeeps(f: Faults, s: State, c: CallId)
    requires Inv(f, s) && SendAckStep(s, c).Some?
    ensures Inv(f, SendAckStep(s, c).value)
  {
    var t := SendAckStep(s, c).value;
    assert CallBacked(s, s.calls[c]);
    forall x | x in t.calls ensures CallBacked(t, t.calls[x]) {
      if x != c { CallBackedStays(s, t, s.calls[x]); }
    }
    forall sid | sid in t.sessions ensures Backed(t, sid, t.sessions[sid]) {
      BackedStays(s, t, sid, t.sessions[sid]);
    }
    forall a | a in t.acks ensures Backed(t, a.sessionId, a.envelopeId) && StableId(f, a.deliveryId, a.envelopeId) {
      BackedStays(s, t, a.sessionId, a.envelopeId);
    }
  }

  /** A process event or a restart: calls keep their place or are refused. */
  lemma EventKeeps(f: Faults, s: State, t: State)
    requires Inv(f, s) && Remembers(s, t) && t.sessions == s.sessions && t.acks == s.acks
    requires t.cache == s.cache || t.cache == map[]
    requires t.calls.Keys == s.calls.Keys
    requires forall c :: c in s.calls ==> t.calls[c] == s.calls[c] || t.calls[c] == s.calls[c].(pc := Finished(Refused))
    ensures Inv(f, t)
  {
    forall x | x in t.calls ensures CallBacked(t, t.calls[x]) {
      CallBackedStays(s, t, s.calls[x]);
    }
    forall sid | sid in t.sessions ensures Backed(t, sid, t.sessions[sid]) {
      BackedStays(s, t, sid, t.sessions[sid]);
    }
    forall a | a in t.acks ensures Backed(t, a.sessionId, a.envelopeId) {
      BackedStays(s, t, a.sessionId, a.envelopeId);
    }
  }

  lemma CheckCacheKeeps(f: Faults, s: State, c: CallId)
    requires Inv(f, s) && CheckCacheStep(s, c).Some?
    ensures Inv(f, CheckCacheStep(s, c).value)
  {
    assert CallBacked(s, s.calls[c]);
    PlaceKeeps(f, s, CheckCacheStep(s, c).value, c);
  }

  lemma FirstReadKeeps(f: Faults, s: State, c: CallId, found: Option<string>, ok: bool)
    requires Inv(f, s) && FirstReadStep(s, c, found, ok).Some?
    ensures Inv(f, FirstReadStep(s, c, found, ok).value)
  {
    assert CallBacked(s, s.calls[c]);
    PlaceKeeps(f, s, FirstReadStep(s, c, found, ok).value, c);
  }

  lemma TakeGateKeeps(f: Faults, s: State, c: CallId)
    requires Inv(f, s) && TakeGateStep(s, c).Some?
    ensures Inv(f, TakeGateStep(s, c).value)
  {
    assert CallBacked(s, s.calls[c]);
    PlaceKeeps(f, s, TakeGateStep(s, c).value, c);
  }

  lemma FetchedIsBacked(f: Faults, s: State, c: CallId, found: Option<string>, ok: bool)
    requires Inv(f, s) && FetchStep(f, s, c, found, ok).Some?
    ensures CallBacked(s, FetchStep(f, s, c, found, ok).value.calls[c])
  {
    assert CallBacked(s, s.calls[c]);
  }

  lemma FetchKeeps(f: Faults, s: State, c: CallId, found: Option<string>, ok: bool)
    requires Inv(f, s) && FetchStep(f, s, c, found, ok).Some?
    ensures Inv(f, FetchStep(f, s, c, found, ok).value)
  {
    FetchedIsBacked(f, s, c, found, ok);
    PlaceKeeps(f, s, FetchStep(f, s, c, found, ok).value, c);
  }

  lemma LookUpKeeps(f: Faults, s: State, c: CallId)
    requires Inv(f, s) && LookUpStep(s, c).Some?
    ensures Inv(f, LookUpStep(s, c).value)
  {
    assert CallBacked(s, s.calls[c]);
    PlaceKeeps(f, s, LookUpStep(s, c).value, c);
  }

  lemma ProbeKeeps(f: Faults, s: State, c: CallId)
    requires Inv(f, s) && ProbeStep(s, c).Some?
    ensures Inv(f, ProbeStep(s, c).value)
  {
    assert CallBacked(s, s.calls[c]);
    PlaceKeeps(f, s, ProbeStep(s, c).value, c);
  }

  lemma DeliverRegisterKeeps(f: Faults, s: State, c: CallId)
    requires Inv(f, s) && DeliverRegisterStep(s, c).Some?
    ensures Inv(f, DeliverRegisterStep(s, c).value)
  {
    assert CallBacked(s, s.calls[c]);
    assert LaunchedAs(s.procs, Sid(s.procs[s.calls[c].pc.proc]), s.calls[c].envelope);
    PlaceKeeps(f, s, DeliverRegisterStep(s, c).value, c);
  }

  lemma ResumeRegisterKeeps(f: Faults, s: State, c: CallId)
    requires Inv(f, s) && ResumeRegisterStep(s, c).Some?
    ensures Inv(f, ResumeRegisterStep(s, c).value)
  {
    assert CallBacked(s, s.calls[c]);
    PlaceKeeps(f, s, ResumeRegisterStep(s, c).value, c);
  }

  lemma StopReturnsKeeps(f: Faults, s: State, c: CallId)
    requires Inv(f, s) && StopReturnsStep(s, c).Some?
    ensures Inv(f, StopReturnsStep(s, c).value)
  {
    assert CallBacked(s, s.calls[c]);
    PlaceKeeps(f, s, StopReturnsStep(s, c).value, c);
  }

  lemma ReleaseGateKeeps(f: Faults, s: State, c: CallId)
    requires Inv(f, s) && ReleaseGateStep(s, c).Some?
    ensures Inv(f, ReleaseGateStep(s, c).value)
  {
    assert CallBacked(s, s.calls[c]);
    PlaceKeeps(f, s, ReleaseGateStep(s, c).value, c);
  }

  lemma LaunchKeeps(f: Faults, s: State, c: CallId, p: ProcId, proc: Process, t: State)
    requires Inv(f, s) && c in s.calls && s.calls[c].pc.Spawning? && p !in s.procs
    requires proc.envelope == s.calls[c].envelope
    requires t == Move(s, c, Spawned(s.calls[c].pc.row, p)).(procs := s.procs[p := proc])
    ensures Inv(f, t)
  {
    assert Remembers(s, t);
    assert CallBacked(t, t.calls[c]);
    CallStepKeeps(f, s, t, c);
  }

  lemma SpawnKeeps(f: Faults, s: State, c: CallId, launch: Launch)
    requires Inv(f, s) && SpawnStep(f, s, c, launch).Some?
    ensures Inv(f, SpawnStep(f, s, c, launch).value)
  {
    var t := SpawnStep(f, s, c, launch).value;
    if launch.LaunchFails? || launch.pid <= 0 {
      PlaceKeeps(f, s, t, c);
    } else {
      LaunchKeeps(f, s, c, launch.proc, Process(s.calls[c].envelope, launch.pid, true), t);
    }
  }

  lemma BeginKeeps(f: Faults, s: State, a: Action)
    requires Inv(f, s) && Step(f, s, a).Some? && (a.BeginDeliver? || a.BeginResume?)
    ensures Inv(f, Step(f, s, a).value)
  {
    CallStepKeeps(f, s, Step(f, s, a).value, a.call);
  }

  lemma PersistKeeps(f: Faults, s: State, c: CallId, write: RowWrite)
    requires Inv(f, s) && PersistStep(f, s, c, write).Some?
    ensures Inv(f, PersistStep(f, s, c, write).value)
  {
    if s.calls[c].kind.Deliver? { DeliverPersistKeeps(f, s, c, write); } else { ResumePersistKeeps(f, s, c, write); }
  }

  lemma RegisterKeeps(f: Faults, s: State, c: CallId)
    requires Inv(f, s) && RegisterStep(s, c).Some?
    ensures Inv(f, RegisterStep(s, c).value)
  {
    if s.calls[c].kind.Deliver? { DeliverRegisterKeeps(f, s, c); } else { ResumeRegisterKeeps(f, s, c); }
  }

  lemma EventStepKeeps(f: Faults, s: State, a: Action)
    requires Inv(f, s) && Step(f, s, a).Some? && (a.Exit? || a.CleanUp? || a.Restart?)
    ensures Inv(f, Step(f, s, a).value)
  {
    EventKeeps(f, s, Step(f, s, a).value);
  }

  lemma StepKeeps(f: Faults, s: State, a: Action)
    requires Inv(f, s) && Step(f, s, a).Some?
    ensures Inv(f, Step(f, s, a).value)
  {
    match a
    case BeginDeliver(_, _, _, _) => BeginKeeps(f, s, a);
    case BeginResume(_, _) => BeginKeeps(f, s, a);
    case CheckCache(c) => CheckCacheKeeps(f, s, c);
    case FirstRead(c, found, ok) => FirstReadKeeps(f, s, c, found, ok);
    case TakeGate(c) => TakeGateKeeps(f, s, c);
    case Fetch(c, found, ok) => FetchKeeps(f, s, c, found, ok);
    case LookUp(c) => LookUpKeeps(f, s, c);
    case Probe(c) => ProbeKeeps(f, s, c);
    case Spawn(c, launch) => SpawnKeeps(f, s, c, launch);
    case Persist(c, write) => PersistKeeps(f, s, c, write);
    case Register(c) => RegisterKeeps(f, s, c);
    case StopReturns(c) => StopReturnsKeeps(f, s, c);
    case ReleaseGate(c) => ReleaseGateKeeps(f, s, c);
    case SendAck(c) => SendAckKeeps(f, s, c);
    case _ => EventStepKeeps(f, s, a);
  }

  lemma {:induction false} RunKeeps(f: Faults, s: State, run: seq<Action>)
    requires Inv(f, s) && RunFrom(Steps(f), s, run).Some?
    ensures Inv(f, RunFrom(Steps(f), s, run).value)
    decreases |run|
  {
    if run == [] {
    } else {
      StepKeeps(f, s, run[0]);
      RunKeeps(f, Step(f, s, run[0]).value, run[1..]);
    }
  }

  /** Calls are never forgotten or renamed, and acks stay. */
  ghost predicate CallsKept(s: State, t: State) {
    && s.acks <= t.acks
    && forall c | c in s.calls ::
         c in t.calls && t.calls[c].envelope == s.calls[c].envelope && t.calls[c].kind == s.calls[c].kind
  }

  lemma MoveKeepsCalls(s: State, t: State, c: CallId)
    requires c in s.calls && c in t.calls && t.calls == s.calls[c := s.calls[c].(pc := t.calls[c].pc)]
    requires s.acks <= t.acks
    ensures CallsKept(s, t)
  {
  }

  lemma SpawnKeepsCalls(f: Faults, s: State, c: CallId, launch: Launch)
    requires SpawnStep(f, s, c, launch).Some?
    ensures CallsKept(s, SpawnStep(f, s, c, launch).value)
  {
    MoveKeepsCalls(s, SpawnStep(f, s, c, launch).value, c);
  }

  lemma DeliverPersistKeepsCalls(s: State, c: CallId, write: RowWrite)
    requires DeliverPersistStep(s, c, write).Some?
    ensures CallsKept(s, DeliverPersistStep(s, c, write).value)
  {
    MoveKeepsCalls(s, DeliverPersistStep(s, c, write).value, c);
  }

  lemma ResumePersistKeepsCalls(s: State, f: Faults, c: CallId, write: RowWrite)
    requires ResumePersistStep(f, s, c, write).Some?
    ensures CallsKept(s, ResumePersistStep(f, s, c, write).value)
  {
    MoveKeepsCalls(s, ResumePersistStep(f, s, c, write).value, c);
  }

  lemma DeliverRegisterKeepsCalls(s: State, c: CallId)
    requires DeliverRegisterStep(s, c).Some?
    ensures CallsKept(s, DeliverRegisterStep(s, c).value)
  {
    MoveKeepsCalls(s, DeliverRegisterStep(s, c).value, c);
  }

  lemma ResumeRegisterKeepsCalls(s: State, c: CallId)
    requires ResumeRegisterStep(s, c).Some?
    ensures CallsKept(s, ResumeRegisterStep(s, c).value)
  {
    MoveKeepsCalls(s, ResumeRegisterStep(s, c).value, c);
  }

  lemma BeginStepKeepsCalls(f: Faults, s: State, a: Action)
    requires a.BeginDeliver? || a.BeginResume? || a.CheckCache? || a.FirstRead?
    requires Step(f, s, a).Some?
    ensures CallsKept(s, Step(f, s, a).value)
  {
  }

  lemma FetchKeepsCalls(f: Faults, s: State, c: CallId, found: Option<string>, ok: bool)
    requires FetchStep(f, s, c, found, ok).Some?
    ensures CallsKept(s, FetchStep(f, s, c, found, ok).value)
  {
    MoveKeepsCalls(s, FetchStep(f, s, c, found, ok).value, c);
  }

  lemma GateStepKeepsCalls(f: Faults, s: State, a: Action)
    requires a.TakeGate? || a.LookUp? || a.Probe?
    requires Step(f, s, a).Some?
    ensures CallsKept(s, Step(f, s, a).value)
  {
    MoveKeepsCalls(s, Step(f, s, a).value, a.call);
  }

  lemma LateStepKeepsCalls(f: Faults, s: State, a: Action)
    requires a.StopReturns? || a.ReleaseGate? || a.SendAck? || a.Exit? || a.CleanUp? || a.Restart?
    requires Step(f, s, a).Some?
    ensures CallsKept(s, Step(f, s, a).value)
  {
  }

  lemma StepKeepsCalls(f: Faults, s: State, a: Action)
    requires Step(f, s, a).Some?
    ensures CallsKept(s, Step(f, s, a).value)
  {
    if a.BeginDeliver? || a.BeginResume? || a.CheckCache? || a.FirstRead? {
      BeginStepKeepsCalls(f, s, a);
    } else if a.TakeGate? || a.LookUp? || a.Probe? {
      GateStepKeepsCalls(f, s, a);
    } else if a.Fetch? {
      FetchKeepsCalls(f, s, a.call, a.found, a.ok);
    } else if a.Spawn? {
      SpawnKeepsCalls(f, s, a.call, a.launch);
    } else if a.Register? {
      if s.calls[a.call].kind.Deliver? {
        DeliverRegisterKeepsCalls(s, a.call);
      } else {
        ResumeRegisterKeepsCalls(s, a.call);
      }
    } else if a.Persist? {
      if s.calls[a.call].kind.Deliver? { DeliverPersistKeepsCalls(s, a.call, a.write); }
      else { ResumePersistKeepsCalls(s, f, a.call, a.write); }
    } else {
      LateStepKeepsCalls(f, s, a);
    }
  }
}
