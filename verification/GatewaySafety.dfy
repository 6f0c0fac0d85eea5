/** At most one live executor per envelope, in every interleaving. */
module GatewaySafety {
  import opened Wrappers
  import opened Runs
  import opened SessionIds
  import opened Gateway

  /** The session id was built for this envelope. */
  ghost predicate Names(sid: string, envelope: string) {
    exists pid: nat :: sid == SessionIdFromPid(envelope, pid)
  }

  lemma NamesAreExclusive()
    ensures forall sid, e1, e2 :: Names(sid, e1) && Names(sid, e2) ==> e1 == e2
  {
    forall sid, e1, e2 | Names(sid, e1) && Names(sid, e2) ensures e1 == e2 {
      var p1: nat :| sid == SessionIdFromPid(e1, p1);
      var p2: nat :| sid == SessionIdFromPid(e2, p2);
      SessionIdsAreInjective(e1, p1, e2, p2);
    }
  }

  /** A gate is locked exactly while one call of its envelope is inside it. */
  ghost predicate GatesHeld(s: State) {
    && (forall c :: c in s.calls && InGate(s.calls[c].pc) ==>
         s.calls[c].envelope in s.gates && s.gates[s.calls[c].envelope] == c)
    && (forall e :: e in s.gates ==>
         s.gates[e] in s.calls && s.calls[s.gates[e]].envelope == e && InGate(s.calls[s.gates[e]].pc))
  }

  /** Rows carry ids built for their envelope, and an envelope has at most one. */
  ghost predicate RowsSound(sessions: map<string, string>) {
    && (forall sid :: sid in sessions ==> Names(sid, sessions[sid]))
    && (forall a, b :: a in sessions && b in sessions && sessions[a] == sessions[b] ==> a == b)
  }

  ghost predicate RegistrySound(registry: map<string, ProcId>, procs: map<ProcId, Process>) {
    forall sid :: sid in registry ==> registry[sid] in procs && sid == Sid(procs[registry[sid]])
  }

  ghost predicate HasRow(sessions: map<string, string>, sid: string, envelope: string) {
    sid in sessions && sessions[sid] == envelope
  }

  ghost predicate HasSomeRow(sessions: map<string, string>, envelope: string) {
    exists sid :: HasRow(sessions, sid, envelope)
  }

  ghost predicate InRegistry(registry: map<string, ProcId>, p: ProcId, proc: Process) {
    Sid(proc) in registry && registry[Sid(proc)] == p
  }

  /** What a call may rely on where it stands. */
  ghost predicate CallSound(sessions: map<string, string>, registry: map<string, ProcId>,
                            procs: map<ProcId, Process>, call: Call)
  {
    var Call(kind, e, pc) := call;
    match pc
    case Queued(known) => (known.Some? <==> kind.Resume?) && (known.Some? ==> HasSomeRow(sessions, e))
    case Holding(known) => (known.Some? <==> kind.Resume?) && (known.Some? ==> HasSomeRow(sessions, e))
    case Fetched(sid) => HasRow(sessions, sid, e)
    case Probing(sid, _) => HasRow(sessions, sid, e)
    case Spawning(row) => Answers(sessions, e, row) && (kind.Resume? ==> row.Some?)
    case Spawned(row, p) =>
      && Answers(sessions, e, row) && (kind.Resume? ==> row.Some?)
      && p in procs && procs[p].envelope == e
    case Persisted(p) =>
      && kind.Deliver? && p in procs && procs[p].envelope == e
      && HasRow(sessions, Sid(procs[p]), e)
    case Registered(row, p) =>
      && kind.Resume? && row.Some? && Answers(sessions, e, row)
      && p in procs && procs[p].envelope == e && (procs[p].running ==> InRegistry(registry, p, procs[p]))
    case Stopping(p) => p in procs && procs[p].envelope == e
    case _ => true
  }

  ghost predicate CallsSound(s: State) {
    forall c :: c in s.calls ==> CallSound(s.sessions, s.registry, s.procs, s.calls[c])
  }

  /** The register's row of the envelope leads to this process. */
  ghost predicate Anchored(sessions: map<string, string>, registry: map<string, ProcId>, p: ProcId, proc: Process) {
    InRegistry(registry, p, proc) && HasRow(sessions, Sid(proc), proc.envelope)
  }

  /** What the gate's owner says about a running process of its envelope. */
  ghost predicate Vouched(sessions: map<string, string>, registry: map<string, ProcId>,
                          pc: Pc, p: ProcId, proc: Process)
  {
    match pc
    case Probing(_, handle) => Anchored(sessions, registry, p, proc) && handle == Some(p)
    case Spawning(_) => false
    case Spawned(_, q) => p == q
    case Persisted(q) => p == q
    case Registered(_, q) => p == q
    case Stopping(q) => p == q
    case _ => Anchored(sessions, registry, p, proc)
  }

  ghost predicate Accounted(s: State, p: ProcId)
    requires p in s.procs
  {
    var e := s.procs[p].envelope;
    if e in s.gates && s.gates[e] in s.calls
    then Vouched(s.sessions, s.registry, s.calls[s.gates[e]].pc, p, s.procs[p])
    else Anchored(s.sessions, s.registry, p, s.procs[p])
  }

  ghost predicate ExecutorsAccounted(s: State) {
    forall p :: p in s.procs && s.procs[p].running ==> Accounted(s, p)
  }

  ghost predicate Inv(s: State) {
    GatesHeld(s) && RowsSound(s.sessions) && RegistrySound(s.registry, s.procs)
      && CallsSound(s) && ExecutorsAccounted(s)
  }

  ghost predicate Dependable(f: Faults) {
    !f.refetchFails && !f.updateFails && !f.restarts
  }

  lemma InvGivesOneExecutor(s: State)
    requires Inv(s)
    ensures OneExecutor(s)
  {
  }

  /** The position `pc` of call `c` would vouch for every running process of its envelope. */
  ghost predicate VouchedAll(s: State, c: CallId, pc: Pc)
    requires c in s.calls
  {
    forall p | p in s.procs && s.procs[p].running && s.procs[p].envelope == s.calls[c].envelope ::
      Vouched(s.sessions, s.registry, pc, p, s.procs[p])
  }

  /** Nothing that concerns envelope `e` differs between two registers and registries. */
  ghost predicate Agree(e: string, rows: map<string, string>, rows': map<string, string>,
                        registry: map<string, ProcId>, registry': map<string, ProcId>)
  {
    && (forall sid :: HasRow(rows, sid, e) <==> HasRow(rows', sid, e))
    && (forall sid | Names(sid, e) :: (sid in registry <==> sid in registry')
         && (sid in registry ==> registry[sid] == registry'[sid]))
  }

  ghost predicate AgreeElsewhere(e: string, rows: map<string, string>, rows': map<string, string>,
                                 registry: map<string, ProcId>, registry': map<string, ProcId>)
  {
    forall other :: other != e ==> Agree(other, rows, rows', registry, registry')
  }

  ghost predicate Grows(procs: map<ProcId, Process>, procs': map<ProcId, Process>) {
    forall p :: p in procs ==> p in procs' && procs'[p] == procs[p]
  }

  lemma AnswersFrame(e: string, rows: map<string, string>, rows': map<string, string>, found: Option<string>)
    requires forall sid :: HasRow(rows, sid, e) <==> HasRow(rows', sid, e)
    ensures Answers(rows, e, found) == Answers(rows', e, found)
  {
    assert forall sid :: HasRow(rows, sid, e) == (sid in rows && rows[sid] == e);
    assert forall sid :: HasRow(rows', sid, e) == (sid in rows' && rows'[sid] == e);
  }

  lemma CallFrame(call: Call, rows: map<string, string>, rows': map<string, string>,
                  registry: map<string, ProcId>, registry': map<string, ProcId>,
                  procs: map<ProcId, Process>, procs': map<ProcId, Process>)
    requires CallSound(rows, registry, procs, call)
    requires Agree(call.envelope, rows, rows', registry, registry') && Grows(procs, procs')
    ensures CallSound(rows', registry', procs', call)
  {
    match call.pc
    case Spawning(row) => AnswersFrame(call.envelope, rows, rows', row);
    case Spawned(row, p) => AnswersFrame(call.envelope, rows, rows', row);
    case Registered(row, p) =>
      AnswersFrame(call.envelope, rows, rows', row);
      assert Names(Sid(procs[p]), call.envelope);
    case _ =>
  }

  lemma VouchFrame(pc: Pc, p: ProcId, proc: Process, rows: map<string, string>, rows': map<string, string>,
                   registry: map<string, ProcId>, registry': map<string, ProcId>)
    requires Agree(proc.envelope, rows, rows', registry, registry')
    ensures Vouched(rows, registry, pc, p, proc) == Vouched(rows', registry', pc, p, proc)
  {
    assert Names(Sid(proc), proc.envelope);
  }

  lemma UnchangedAgrees(e: string, rows: map<string, string>, registry: map<string, ProcId>)
    ensures AgreeElsewhere(e, rows, rows, registry, registry)
  {
  }

  lemma RegistrationAgrees(rows: map<string, string>, registry: map<string, ProcId>, sid: string, e: string, p: ProcId)
    requires Names(sid, e)
    ensures AgreeElsewhere(e, rows, rows, registry, registry[sid := p])
  {
    NamesAreExclusive();
  }

  /** Inserting the first row of an envelope never meets a duplicate key. */
  lemma InsertSucceeds(rows: map<string, string>, registry: map<string, ProcId>, sid: string, e: string)
    requires RowsSound(rows) && Names(sid, e) && !HasSomeRow(rows, e)
    ensures InsertRow(rows, e, sid).Some?
    ensures var rows' := InsertRow(rows, e, sid).value;
            && RowsSound(rows') && HasRow(rows', sid, e)
            && AgreeElsewhere(e, rows, rows', registry, registry)
  {
    NamesAreExclusive();
    assert forall k :: k in rows && rows[k] == e ==> HasRow(rows, k, e);
  }

  /** Replacing the key of an envelope that has a row always succeeds, and leaves one row. */
  lemma RekeySucceeds(rows: map<string, string>, registry: map<string, ProcId>, sid: string, e: string)
    requires RowsSound(rows) && Names(sid, e) && HasSomeRow(rows, e)
    ensures RekeyRow(rows, e, sid).Some?
    ensures var rows' := RekeyRow(rows, e, sid).value;
            && RowsSound(rows') && HasRow(rows', sid, e)
            && AgreeElsewhere(e, rows, rows', registry, registry)
  {
    NamesAreExclusive();
    var old_ :| HasRow(rows, old_, e);
    var own := set k | k in rows && rows[k] == e;
    assert own == {old_};
    var others := map k | k in rows && rows[k] != e :: rows[k];
    assert sid !in others;
  }

  /** What the owner of a gate knows before it steps. */
  ghost predicate OwnerKnows(s: State, c: CallId) {
    && c in s.calls && InGate(s.calls[c].pc)
    && CallSound(s.sessions, s.registry, s.procs, s.calls[c]) && VouchedAll(s, c, s.calls[c].pc)
    && RowsSound(s.sessions) && RegistrySound(s.registry, s.procs)
  }

  /** A step of call `c`, inside its gate, that changes what concerns its own envelope only. */
  ghost predicate OwnerStep(s: State, t: State, c: CallId)
    requires c in s.calls
  {
    && c in t.calls && InGate(t.calls[c].pc) && t.calls == s.calls[c := s.calls[c].(pc := t.calls[c].pc)]
    && t.gates == s.gates && Grows(s.procs, t.procs)
    && (forall p :: p in t.procs && p !in s.procs ==> t.procs[p].envelope == s.calls[c].envelope)
    && AgreeElsewhere(s.calls[c].envelope, s.sessions, t.sessions, s.registry, t.registry)
    && (t.sessions == s.sessions || HasSomeRow(t.sessions, s.calls[c].envelope))
    && RowsSound(t.sessions) && RegistrySound(t.registry, t.procs)
    && CallSound(t.sessions, t.registry, t.procs, t.calls[c]) && VouchedAll(t, c, t.calls[c].pc)
  }

  lemma OwnerKnowsFromInv(s: State, c: CallId)
    requires Inv(s) && c in s.calls && InGate(s.calls[c].pc)
    ensures OwnerKnows(s, c)
  {
    forall p | p in s.procs && s.procs[p].running && s.procs[p].envelope == s.calls[c].envelope
      ensures Vouched(s.sessions, s.registry, s.calls[c].pc, p, s.procs[p])
    {
      assert Accounted(s, p);
    }
  }

  lemma OwnerStepKeepsCalls(s: State, t: State, c: CallId)
    requires Inv(s) && c in s.calls && InGate(s.calls[c].pc) && OwnerStep(s, t, c)
    ensures GatesHeld(t) && CallsSound(t)
  {
    forall x | x in t.calls && x != c ensures CallSound(t.sessions, t.registry, t.procs, t.calls[x]) {
      if s.calls[x].envelope != s.calls[c].envelope {
        CallFrame(s.calls[x], s.sessions, t.sessions, s.registry, t.registry, s.procs, t.procs);
      }
    }
  }

  lemma OwnerStepKeepsExecutors(s: State, t: State, c: CallId)
    requires Inv(s) && c in s.calls && InGate(s.calls[c].pc) && OwnerStep(s, t, c)
    ensures ExecutorsAccounted(t)
  {
    forall p | p in t.procs && t.procs[p].running ensures Accounted(t, p) {
      var e := t.procs[p].envelope;
      if e != s.calls[c].envelope {
        assert Accounted(s, p);
        VouchFrame(if e in s.gates then s.calls[s.gates[e]].pc else Arrived, p, s.procs[p],
                   s.sessions, t.sessions, s.registry, t.registry);
      }
    }
  }

  lemma OwnerStepKeeps(s: State, t: State, c: CallId)
    requires Inv(s) && c in s.calls && InGate(s.calls[c].pc) && OwnerStep(s, t, c)
    ensures Inv(t)
  {
    OwnerStepKeepsCalls(s, t, c);
    OwnerStepKeepsExecutors(s, t, c);
  }

  /** A step of the gate's owner that reads shared state but changes none of it. */
  lemma PcMoveKeeps(s: State, c: CallId, pc: Pc)
    requires Inv(s) && OwnerKnows(s, c) && InGate(pc)
    requires CallSound(s.sessions, s.registry, s.procs, s.calls[c].(pc := pc)) && VouchedAll(s, c, pc)
    ensures Inv(Move(s, c, pc))
  {
    UnchangedAgrees(s.calls[c].envelope, s.sessions, s.registry);
    OwnerStepKeeps(s, Move(s, c, pc), c);
  }

  lemma FetchKeeps(s: State, f: Faults, c: CallId, found: Option<string>, ok: bool)
    requires Inv(s) && Dependable(f) && FetchStep(f, s, c, found, ok).Some?
    ensures Inv(FetchStep(f, s, c, found, ok).value)
  {
    OwnerKnowsFromInv(s, c);
    PcMoveKeeps(s, c, FetchStep(f, s, c, found, ok).value.calls[c].pc);
  }

  lemma LookUpKeeps(s: State, c: CallId)
    requires Inv(s) && LookUpStep(s, c).Some?
    ensures Inv(LookUpStep(s, c).value)
  {
    OwnerKnowsFromInv(s, c);
    PcMoveKeeps(s, c, LookUpStep(s, c).value.calls[c].pc);
  }

  lemma ProbeKeeps(s: State, c: CallId)
    requires Inv(s) && ProbeStep(s, c).Some?
    ensures Inv(ProbeStep(s, c).value)
  {
    OwnerKnowsFromInv(s, c);
    PcMoveKeeps(s, c, ProbeStep(s, c).value.calls[c].pc);
  }

  lemma StopReturnsKeeps(s: State, c: CallId)
    requires Inv(s) && StopReturnsStep(s, c).Some?
    ensures Inv(StopReturnsStep(s, c).value)
  {
    OwnerKnowsFromInv(s, c);
    PcMoveKeeps(s, c, Leaving(None));
  }

  lemma SpawnIsOwnerStep(s: State, t: State, c: CallId, row: Option<string>, p: ProcId, proc: Process)
    requires OwnerKnows(s, c) && s.calls[c].pc == Spawning(row)
    requires p !in s.procs && proc.envelope == s.calls[c].envelope
    requires t == Move(s, c, Spawned(row, p)).(procs := s.procs[p := proc])
    ensures OwnerStep(s, t, c)
  {
    UnchangedAgrees(s.calls[c].envelope, s.sessions, s.registry);
  }

  lemma SpawnKeeps(f: Faults, s: State, c: CallId, launch: Launch)
    requires Inv(s) && SpawnStep(f, s, c, launch).Some?
    ensures Inv(SpawnStep(f, s, c, launch).value)
  {
    OwnerKnowsFromInv(s, c);
    if launch.LaunchFails? || launch.pid <= 0 {
      PcMoveKeeps(s, c, Leaving(None));
    } else {
      var t, e := SpawnStep(f, s, c, launch).value, s.calls[c].envelope;
      SpawnIsOwnerStep(s, t, c, s.calls[c].pc.row, launch.proc, Process(e, launch.pid, true));
      OwnerStepKeeps(s, t, c);
    }
  }

  /** Writing the row: the new register holds the one row that leads to the new process. */
  lemma RowWriteIsOwnerStep(s: State, t: State, c: CallId, p: ProcId, pc: Pc, rows: map<string, string>)
    requires OwnerKnows(s, c) && p in s.procs && s.procs[p].envelope == s.calls[c].envelope
    requires RowsSound(rows) && HasRow(rows, Sid(s.procs[p]), s.calls[c].envelope)
    requires AgreeElsewhere(s.calls[c].envelope, s.sessions, rows, s.registry, s.registry)
    requires (s.calls[c].kind.Deliver? && s.calls[c].pc.Spawned? && s.calls[c].pc.proc == p
              && (pc == Persisted(p) || pc == Stopping(p)))
          || (s.calls[c].pc.Registered? && s.calls[c].pc.proc == p && pc.Leaving?)
    requires t == Move(s, c, pc).(sessions := rows, persisted := t.persisted)
    ensures OwnerStep(s, t, c)
  {
    assert HasSomeRow(t.sessions, s.calls[c].envelope);
  }

  lemma NewRow(s: State, e: string, row: Option<string>, sid: string)
    requires RowsSound(s.sessions) && Answers(s.sessions, e, row) && Names(sid, e)
    ensures var rows := if row.Some? then RekeyRow(s.sessions, e, sid) else InsertRow(s.sessions, e, sid);
            && rows.Some? && RowsSound(rows.value) && HasRow(rows.value, sid, e)
            && AgreeElsewhere(e, s.sessions, rows.value, s.registry, s.registry)
  {
    if row.Some? {
      assert HasRow(s.sessions, row.value, e);
      RekeySucceeds(s.sessions, s.registry, sid, e);
    } else {
      InsertSucceeds(s.sessions, s.registry, sid, e);
    }
  }

  lemma DeliverPersistKeeps(s: State, c: CallId, write: RowWrite)
    requires Inv(s) && DeliverPersistStep(s, c, write).Some? && s.calls[c].kind.Deliver?
    ensures Inv(DeliverPersistStep(s, c, write).value)
  {
    OwnerKnowsFromInv(s, c);
    var t := DeliverPersistStep(s, c, write).value;
    var Call(_, e, Spawned(row, p)) := s.calls[c];
    if write.Unwritten? {
      PcMoveKeeps(s, c, Stopping(p));
    } else {
      NewRow(s, e, row, Sid(s.procs[p]));
      RowWriteIsOwnerStep(s, t, c, p, t.calls[c].pc, t.sessions);
      OwnerStepKeeps(s, t, c);
    }
  }

  lemma ResumePersistKeeps(s: State, f: Faults, c: CallId, write: RowWrite)
    requires Inv(s) && Dependable(f) && ResumePersistStep(f, s, c, write).Some?
    ensures Inv(ResumePersistStep(f, s, c, write).value)
  {
    OwnerKnowsFromInv(s, c);
    var t := ResumePersistStep(f, s, c, write).value;
    var Call(_, e, Registered(row, p)) := s.calls[c];
    NewRow(s, e, row, Sid(s.procs[p]));
    RowWriteIsOwnerStep(s, t, c, p, t.calls[c].pc, t.sessions);
    OwnerStepKeeps(s, t, c);
  }

  lemma RegistrationIsOwnerStep(s: State, t: State, c: CallId, p: ProcId, pc: Pc, sid: string)
    requires OwnerKnows(s, c) && p in s.procs && s.procs[p].envelope == s.calls[c].envelope && sid == Sid(s.procs[p])
    requires (s.calls[c].pc == Persisted(p) && pc == Leaving(Some(sid)))
          || (s.calls[c].kind.Resume? && s.calls[c].pc.Spawned? && s.calls[c].pc.proc == p
              && pc == Registered(s.calls[c].pc.row, p))
    requires t == Move(s, c, pc).(registry := s.registry[sid := p], watchers := t.watchers)
    ensures OwnerStep(s, t, c)
  {
    RegistrationAgrees(s.sessions, s.registry, sid, s.calls[c].envelope, p);
  }

  lemma RegisterKeeps(s: State, c: CallId)
    requires Inv(s) && RegisterStep(s, c).Some?
    ensures Inv(RegisterStep(s, c).value)
  {
    OwnerKnowsFromInv(s, c);
    var t, p := RegisterStep(s, c).value, s.calls[c].pc.proc;
    RegistrationIsOwnerStep(s, t, c, p, t.calls[c].pc, Sid(s.procs[p]));
    OwnerStepKeeps(s, t, c);
  }

  /** A step outside every gate: one call moves, no process, row or registry slot does. */
  lemma OutsideStepKeeps(s: State, t: State, c: CallId)
    requires Inv(s) && c in t.calls && t.calls == s.calls[c := t.calls[c]] && !InGate(t.calls[c].pc)
    requires c in s.calls ==> !InGate(s.calls[c].pc)
    requires t.gates == s.gates && t.procs == s.procs && t.sessions == s.sessions && t.registry == s.registry
    requires CallSound(t.sessions, t.registry, t.procs, t.calls[c])
    ensures Inv(t)
  {
    forall p | p in t.procs && t.procs[p].running ensures Accounted(t, p) {
      assert Accounted(s, p);
    }
  }

  lemma FirstReadKeeps(s: State, c: CallId, found: Option<string>, ok: bool)
    requires Inv(s) && FirstReadStep(s, c, found, ok).Some?
    ensures Inv(FirstReadStep(s, c, found, ok).value)
  {
    assert found.Some? && ok ==> HasRow(s.sessions, found.value, s.calls[c].envelope);
    OutsideStepKeeps(s, FirstReadStep(s, c, found, ok).value, c);
  }

  lemma TakeGateKeeps(s: State, c: CallId)
    requires Inv(s) && TakeGateStep(s, c).Some?
    ensures Inv(TakeGateStep(s, c).value)
  {
  }

  lemma ReleaseGateKeeps(s: State, c: CallId)
    requires Inv(s) && ReleaseGateStep(s, c).Some?
    ensures Inv(ReleaseGateStep(s, c).value)
  {
  }

  lemma ExitKeeps(s: State, p: ProcId)
    requires Inv(s) && ExitStep(s, p).Some?
    ensures Inv(ExitStep(s, p).value)
  {
  }

  lemma CleanUpKeeps(s: State, sid: string, p: ProcId)
    requires Inv(s) && CleanUpStep(s, sid, p).Some?
    ensures Inv(CleanUpStep(s, sid, p).value)
  {
    NamesAreExclusive();
  }

  lemma StepKeeps(f: Faults, s: State, a: Action)
    requires Inv(s) && Dependable(f) && Step(f, s, a).Some?
    ensures Inv(Step(f, s, a).value)
  {
    match a
    case BeginDeliver(c, e, id, now) => OutsideStepKeeps(s, Step(f, s, a).value, c);
    case BeginResume(c, e) => OutsideStepKeeps(s, Step(f, s, a).value, c);
    case CheckCache(c) => OutsideStepKeeps(s, Step(f, s, a).value, c);
    case FirstRead(c, found, ok) => FirstReadKeeps(s, c, found, ok);
    case TakeGate(c) => TakeGateKeeps(s, c);
    case Fetch(c, found, ok) => FetchKeeps(s, f, c, found, ok);
    case LookUp(c) => LookUpKeeps(s, c);
    case Probe(c) => ProbeKeeps(s, c);
    case Spawn(c, launch) => SpawnKeeps(f, s, c, launch);
    case Persist(c, write) =>
      if s.calls[c].kind.Deliver? { DeliverPersistKeeps(s, c, write); } else { ResumePersistKeeps(s, f, c, write); }
    case Register(c) => RegisterKeeps(s, c);
    case StopReturns(c) => StopReturnsKeeps(s, c);
    case ReleaseGate(c) => ReleaseGateKeeps(s, c);
    case SendAck(c) => OutsideStepKeeps(s, Step(f, s, a).value, c);
    case Exit(p) => ExitKeeps(s, p);
    case CleanUp(sid, p) => CleanUpKeeps(s, sid, p);
    case Restart =>
  }

  lemma {:induction false} RunKeeps(f: Faults, s: State, run: seq<Action>)
    requires Inv(s) && Dependable(f) && RunFrom(Steps(f), s, run).Some?
    ensures Inv(RunFrom(Steps(f), s, run).value)
    decreases |run|
  {
    if run == [] {
    } else {
      StepKeeps(f, s, run[0]);
      RunKeeps(f, Step(f, s, run[0]).value, run[1..]);
    }
  }
}
