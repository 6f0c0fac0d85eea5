/** Which faults the one-executor claim survives: exactly those it does not name. */
module GatewayTheorems {
  import opened Wrappers
  import opened Runs
  import opened SessionIds
  import opened Gateway
  import Safety = GatewaySafety
  import Provenance = GatewayProvenance

  ghost predicate Reachable(f: Faults, s: State) {
    Reaches(Steps(f), INIT, s)
  }

  /** Every state of every run has at most one running executor per envelope. */
  ghost predicate Safe(f: Faults) {
    forall s :: Reachable(f, s) ==> OneExecutor(s)
  }

  /** With dependable store calls and no restart, all interleavings are safe. */
  lemma DependableIsSafe(f: Faults)
    requires Safety.Dependable(f)
    ensures Safe(f)
  {
    forall s | Reachable(f, s) ensures OneExecutor(s) {
      var run :| RunFrom(Steps(f), INIT, run) == Some(s);
      Safety.RunKeeps(f, INIT, run);
      Safety.InvGivesOneExecutor(s);
    }
  }

  /** Call `c` holds its gate and has no live session: it launches a process. */
  lemma Launch(f: Faults, s: State, c: CallId, row: Option<string>, p: ProcId, pid: nat) returns (t: State)
    requires Reachable(f, s) && c in s.calls && s.calls[c].pc == Spawning(row)
    requires p !in s.procs && pid > 0 && PidFree(s.procs, pid)
    ensures Reachable(f, t)
    ensures t == Move(s, c, Spawned(row, p)).(procs := s.procs[p := Process(s.calls[c].envelope, pid, true)])
  {
    t := Move(s, c, Spawned(row, p)).(procs := s.procs[p := Process(s.calls[c].envelope, pid, true)]);
    ReachNext(Steps(f), INIT, s, Spawn(c, Launches(p, pid)), t);
  }

  lemma Enter(f: Faults, s: State, c: CallId) returns (t: State)
    requires Reachable(f, s) && c in s.calls && s.calls[c].pc.Queued? && s.calls[c].envelope !in s.gates
    ensures Reachable(f, t)
    ensures t == Move(s, c, Holding(s.calls[c].pc.known)).(gates := s.gates[s.calls[c].envelope := c])
  {
    t := Move(s, c, Holding(s.calls[c].pc.known)).(gates := s.gates[s.calls[c].envelope := c]);
    ReachNext(Steps(f), INIT, s, TakeGate(c), t);
  }

  /** The fresh delivery of envelope `e` up to the launch. */
  lemma DeliverUpToSpawn(f: Faults, e: string, id: string, pid: nat) returns (t: State)
    requires e != "" && pid > 0 && id != "" && (id == "d-" + e || f.foreignIds)
    ensures Reachable(f, t)
    ensures t == INIT.(calls := map[0 := Call(Deliver(id, 0), e, Spawned(None, 0))], gates := map[e := 0],
                       procs := map[0 := Process(e, pid, true)])
  {
    Stays(Steps(f), INIT);
    var s := INIT.(calls := map[0 := Call(Deliver(id, 0), e, Arrived)]);
    ReachNext(Steps(f), INIT, INIT, BeginDeliver(0, e, id, 0), s);
    var q := Move(s, 0, Queued(None));
    ReachNext(Steps(f), INIT, s, CheckCache(0), q);
    var h := Enter(f, q, 0);
    var w := Move(h, 0, Spawning(None));
    ReachNext(Steps(f), INIT, h, Fetch(0, None, true), w);
    t := Launch(f, w, 0, None, 0, pid);
    assert t.calls == map[0 := Call(Deliver(id, 0), e, Spawned(None, 0))];
  }

  /** The delivery's row is written. */
  lemma DeliveredRow(f: Faults, e: string, id: string, pid: nat) returns (t: State)
    requires e != "" && pid > 0 && id != "" && (id == "d-" + e || f.foreignIds)
    ensures Reachable(f, t)
    ensures var sid := SessionIdFromPid(e, pid);
            t == INIT.(calls := map[0 := Call(Deliver(id, 0), e, Persisted(0))], gates := map[e := 0],
                       procs := map[0 := Process(e, pid, true)], sessions := map[sid := e], persisted := {(sid, e)})
  {
    var sid := SessionIdFromPid(e, pid);
    var s := DeliverUpToSpawn(f, e, id, pid);
    t := Move(s, 0, Persisted(0)).(sessions := s.sessions[sid := e], persisted := s.persisted + {(sid, e)});
    ReachNext(Steps(f), INIT, s, Persist(0, Written), t);
  }

  /** One complete delivery of envelope `e`: row, registry entry and running process. */
  lemma Delivered(f: Faults, e: string, id: string, pid: nat) returns (t: State)
    requires e != "" && pid > 0 && id != "" && (id == "d-" + e || f.foreignIds)
    ensures Reachable(f, t)
    ensures var sid := SessionIdFromPid(e, pid);
            && t.gates == map[] && t.sessions == map[sid := e] && t.registry == map[sid := 0] && t.cache == map[]
            && t.persisted == {(sid, e)}
            && t.calls == map[0 := Call(Deliver(id, 0), e, Acking(sid))] && t.procs == map[0 := Process(e, pid, true)]
  {
    var sid := SessionIdFromPid(e, pid);
    var s := DeliveredRow(f, e, id, pid);
    var s1 := Move(s, 0, Leaving(Some(sid))).(registry := s.registry[sid := 0], watchers := s.watchers + {(sid, 0)});
    ReachNext(Steps(f), INIT, s, Register(0), s1);
    t := Move(s1, 0, Acking(sid)).(gates := s1.gates - {e});
    ReachNext(Steps(f), INIT, s1, ReleaseGate(0), t);
  }

  /** A resume call arrives and makes its first read, before the gate. */
  lemma Ask(f: Faults, s: State, c: CallId, e: string, sid: string) returns (t: State)
    requires Reachable(f, s) && c !in s.calls && e != "" && sid in s.sessions && s.sessions[sid] == e
    ensures Reachable(f, t) && t == s.(calls := s.calls[c := Call(Resume, e, Queued(Some(sid)))])
  {
    var s1 := s.(calls := s.calls[c := Call(Resume, e, Arrived)]);
    ReachNext(Steps(f), INIT, s, BeginResume(c, e), s1);
    t := Move(s1, c, Queued(Some(sid)));
    ReachNext(Steps(f), INIT, s1, FirstRead(c, Some(sid), true), t);
    assert t.calls == s.calls[c := Call(Resume, e, Queued(Some(sid)))];
  }

  lemma ProbeAndLaunch(f: Faults, s: State, c: CallId, sid: string, p: ProcId, pid: nat) returns (t: State)
    requires Reachable(f, s) && c in s.calls && s.calls[c].pc == Fetched(sid)
    requires p !in s.procs && pid > 0 && PidFree(s.procs, pid)
    requires sid in s.registry ==> s.registry[sid] in s.procs && !s.procs[s.registry[sid]].running
    ensures Reachable(f, t)
    ensures t == Move(s, c, Spawned(Some(sid), p)).(procs := s.procs[p := Process(s.calls[c].envelope, pid, true)])
  {
    var s1 := Move(s, c, Probing(sid, if sid in s.registry then Some(s.registry[sid]) else None));
    ReachNext(Steps(f), INIT, s, LookUp(c), s1);
    var s2 := Move(s1, c, Spawning(Some(sid)));
    ReachNext(Steps(f), INIT, s1, Probe(c), s2);
    t := Launch(f, s2, c, Some(sid), p, pid);
    assert t.calls == s.calls[c := s.calls[c].(pc := Spawned(Some(sid), p))];
  }

  /** The resume call takes the gate, ends up with session `sid`, finds it dead, and spawns. */
  lemma SpawnAgain(f: Faults, s: State, c: CallId, sid: string, fetched: bool, p: ProcId, pid: nat) returns (t: State)
    requires Reachable(f, s) && c in s.calls && s.calls[c].kind.Resume? && s.calls[c].pc.Queued?
    requires s.calls[c].pc.known.Some? && s.calls[c].envelope !in s.gates
    requires if fetched then sid in s.sessions && s.sessions[sid] == s.calls[c].envelope
             else f.refetchFails && s.calls[c].pc.known.value == sid
    requires sid in s.registry ==> s.registry[sid] in s.procs && !s.procs[s.registry[sid]].running
    requires p !in s.procs && pid > 0 && PidFree(s.procs, pid)
    ensures Reachable(f, t)
    ensures t == Move(s, c, Spawned(Some(sid), p)).(gates := s.gates[s.calls[c].envelope := c],
                                                    procs := s.procs[p := Process(s.calls[c].envelope, pid, true)])
  {
    var s1 := Enter(f, s, c);
    var s2 := Move(s1, c, Fetched(sid));
    ReachNext(Steps(f), INIT, s1, Fetch(c, if fetched then Some(sid) else None, fetched), s2);
    t := ProbeAndLaunch(f, s2, c, sid, p, pid);
    assert t.calls == s.calls[c := s.calls[c].(pc := Spawned(Some(sid), p))];
  }

  /** A delivered envelope whose executor has exited. */
  lemma DeliveredThenExited(f: Faults, e: string, pid: nat) returns (t: State)
    requires e != "" && pid > 0
    ensures Reachable(f, t)
    ensures var sid := SessionIdFromPid(e, pid);
            && t.gates == map[] && t.calls.Keys == {0} && t.sessions == map[sid := e]
            && t.registry == map[sid := 0] && t.procs == map[0 := Process(e, pid, false)]
  {
    var s := Delivered(f, e, "d-" + e, pid);
    t := s.(procs := s.procs[0 := s.procs[0].(running := false)]);
    ReachNext(Steps(f), INIT, s, Exit(0), t);
  }

  /** The resume call registers its process, before it writes the row. */
  lemma Join(f: Faults, s: State, c: CallId, row: Option<string>, p: ProcId) returns (t: State)
    requires Reachable(f, s) && c in s.calls && s.calls[c].kind.Resume?
      && s.calls[c].pc == Spawned(row, p) && p in s.procs
    ensures Reachable(f, t)
    ensures t == Move(s, c, Registered(row, p)).(registry := s.registry[Sid(s.procs[p]) := p],
                                                 watchers := s.watchers + {(Sid(s.procs[p]), p)})
  {
    t := Move(s, c, Registered(row, p)).(registry := s.registry[Sid(s.procs[p]) := p],
                                         watchers := s.watchers + {(Sid(s.procs[p]), p)});
    ReachNext(Steps(f), INIT, s, Register(c), t);
  }

  /** A restart forgets the registry while the executor lives on. */
  lemma RestartIsUnsafe(f: Faults)
    requires f.restarts
    ensures !Safe(f)
  {
    var sid := SessionIdFromPid("e", 7);
    var s := Delivered(f, "e", "d-" + "e", 7);
    var s1 := RestartStep(s);
    ReachNext(Steps(f), INIT, s, Restart, s1);
    var s2 := Ask(f, s1, 1, "e", sid);
    var s3 := SpawnAgain(f, s2, 1, sid, true, 1, 8);
    assert s3.procs[0].running && s3.procs[1].running;
    assert !OneExecutor(s3);
  }

  /** A resume call has registered process 1; the row still names the dead session. */
  lemma ResumedUpToRow(f: Faults, c: CallId, s: State, sid: string) returns (t: State)
    requires Reachable(f, s) && c in s.calls && s.calls[c] == Call(Resume, "e", Queued(Some(sid)))
    requires sid == SessionIdFromPid("e", 7) && s.gates == map[] && s.sessions == map[sid := "e"]
    requires s.registry == map[sid := 0] && s.procs == map[0 := Process("e", 7, false)]
    ensures Reachable(f, t) && t.calls == s.calls[c := Call(Resume, "e", Registered(Some(sid), 1))]
    ensures t.gates == map["e" := c] && t.sessions == s.sessions
    ensures t.procs == map[0 := Process("e", 7, false), 1 := Process("e", 8, true)]
    ensures t.registry == map[sid := 0, SessionIdFromPid("e", 8) := 1]
  {
    SessionIdsAreInjective("e", 7, "e", 8);
    var s1 := SpawnAgain(f, s, c, sid, true, 1, 8);
    t := Join(f, s1, c, Some(sid), 1);
    assert t.procs == map[0 := Process("e", 7, false), 1 := Process("e", 8, true)];
  }

  /** The row still names a dead session while process 1 runs: the next resume launches process 2. */
  lemma LeaveAndSpawnTwice(f: Faults, s: State, sid: string)
    requires Reachable(f, s) && 1 in s.calls && s.calls[1].envelope == "e" && s.calls[1].pc == Leaving(None)
    requires s.gates == map["e" := 1] && 2 !in s.calls && sid in s.sessions && s.sessions[sid] == "e"
    requires sid in s.registry && s.registry[sid] in s.procs && !s.procs[s.registry[sid]].running
    requires 1 in s.procs && s.procs[1] == Process("e", 8, true) && 2 !in s.procs && PidFree(s.procs, 9)
    ensures !Safe(f)
  {
    var s1 := Move(s, 1, Finished(Refused)).(gates := s.gates - {"e"});
    ReachNext(Steps(f), INIT, s, ReleaseGate(1), s1);
    var s2 := Ask(f, s1, 2, "e", sid);
    var s3 := SpawnAgain(f, s2, 2, sid, true, 2, 9);
    assert s3.procs[1].running && s3.procs[2].running;
    assert !OneExecutor(s3);
  }

  /** A delivery, its executor's exit, and a resume that has registered a new one. */
  lemma ResumedAfterExit(f: Faults, sid: string) returns (t: State)
    requires sid == SessionIdFromPid("e", 7)
    ensures Reachable(f, t) && t.calls.Keys == {0, 1} && t.calls[1] == Call(Resume, "e", Registered(Some(sid), 1))
    ensures t.gates == map["e" := 1] && t.sessions == map[sid := "e"]
    ensures t.procs == map[0 := Process("e", 7, false), 1 := Process("e", 8, true)]
    ensures t.registry == map[sid := 0, SessionIdFromPid("e", 8) := 1]
  {
    var s := DeliveredThenExited(f, "e", 7);
    var s1 := Ask(f, s, 1, "e", sid);
    t := ResumedUpToRow(f, 1, s1, sid);
  }

  /** Resume's process stays up when its row is not written, and the next resume cannot see it. */
  lemma FailingUpdateIsUnsafe(f: Faults)
    requires f.updateFails
    ensures !Safe(f)
  {
    var sid := SessionIdFromPid("e", 7);
    SessionIdsAreInjective("e", 7, "e", 8);
    var s := ResumedAfterExit(f, sid);
    var t := Move(s, 1, Leaving(None));
    ReachNext(Steps(f), INIT, s, Persist(1, Unwritten), t);
    LeaveAndSpawnTwice(f, t, sid);
  }

  lemma RekeyOnly(k: string, e: string, sid: string)
    ensures RekeyRow(map[k := e], e, sid) == Some(map[sid := e])
  {
    var rows := map[k := e];
    assert (set j | j in rows && rows[j] == e) == {k};
    assert (map j | j in rows && rows[j] != e :: rows[j]) == map[];
  }

  lemma RowReplaced(f: Faults, s: State, c: CallId, sid: string) returns (t: State)
    requires Reachable(f, s) && c in s.calls && s.calls[c] == Call(Resume, "e", Registered(Some(sid), 1))
    requires s.sessions == map[sid := "e"] && 1 in s.procs && s.procs[1] == Process("e", 8, true)
    ensures Reachable(f, t)
    ensures t == Move(s, c, Leaving(Some(SessionIdFromPid("e", 8)))).(sessions := t.sessions, persisted := t.persisted)
  {
    var sid' := SessionIdFromPid("e", 8);
    RekeyOnly(sid, "e", sid');
    t := Move(s, c, Leaving(Some(sid'))).(sessions := map[sid' := "e"], persisted := s.persisted + {(sid', "e")});
    ReachNext(Steps(f), INIT, s, Persist(c, Written), t);
  }

  /** Call 2 has replaced the dead session `sid` by process 1; call 1 still holds `sid`. */
  lemma LeaveAndProbeStale(f: Faults, s: State, sid: string)
    requires Reachable(f, s) && f.refetchFails && 1 in s.calls && 2 in s.calls
    requires s.calls[1] == Call(Resume, "e", Queued(Some(sid)))
    requires s.calls[2].kind.Resume? && s.calls[2].envelope == "e" && s.calls[2].pc.Leaving? && s.gates == map["e" := 2]
    requires sid in s.registry && s.registry[sid] in s.procs && !s.procs[s.registry[sid]].running
    requires 1 in s.procs && s.procs[1] == Process("e", 8, true) && 2 !in s.procs && PidFree(s.procs, 9)
    ensures !Safe(f)
  {
    var s1 := ReleaseGateStep(s, 2).value;
    ReachNext(Steps(f), INIT, s, ReleaseGate(2), s1);
    var s2 := SpawnAgain(f, s1, 1, sid, false, 2, 9);
    assert s2.procs[1].running && s2.procs[2].running;
    assert !OneExecutor(s2);
  }

  /** A stale first read makes resume probe a session that another call has replaced. */
  lemma FailingRefetchIsUnsafe(f: Faults)
    requires f.refetchFails
    ensures !Safe(f)
  {
    var sid := SessionIdFromPid("e", 7);
    SessionIdsAreInjective("e", 7, "e", 8);
    var s := DeliveredThenExited(f, "e", 7);
    var s1 := Ask(f, s, 1, "e", sid);
    var s2 := Ask(f, s1, 2, "e", sid);
    var s3 := ResumedUpToRow(f, 2, s2, sid);
    var s4 := RowReplaced(f, s3, 2, sid);
    LeaveAndProbeStale(f, s4, sid);
  }

  /** The claim holds in every run exactly when resume's two store calls under the gate
      cannot fail and Forge does not restart. Ack-cache evictions, lost calls, failing
      deliver-side store calls, recycled process ids and foreign delivery ids do no harm. */
  lemma OneExecutorExactly(f: Faults)
    ensures Safe(f) <==> !f.refetchFails && !f.updateFails && !f.restarts
  {
    if f.restarts { RestartIsUnsafe(f); }
    else if f.updateFails { FailingUpdateIsUnsafe(f); }
    else if f.refetchFails { FailingRefetchIsUnsafe(f); }
    else { DependableIsSafe(f); }
  }

  /** The register is a function of the envelope: one row each, under an id of its own. */
  lemma RegisterHasOneRowPerEnvelope(f: Faults, s: State, a: string, b: string)
    requires Safety.Dependable(f) && Reachable(f, s) && a in s.sessions && b in s.sessions
    ensures s.sessions[a] == s.sessions[b] <==> a == b
    ensures exists pid: nat :: a == SessionIdFromPid(s.sessions[a], pid)
  {
    var run :| RunFrom(Steps(f), INIT, run) == Some(s);
    Safety.RunKeeps(f, INIT, run);
    assert Safety.Names(a, s.sessions[a]);
  }

  /** Under the gate the register itself never refuses: no duplicate key on insert, no
      missing row and no key clash on update. */
  lemma RegisterNeverRefuses(f: Faults, s: State, c: CallId)
    requires Safety.Dependable(f) && Reachable(f, s) && PersistStep(f, s, c, Written).Some?
    ensures var t := PersistStep(f, s, c, Written).value;
            && (t.calls[c].pc.Persisted? || (t.calls[c].pc.Leaving? && t.calls[c].pc.result.Some?))
            && exists sid :: sid in t.sessions && t.sessions[sid] == s.calls[c].envelope
  {
    var run :| RunFrom(Steps(f), INIT, run) == Some(s);
    Safety.RunKeeps(f, INIT, run);
    var Call(_, e, pc) := s.calls[c];
    var sid := Sid(s.procs[pc.proc]);
    assert Safety.CallSound(s.sessions, s.registry, s.procs, s.calls[c]);
    assert Safety.Names(sid, e);
    Safety.NewRow(s, e, pc.row, sid);
    assert Safety.HasRow(PersistStep(f, s, c, Written).value.sessions, sid, e);
  }

  /** Between calls a running executor is reachable: its envelope's row names it and the
      registry holds it, so the next call reuses it. */
  lemma IdleExecutorIsFound(f: Faults, s: State, p: ProcId)
    requires Safety.Dependable(f) && Reachable(f, s) && p in s.procs && s.procs[p].running
    requires s.procs[p].envelope !in s.gates
    ensures var sid := Sid(s.procs[p]);
            && Answers(s.sessions, s.procs[p].envelope, Some(sid))
            && sid in s.registry && s.registry[sid] == p
  {
    var run :| RunFrom(Steps(f), INIT, run) == Some(s);
    Safety.RunKeeps(f, INIT, run);
    assert Safety.Accounted(s, p);
  }

  /** Whatever fails, no ack is sent before a process of the envelope was launched under the
      acked session id and that id was written to the register; the ack cache is bounded. */
  lemma AcksAreBacked(f: Faults, s: State, a: Ack)
    requires Reachable(f, s) && a in s.acks
    ensures (a.sessionId, a.envelopeId) in s.persisted
    ensures exists p :: p in s.procs && s.procs[p].envelope == a.envelopeId && Sid(s.procs[p]) == a.sessionId
    ensures |s.cache| <= 1000
  {
    var run :| RunFrom(Steps(f), INIT, run) == Some(s);
    Provenance.RunKeeps(f, INIT, run);
    assert Provenance.Backed(s, a.sessionId, a.envelopeId);
  }

  /** With stable ids, an ack's delivery id names its own envelope. */
  lemma AcksAreForTheirEnvelope(f: Faults, s: State, a: Ack)
    requires !f.foreignIds && Reachable(f, s) && a in s.acks
    ensures a.deliveryId == "d-" + a.envelopeId
  {
    var run :| RunFrom(Steps(f), INIT, run) == Some(s);
    Provenance.RunKeeps(f, INIT, run);
  }

  /** What an accepted call returns is an ack Forge recorded under the call's own delivery id. */
  lemma AcceptedIsAcked(f: Faults, s: State, c: CallId)
    requires Reachable(f, s) && c in s.calls && s.calls[c].pc.Finished? && s.calls[c].pc.reply.Accepted?
    ensures s.calls[c].kind.Deliver? && s.calls[c].pc.reply.ack in s.acks
    ensures s.calls[c].pc.reply.ack.deliveryId == s.calls[c].kind.deliveryId
  {
    var run :| RunFrom(Steps(f), INIT, run) == Some(s);
    Provenance.RunKeeps(f, INIT, run);
    assert Provenance.CallBacked(s, s.calls[c]);
  }

  /** Every accepted delivery is answered with an ack for the envelope it delivered. */
  ghost predicate Truthful(f: Faults) {
    forall s, c | Reachable(f, s) && c in s.calls && s.calls[c].pc.Finished? && s.calls[c].pc.reply.Accepted? ::
      s.calls[c].pc.reply.ack.envelopeId == s.calls[c].envelope
  }

  lemma StableIdsAreTruthful(f: Faults)
    requires !f.foreignIds
    ensures Truthful(f)
  {
    forall s, c | Reachable(f, s) && c in s.calls && s.calls[c].pc.Finished? && s.calls[c].pc.reply.Accepted?
      ensures s.calls[c].pc.reply.ack.envelopeId == s.calls[c].envelope
    {
      var run :| RunFrom(Steps(f), INIT, run) == Some(s);
      Provenance.RunKeeps(f, INIT, run);
      var call := s.calls[c];
      assert Provenance.CallBacked(s, call);
      var ack := call.pc.reply.ack;
      assert ("d-" + ack.envelopeId)[2..] == ("d-" + call.envelope)[2..];
    }
  }

  /** A delivery of `e` under `id`, up to its cached ack. */
  lemma AckCached(f: Faults, e: string, id: string, pid: nat) returns (t: State)
    requires e != "" && pid > 0 && id != "" && (id == "d-" + e || f.foreignIds)
    ensures Reachable(f, t) && 1 !in t.calls
    ensures var sid := SessionIdFromPid(e, pid);
            id in t.cache && t.cache[id] == Ack(id, e, sid, 0) && t.persisted == {(sid, e)}
  {
    var sid := SessionIdFromPid(e, pid);
    var s := Delivered(f, e, id, pid);
    var ack := Ack(id, e, sid, 0);
    t := Move(s, 0, Finished(Accepted(ack))).(cache := s.cache[id := ack], acks := s.acks + {ack});
    ReachNext(Steps(f), INIT, s, SendAck(0), t);
  }

  /** A cached ack is replayed to any delivery that carries its id. */
  lemma ForeignIdsAreUntruthful(f: Faults)
    requires f.foreignIds
    ensures !Truthful(f)
  {
    var s := AckCached(f, "e", "d-" + "e", 7);
    var ack := s.cache["d-" + "e"];
    var s1 := s.(calls := s.calls[1 := Call(Deliver("d-" + "e", 1), "g", Arrived)]);
    ReachNext(Steps(f), INIT, s, BeginDeliver(1, "g", "d-" + "e", 1), s1);
    var s2 := Move(s1, 1, Finished(Accepted(ack)));
    ReachNext(Steps(f), INIT, s1, CheckCache(1), s2);
    assert s2.calls[1].envelope == "g" && s2.calls[1].pc.reply.ack.envelopeId == "e";
  }

  /** Stable delivery ids are exactly what makes the ack cache sound. */
  lemma TruthfulExactly(f: Faults)
    ensures Truthful(f) <==> !f.foreignIds
  {
    if f.foreignIds { ForeignIdsAreUntruthful(f); } else { StableIdsAreTruthful(f); }
  }
}
