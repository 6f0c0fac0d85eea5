/** The handlers as code: each method body is a run of the step system by one call. */
module GatewayCalls {
  import opened Wrappers
  import opened Runs
  import opened SessionIds
  import opened Gateway
  import T = GatewayTheorems
  import opened GatewayProgress

  /** Some run of enabled steps leads from one state to the other. */
  ghost predicate Leads(f: Faults, s: State, t: State) {
    Reaches(Steps(f), s, t)
  }

  lemma Then(f: Faults, s: State, t: State, a: Action, u: State)
    requires Leads(f, s, t) && Step(f, t, a) == Some(u)
    ensures Leads(f, s, u)
  {
    ReachNext(Steps(f), s, t, a, u);
  }

  /** Handlers run on a reachable state keep to the states the safety theorem covers. */
  lemma HandlersStaySafe(f: Faults, s: State, t: State)
    requires T.Reachable(f, s) && Leads(f, s, t) && !f.refetchFails && !f.updateFails && !f.restarts
    ensures T.Reachable(f, t) && OneExecutor(t)
  {
    RunsJoin(Steps(f), INIT, s, t);
    T.OneExecutorExactly(f);
  }

  /** Processes that ran before the call are left alone. */
  ghost predicate OthersUntouched(before: map<ProcId, Process>, after: map<ProcId, Process>) {
    forall q :: q in before ==> q in after && after[q] == before[q]
  }

  ghost predicate OnlyMine(before: map<CallId, Call>, after: map<CallId, Call>, c: CallId) {
    c in after && after == before[c := after[c]]
  }

  /** What the surroundings do to one call: database errors, and the pid of the launched
      process if the launch succeeds. */
  datatype Luck = Luck(readOk: bool, refetchOk: bool, pid: Option<int>, write: RowWrite)

  /** The register after the new id is stored: over the envelope's row if there is one. */
  function RowWritten(sessions: map<string, string>, row: Option<string>, envelope: string, sid: string)
    : Option<map<string, string>>
  {
    if row.Some? then RekeyRow(sessions, envelope, sid) else InsertRow(sessions, envelope, sid)
  }

  /** When the register takes a new id: for a first row the id must be unused, and a row can be
      re-keyed if it is the envelope's only one and no other envelope has the id. */
  lemma RegisterTakes(sessions: map<string, string>, row: Option<string>, envelope: string, sid: string)
    ensures RowWritten(sessions, row, envelope, sid).Some? <==>
              if row.None? then sid !in sessions
              else |set k | k in sessions && sessions[k] == envelope| == 1
                   && (sid in sessions ==> sessions[sid] == envelope)
  {
  }

  /** The session a launch ends in: it needs a pid, a confirmed write and a register that takes
      the id. */
  function SpawnedSession(f: Faults, procs: map<ProcId, Process>, sessions: map<string, string>,
                          row: Option<string>, envelope: string, luck: Luck): Option<string>
  {
    if luck.pid.None? || luck.pid.value <= 0 || (!f.recycles && !PidFree(procs, luck.pid.value)) then None
    else
      var sid := SessionIdFromPid(envelope, luck.pid.value);
      if luck.write.Written? && RowWritten(sessions, row, envelope, sid).Some? then Some(sid) else None
  }

  /** The session's registered process is alive. */
  predicate Lives(registry: map<string, ProcId>, procs: map<ProcId, Process>, sid: string) {
    sid in registry && registry[sid] in procs && procs[registry[sid]].running
  }

  /** What a delivery at its gate ends in: the row's session if that is alive, else a new one. */
  function Ensured(f: Faults, registry: map<string, ProcId>, procs: map<ProcId, Process>,
                   sessions: map<string, string>, row: Option<string>, envelope: string, luck: Luck): Option<string>
  {
    if !luck.readOk then None
    else if row.Some? && Lives(registry, procs, row.value) then row
    else SpawnedSession(f, procs, sessions, row, envelope, luck)
  }

  /** A delivery at its gate succeeds exactly when the lookup does and either the row's session is
      alive or the launch yields a positive pid of its own, the write is confirmed, and the
      register takes the new id. */
  lemma EnsuredExactly(f: Faults, registry: map<string, ProcId>, procs: map<ProcId, Process>,
                       sessions: map<string, string>, row: Option<string>, envelope: string, luck: Luck)
    ensures var session := Ensured(f, registry, procs, sessions, row, envelope, luck);
            var alive := row.Some? && row.value in registry && registry[row.value] in procs
                         && procs[registry[row.value]].running;
            && (session.Some? && alive ==> session == row)
            && (session.Some? && !alive ==>
                  luck.pid.Some? && luck.pid.value > 0
                  && session == Some(SessionIdFromPid(envelope, luck.pid.value)))
            && (session.Some? <==>
                  luck.readOk && (alive || (
                    && luck.write.Written? && luck.pid.Some? && luck.pid.value > 0
                    && (f.recycles || forall q | q in procs && procs[q].running :: procs[q].pid != luck.pid.value)
                    && var sid := SessionIdFromPid(envelope, luck.pid.value);
                       if row.None? then sid !in sessions
                       else |set k | k in sessions && sessions[k] == envelope| == 1
                            && (sid in sessions ==> sessions[sid] == envelope))))
  {
    if luck.pid.Some? && luck.pid.value > 0 {
      RegisterTakes(sessions, row, envelope, SessionIdFromPid(envelope, luck.pid.value));
    }
  }

  /** What a resume under its gate ends in: the row's session if that is alive, else a new one. */
  function Resumable(f: Faults, registry: map<string, ProcId>, procs: map<ProcId, Process>,
                     sessions: map<string, string>, row: string, envelope: string, luck: Luck): Option<string>
  {
    if Lives(registry, procs, row) then Some(row)
    else SpawnedSession(f, procs, sessions, Some(row), envelope, luck)
  }

  /** A resume under its gate succeeds exactly when the row's session is alive or the launch
      yields a positive pid of its own, the update is confirmed, the row is the envelope's only
      one and no other envelope has the new id. */
  lemma ResumableExactly(f: Faults, registry: map<string, ProcId>, procs: map<ProcId, Process>,
                         sessions: map<string, string>, row: string, envelope: string, luck: Luck)
    ensures var session := Resumable(f, registry, procs, sessions, row, envelope, luck);
            var alive := row in registry && registry[row] in procs && procs[registry[row]].running;
            && (alive ==> session == Some(row))
            && (session.Some? && !alive ==>
                  luck.pid.Some? && luck.pid.value > 0
                  && session == Some(SessionIdFromPid(envelope, luck.pid.value)))
            && (session.Some? <==>
                  alive || (
                    && luck.write.Written? && luck.pid.Some? && luck.pid.value > 0
                    && (f.recycles || forall q | q in procs && procs[q].running :: procs[q].pid != luck.pid.value)
                    && |set k | k in sessions && sessions[k] == envelope| == 1
                    && var sid := SessionIdFromPid(envelope, luck.pid.value);
                       sid in sessions ==> sessions[sid] == envelope))
  {
    if luck.pid.Some? && luck.pid.value > 0 {
      RegisterTakes(sessions, Some(row), envelope, SessionIdFromPid(envelope, luck.pid.value));
    }
  }

  /** On the states dependable runs reach, the register takes every new id, so a call with its
      lookup, its launch and its write in order succeeds: nothing that happened before stops it. */
  lemma NothingElseRefuses(f: Faults, s: State, row: Option<string>, envelope: string, luck: Luck)
    requires T.Reachable(f, s) && !f.refetchFails && !f.updateFails && !f.restarts
    requires Answers(s.sessions, envelope, row)
    requires luck.readOk && luck.write.Written? && luck.pid.Some? && luck.pid.value > 0
    requires forall q | q in s.procs && s.procs[q].running :: s.procs[q].pid != luck.pid.value
    ensures Ensured(f, s.registry, s.procs, s.sessions, row, envelope, luck).Some?
    ensures row.Some? ==> Resumable(f, s.registry, s.procs, s.sessions, row.value, envelope, luck).Some?
  {
    var sid := SessionIdFromPid(envelope, luck.pid.value);
    if sid in s.sessions {
      T.RegisterHasOneRowPerEnvelope(f, s, sid, sid);
      var pid: nat :| sid == SessionIdFromPid(s.sessions[sid], pid);
      SessionIdsAreInjective(s.sessions[sid], pid, envelope, luck.pid.value);
    }
    if row.Some? {
      forall k | k in s.sessions && s.sessions[k] == envelope ensures k == row.value {
        T.RegisterHasOneRowPerEnvelope(f, s, k, row.value);
      }
      assert (set k | k in s.sessions && s.sessions[k] == envelope) == {row.value};
    }
    RegisterTakes(s.sessions, row, envelope, sid);
  }

  /** What is left to do once the gate is released. */
  function Answering(call: Call): Pc
    requires call.pc.Leaving?
  {
    match call.pc.result
    case None => Finished(Refused)
    case Some(session) => if call.kind.Deliver? then Acking(session) else Finished(Resumed)
  }

  /** Registering is deliver's last step and resume's last but one. */
  function RegisteredPc(call: Call, sid: string, p: ProcId): Pc
    requires call.kind.Resume? ==> call.pc.Spawned?
  {
    if call.kind.Deliver? then Leaving(Some(sid)) else Registered(call.pc.row, p)
  }

  /** Where the lookup under the gate leads: resume falls back on the row it knew. */
  function Found(known: Option<string>, row: Option<string>, ok: bool): Pc {
    match known
    case None => if !ok then Leaving(None) else if row.Some? then Fetched(row.value) else Spawning(None)
    case Some(stale) => Fetched(if ok && row.Some? then row.value else stale)
  }

  /** The write's effect, error or not, is the step's. */
  lemma PersistTakes(s: State, c: CallId, write: RowWrite, took: bool, t: State)
    requires c in s.calls && s.calls[c].pc.Spawned? && s.calls[c].pc.proc in s.procs
    requires var e, row, p := s.calls[c].envelope, s.calls[c].pc.row, s.calls[c].pc.proc;
             var sid := Sid(s.procs[p]);
             var rows := if row.Some? then RekeyRow(s.sessions, e, sid) else InsertRow(s.sessions, e, sid);
             && took == (!write.Unwritten? && rows.Some?)
             && t == Move(s, c, if took && write.Written? then Persisted(p) else Stopping(p))
                     .(sessions := if took then rows.value else s.sessions,
                       persisted := if took then s.persisted + {(sid, e)} else s.persisted)
    ensures DeliverPersistStep(s, c, write) == Some(t)
  {
  }

  class Forge {
    const f: Faults

    var gates: map<string, CallId>         // SpawnGate.locks held
    var sessions: map<string, string>      // the session table
    var registry: map<string, ProcId>      // ProcessRegistry.processes
    var deliveries: map<string, Ack>       // the ack cache
    var procs: map<ProcId, Process>        // the operating system's processes

    var calls: map<CallId, Call>
    var watchers: set<(string, ProcId)>
    var acks: set<Ack>
    var persisted: set<(string, string)>

    function Now(): State
      reads this
    {
      State(calls, gates, sessions, registry, watchers, procs, deliveries, acks, persisted)
    }

    /** The register binds the session to the envelope. */
    predicate Bound(sid: string, envelope: string)
      reads this`sessions
    {
      sid in sessions && sessions[sid] == envelope
    }

    /** The session's registered process is alive. */
    predicate Alive(sid: string)
      reads this`registry, this`procs
    {
      sid in registry && registry[sid] in procs && procs[registry[sid]].running
    }

    constructor (faults: Faults)
      ensures Now() == INIT && f == faults
    {
      f := faults;
      gates, sessions, registry, deliveries, procs := map[], map[], map[], map[], map[];
      calls, watchers, acks, persisted := map[], {}, {}, {};
    }

    /** A handler's goroutine `c` starts. */
    method Arrive(ghost start: State, c: CallId, kind: Kind, envelope: string)
      requires Leads(f, start, Now()) && c !in calls && envelope != ""
      requires kind.Deliver? ==> kind.deliveryId != "" && (kind.deliveryId == "d-" + envelope || f.foreignIds)
      modifies this`calls
      ensures Leads(f, start, Now()) && Begin(old(Now()), c, kind, envelope) == Some(Now())
    {
      ghost var s := Now();
      calls := calls[c := Call(kind, envelope, Arrived)];
      ghost var a := if kind.Deliver? then BeginDeliver(c, envelope, kind.deliveryId, kind.now)
        else BeginResume(c, envelope);
      Then(f, start, s, a, Now());
    }

    // ----- SpawnGate -----

    method Lock(ghost start: State, c: CallId, envelope: string)
      requires Leads(f, start, Now()) && c in calls && calls[c].envelope == envelope
      requires calls[c].pc.Queued? && envelope !in gates
      modifies this`gates, this`calls
      ensures Leads(f, start, Now()) && gates == old(gates)[envelope := c]
      ensures calls == old(calls)[c := old(calls)[c].(pc := Holding(old(calls)[c].pc.known))]
    {
      ghost var s := Now();
      gates := gates[envelope := c];
      calls := calls[c := calls[c].(pc := Holding(calls[c].pc.known))];
      Then(f, start, s, TakeGate(c), Now());
    }

    /** Takes over the state another goroutine's step has made. */
    method Become(s: State)
      modifies this
      ensures Now() == s
    {
      calls, gates, sessions, registry, watchers := s.calls, s.gates, s.sessions, s.registry, s.watchers;
      procs, deliveries, acks, persisted := s.procs, s.cache, s.acks, s.persisted;
    }

    /** Blocked on the gate, while other goroutines and processes take steps. A restart would
        end this call, too, so none is waited through. */
    method Await(ghost start: State, c: CallId, envelope: string, others: seq<Action>)
      requires Leads(f, start, Now()) && c in calls
      modifies this
      ensures Leads(f, start, Now()) && c in calls && calls[c] == old(calls)[c]
      ensures envelope !in old(gates) ==> Now() == old(Now())
    {
      var i := 0;
      while i < |others| && envelope in gates
        invariant Leads(f, start, Now()) && c in calls && calls[c] == old(calls)[c]
        invariant envelope !in old(gates) ==> Now() == old(Now())
      {
        var a, s := others[i], Now();
        var next := Step(f, s, a);
        if Actor(a) != Some(c) && !a.Restart? && next.Some? {
          OthersStay(f, s, a, next.value, c);
          Then(f, start, s, a, next.value);
          Become(next.value);
        }
        i := i + 1;
      }
    }

    /** Releasing the gate is the last thing a handler does before it answers. */
    method Unlock(ghost start: State, c: CallId, envelope: string)
      requires Leads(f, start, Now()) && c in calls && calls[c].envelope == envelope && calls[c].pc.Leaving?
      modifies this`gates, this`calls
      ensures Leads(f, start, Now()) && gates == old(gates) - {envelope}
      ensures calls == old(calls)[c := old(calls)[c].(pc := Answering(old(calls)[c]))]
    {
      ghost var s := Now();
      gates := gates - {envelope};
      calls := calls[c := calls[c].(pc := Answering(calls[c]))];
      Then(f, start, s, ReleaseGate(c), Now());
    }

    // ----- session store -----

    /** Some row of the envelope, if there is one. */
    method GetByEnvelope(envelope: string) returns (row: Option<string>)
      ensures Answers(sessions, envelope, row)
      ensures row.None? <==> forall sid | sid in sessions :: sessions[sid] != envelope
      ensures row.Some? ==> row.value in sessions && sessions[row.value] == envelope
    {
      var own := set sid | sid in sessions && sessions[sid] == envelope;
      if own == {} {
        assert forall sid :: sid in sessions && sessions[sid] == envelope ==> sid in own;
        return None;
      }
      var sid :| sid in own;
      return Some(sid);
    }

    method Insert(sid: string, envelope: string) returns (ok: bool)
      modifies this`sessions, this`persisted
      ensures ok == InsertRow(old(sessions), envelope, sid).Some?
      ensures sessions == if ok then InsertRow(old(sessions), envelope, sid).value else old(sessions)
      ensures persisted == if ok then old(persisted) + {(sid, envelope)} else old(persisted)
    {
      if sid in sessions { return false; }
      sessions, persisted := sessions[sid := envelope], persisted + {(sid, envelope)};
      return true;
    }

    /** The statement fails on a taken key, and reports an envelope without a row. */
    method UpdateSessionId(envelope: string, sid: string) returns (ok: bool)
      modifies this`sessions, this`persisted
      ensures ok == RekeyRow(old(sessions), envelope, sid).Some?
      ensures sessions == if ok then RekeyRow(old(sessions), envelope, sid).value else old(sessions)
      ensures persisted == if ok then old(persisted) + {(sid, envelope)} else old(persisted)
    {
      var own := set k | k in sessions && sessions[k] == envelope;
      var others := map k | k in sessions && sessions[k] != envelope :: sessions[k];
      if |own| == 0 || |own| > 1 || sid in others { return false; }
      sessions, persisted := others[sid := envelope], persisted + {(sid, envelope)};
      return true;
    }

    /** An existing row is re-keyed, a missing one inserted, unless the write never arrives. */
    method Store(row: Option<string>, sid: string, envelope: string, write: RowWrite) returns (ok: bool)
      modifies this`sessions, this`persisted
      ensures var rows := RowWritten(old(sessions), row, envelope, sid);
              ok == (!write.Unwritten? && rows.Some?) && sessions == if ok then rows.value else old(sessions)
      ensures persisted == if ok then old(persisted) + {(sid, envelope)} else old(persisted)
      ensures ok ==> Bound(sid, envelope)
    {
      if write.Unwritten? { return false; }
      if row.Some? { ok := UpdateSessionId(envelope, sid); } else { ok := Insert(sid, envelope); }
    }

    // ----- process registry -----

    /** Two steps: the handle is looked up, then asked. */
    method Running(ghost start: State, c: CallId, sid: string) returns (alive: bool)
      requires Leads(f, start, Now()) && c in calls && calls[c].pc == Fetched(sid)
      modifies this`calls
      ensures Leads(f, start, Now())
      ensures alive == Alive(sid)
      ensures calls == old(calls)[c := old(calls)[c].(pc := if alive then Leaving(Some(sid)) else Spawning(Some(sid)))]
    {
      ghost var s := Now();
      var handle := if sid in registry then Some(registry[sid]) else None;
      calls := calls[c := calls[c].(pc := Probing(sid, handle))];
      ghost var t := Now();
      Then(f, start, s, LookUp(c), t);
      alive := handle.Some? && handle.value in procs && procs[handle.value].running;
      calls := calls[c := calls[c].(pc := if alive then Leaving(Some(sid)) else Spawning(Some(sid)))];
      assert ProbeStep(t, c) == Some(Now());
      Then(f, start, t, Probe(c), Now());
    }

    /** A process nobody has launched before. */
    method NewProc() returns (p: ProcId)
      ensures p !in procs
    {
      p := 0;
      ghost var left := procs.Keys;
      while p in procs
        invariant forall q | q in procs && q >= p :: q in left
        decreases left
      {
        left := left - {p};
        p := p + 1;
      }
    }

    /** The launcher, and the check of the pid it reports. A pid that is taken is none the
        system could have handed out; such a launch counts as failed. */
    method Spawn(ghost start: State, c: CallId, envelope: string, pid: Option<int>) returns (p: Option<ProcId>)
      requires Leads(f, start, Now()) && c in calls && calls[c].envelope == envelope && calls[c].pc.Spawning?
      modifies this`procs, this`calls
      ensures Leads(f, start, Now())
      ensures var pc := if p.Some? then Spawned(old(calls)[c].pc.row, p.value) else Leaving(None);
              calls == old(calls)[c := old(calls)[c].(pc := pc)]
      ensures p.Some? <==> pid.Some? && pid.value > 0 && (f.recycles || PidFree(old(procs), pid.value))
      ensures p.Some? ==> p.value !in old(procs) && procs == old(procs)[p.value := Process(envelope, pid.value, true)]
      ensures p.None? ==> procs == old(procs)
    {
      ghost var s := Now();
      if pid.Some? && pid.value > 0 && (f.recycles || PidFree(procs, pid.value)) {
        var proc := NewProc();
        procs := procs[proc := Process(envelope, pid.value, true)];
        calls := calls[c := calls[c].(pc := Spawned(calls[c].pc.row, proc))];
        p := Some(proc);
        Then(f, start, s, Action.Spawn(c, Launches(proc, pid.value)), Now());
      } else {
        calls := calls[c := calls[c].(pc := Leaving(None))];
        p := None;
        Then(f, start, s, Action.Spawn(c, LaunchFails), Now());
      }
    }

    /** Stores the handle and leaves a goroutine behind that waits for the exit. */
    method Register(ghost start: State, c: CallId, sid: string, p: ProcId)
      requires Leads(f, start, Now()) && c in calls && p in procs && sid == Sid(procs[p])
      requires if calls[c].kind.Deliver? then calls[c].pc == Persisted(p)
               else calls[c].pc.Spawned? && calls[c].pc.proc == p
      modifies this`registry, this`watchers, this`calls
      ensures Leads(f, start, Now()) && registry == old(registry)[sid := p]
      ensures calls == old(calls)[c := old(calls)[c].(pc := RegisteredPc(old(calls)[c], sid, p))]
    {
      ghost var s := Now();
      registry := registry[sid := p];
      watchers := watchers + {(sid, p)};
      calls := calls[c := calls[c].(pc := RegisteredPc(calls[c], sid, p))];
      Then(f, start, s, Action.Register(c), Now());
    }

    /** Returns once the process has exited. */
    method Stop(ghost start: State, c: CallId, p: ProcId)
      requires Leads(f, start, Now()) && c in calls && p in procs && calls[c].pc == Stopping(p)
      modifies this`procs, this`calls
      ensures Leads(f, start, Now()) && procs == old(procs)[p := old(procs)[p].(running := false)]
      ensures calls == old(calls)[c := old(calls)[c].(pc := Leaving(None))]
    {
      ghost var s := Now();
      procs := procs[p := procs[p].(running := false)];
      ghost var t := Now();
      Then(f, start, s, Exit(p), t);
      calls := calls[c := calls[c].(pc := Leaving(None))];
      Then(f, start, t, StopReturns(c), Now());
    }

    // ----- deliver -----

    /** Row first, registry second; on a failed write the new process is stopped. */
    method SpawnAndRegisterSession(ghost start: State, c: CallId, envelope: string, row: Option<string>, luck: Luck)
      returns (session: Option<string>)
      requires Leads(f, start, Now()) && c in calls && calls[c].kind.Deliver? && calls[c].envelope == envelope
      requires calls[c].pc == Spawning(row)
      modifies this`sessions, this`registry, this`procs, this`calls, this`watchers, this`persisted
      ensures Leads(f, start, Now())
      ensures calls == old(calls)[c := old(calls)[c].(pc := Leaving(session))]
      ensures session.Some? ==> Bound(session.value, envelope) && Alive(session.value)
      ensures session == SpawnedSession(f, old(procs), old(sessions), row, envelope, luck)
      ensures OthersUntouched(old(procs), procs)
    {
      var proc := Spawn(start, c, envelope, luck.pid);
      if proc.None? { return None; }
      session := StoreAndRegister(start, c, envelope, row, proc.value, luck.write);
    }

    method StoreAndRegister(
        ghost start: State, c: CallId, envelope: string, row: Option<string>, p: ProcId, write: RowWrite)
      returns (session: Option<string>)
      requires Leads(f, start, Now()) && c in calls && calls[c].kind.Deliver? && calls[c].envelope == envelope
      requires p in procs && procs[p].envelope == envelope && procs[p].running && calls[c].pc == Spawned(row, p)
      modifies this`sessions, this`registry, this`procs, this`calls, this`watchers, this`persisted
      ensures Leads(f, start, Now())
      ensures calls == old(calls)[c := old(calls)[c].(pc := Leaving(session))]
      ensures procs == old(procs)[p := old(procs)[p].(running := session.Some?)]
      ensures var sid := SessionIdFromPid(envelope, old(procs)[p].pid);
              && session == (if write.Written? && RowWritten(old(sessions), row, envelope, sid).Some?
                             then Some(sid) else None)
              && registry == if session.Some? then old(registry)[sid := p] else old(registry)
      ensures session.Some? ==> Bound(session.value, envelope)
    {
      var sid := SessionIdFromPid(envelope, procs[p].pid);
      var stored := Persist(start, c, envelope, row, p, write);
      if !stored {
        Stop(start, c, p);
        return None;
      }
      Register(start, c, sid, p);
      return Some(sid);
    }

    method Persist(ghost start: State, c: CallId, envelope: string, row: Option<string>, p: ProcId, write: RowWrite)
      returns (stored: bool)
      requires Leads(f, start, Now()) && c in calls && calls[c].kind.Deliver? && calls[c].envelope == envelope
      requires p in procs && procs[p].envelope == envelope && calls[c].pc == Spawned(row, p)
      modifies this`sessions, this`calls, this`persisted
      ensures Leads(f, start, Now()) && (stored ==> Bound(SessionIdFromPid(envelope, procs[p].pid), envelope))
      ensures var rows := RowWritten(old(sessions), row, envelope, SessionIdFromPid(envelope, procs[p].pid));
              && stored == (rows.Some? && write.Written?)
              && sessions == if rows.Some? && !write.Unwritten? then rows.value else old(sessions)
      ensures calls == old(calls)[c := old(calls)[c].(pc := if stored then Persisted(p) else Stopping(p))]
    {
      ghost var s := Now();
      var sid := SessionIdFromPid(envelope, procs[p].pid);
      var took := Store(row, sid, envelope, write);
      stored := took && write.Written?;
      calls := calls[c := calls[c].(pc := if stored then Persisted(p) else Stopping(p))];
      PersistTakes(s, c, write, took, Now());
      Then(f, start, s, Action.Persist(c, write), Now());
    }

    /** The lookup under the gate; a failed one ends the delivery. */
    method Fetch(ghost start: State, c: CallId, envelope: string, ok: bool) returns (row: Option<string>)
      requires Leads(f, start, Now()) && c in calls && calls[c].envelope == envelope && calls[c].pc.Holding?
      requires calls[c].pc.known.None? || ok || f.refetchFails
      modifies this`calls
      ensures Leads(f, start, Now()) && Answers(sessions, envelope, row)
      ensures calls == old(calls)[c := old(calls)[c].(pc := Found(old(calls)[c].pc.known, row, ok))]
    {
      ghost var s := Now();
      row := GetByEnvelope(envelope);
      calls := calls[c := calls[c].(pc := Found(calls[c].pc.known, row, ok))];
      Then(f, start, s, Action.Fetch(c, row, ok), Now());
    }

    /** Waits for its turn at the gate; `others` is what the other goroutines do meanwhile. */
    method EnsureSession(ghost start: State, c: CallId, envelope: string, luck: Luck, others: seq<Action>)
      returns (turn: bool, session: Option<string>, ghost row: Option<string>)
      requires Leads(f, start, Now()) && c in calls && calls[c].kind.Deliver? && calls[c].envelope == envelope
      requires calls[c].pc == Queued(None)
      modifies this
      ensures Leads(f, start, Now()) && c in calls && calls[c].kind == old(calls)[c].kind
        && calls[c].envelope == envelope
      ensures calls[c].pc == if !turn then Queued(None)
        else if session.Some? then Acking(session.value) else Finished(Refused)
      ensures turn && session.Some? ==> Bound(session.value, envelope) && Alive(session.value)
      ensures if turn then envelope !in gates else envelope in gates
      ensures envelope !in old(gates) ==> turn && OnlyMine(old(calls), calls, c) && OthersUntouched(old(procs), procs)
      ensures envelope !in old(gates) ==> gates == old(gates) && deliveries == old(deliveries) && acks == old(acks)
      ensures envelope !in old(gates) ==>
                && Answers(old(sessions), envelope, row)
                && session == Ensured(f, old(registry), old(procs), old(sessions), row, envelope, luck)
                && (row.Some? && Lives(old(registry), old(procs), row.value) ==> procs == old(procs))
    {
      Await(start, c, envelope, others);
      if envelope in gates { return false, None, None; }
      session, row := Serve(start, c, envelope, luck);
      return true, session, row;
    }

    /** The gate is free: it is taken for the lookup and the spawn, and released. */
    method Serve(ghost start: State, c: CallId, envelope: string, luck: Luck)
      returns (session: Option<string>, ghost row: Option<string>)
      requires Leads(f, start, Now()) && c in calls && calls[c].kind.Deliver? && calls[c].envelope == envelope
      requires calls[c].pc == Queued(None) && envelope !in gates
      modifies this`gates, this`sessions, this`registry, this`procs, this`calls, this`watchers, this`persisted
      ensures Leads(f, start, Now())
      ensures calls == old(calls)
        [c := old(calls)[c].(pc := if session.Some? then Acking(session.value) else Finished(Refused))]
      ensures session.Some? ==> Bound(session.value, envelope) && Alive(session.value)
      ensures OthersUntouched(old(procs), procs) && gates == old(gates)
      ensures Answers(old(sessions), envelope, row)
      ensures session == Ensured(f, old(registry), old(procs), old(sessions), row, envelope, luck)
      ensures row.Some? && Lives(old(registry), old(procs), row.value) ==> procs == old(procs)
    {
      Lock(start, c, envelope);
      session, row := EnsureLocked(start, c, envelope, luck);
      Unlock(start, c, envelope);
    }

    /** The part under the gate: reuse the live session or spawn one. */
    method EnsureLocked(ghost start: State, c: CallId, envelope: string, luck: Luck)
      returns (session: Option<string>, ghost row: Option<string>)
      requires Leads(f, start, Now()) && c in calls && calls[c].kind.Deliver? && calls[c].envelope == envelope
      requires calls[c].pc == Holding(None)
      modifies this`sessions, this`registry, this`procs, this`calls, this`watchers, this`persisted
      ensures Leads(f, start, Now())
      ensures calls == old(calls)[c := old(calls)[c].(pc := Leaving(session))]
      ensures session.Some? ==> Bound(session.value, envelope) && Alive(session.value)
      ensures OthersUntouched(old(procs), procs)
      ensures Answers(old(sessions), envelope, row)
      ensures session == Ensured(f, old(registry), old(procs), old(sessions), row, envelope, luck)
      ensures row.Some? && Lives(old(registry), old(procs), row.value) ==> procs == old(procs)
    {
      var found := Fetch(start, c, envelope, luck.readOk);
      row := found;
      if !luck.readOk { return None, row; }
      if found.Some? {
        var alive := Running(start, c, found.value);
        if alive { return found, row; }
      }
      session := SpawnAndRegisterSession(start, c, envelope, found, luck);
    }

    /** A known delivery id is answered with its first ack. */
    method Replay(ghost start: State, c: CallId, envelope: string, deliveryId: string, now: int)
      returns (prior: Option<Ack>)
      requires Leads(f, start, Now()) && c in calls
        && calls[c] == Call(Kind.Deliver(deliveryId, now), envelope, Arrived)
      modifies this`calls
      ensures Leads(f, start, Now())
      ensures prior == if deliveryId in deliveries then Some(deliveries[deliveryId]) else None
      ensures var pc := if prior.Some? then Finished(Accepted(prior.value)) else Queued(None);
              calls == old(calls)[c := old(calls)[c].(pc := pc)]
    {
      ghost var s := Now();
      prior := if deliveryId in deliveries then Some(deliveries[deliveryId]) else None;
      calls := calls[c := calls[c].(pc := if prior.Some? then Finished(Accepted(prior.value)) else Queued(None))];
      Then(f, start, s, CheckCache(c), Now());
    }

    /** The delivery handler. No reply means that after `others` it still waits at its gate;
        `row` is what the lookup under the gate finds. */
    method Deliver(c: CallId, envelope: string, deliveryId: string, now: int, luck: Luck, others: seq<Action>)
      returns (reply: Option<Reply>, ghost row: Option<string>)
      requires c !in calls && (deliveryId == "d-" + envelope || f.foreignIds)
      modifies this
      ensures Leads(f, old(Now()), Now())
      ensures !(deliveryId != "" && envelope != "") ==> reply == Some(Refused) && Now() == old(Now())
      ensures deliveryId != "" && envelope != "" ==>
                c in calls && calls[c] == Answered(deliveryId, now, envelope, reply)
      ensures reply.None? ==> envelope in gates
      ensures deliveryId in old(deliveries) && deliveryId != "" && envelope != "" ==>
                reply == Some(Accepted(old(deliveries)[deliveryId])) && procs == old(procs)
      ensures reply.Some? && reply.value.Accepted? ==>
                deliveryId in deliveries && deliveries[deliveryId] == reply.value.ack
      ensures reply.Some? && reply.value.Accepted? && deliveryId !in old(deliveries) ==>
                Bound(reply.value.ack.sessionId, envelope) && Alive(reply.value.ack.sessionId)
      ensures envelope !in old(gates) ==> reply.Some? && OthersUntouched(old(procs), procs) && gates == old(gates)
      ensures deliveryId != "" && envelope != "" && deliveryId !in old(deliveries) && envelope !in old(gates) ==>
                var session := Ensured(f, old(registry), old(procs), old(sessions), row, envelope, luck);
                && Answers(old(sessions), envelope, row)
                && reply == (if session.None? then Some(Refused)
                             else Some(Accepted(Ack(deliveryId, envelope, session.value, now))))
                && (row.Some? && Lives(old(registry), old(procs), row.value) ==> procs == old(procs))
    {
      ghost var start := Now();
      Stays(Steps(f), start);
      if deliveryId == "" || envelope == "" { return Some(Refused), None; }
      Arrive(start, c, Kind.Deliver(deliveryId, now), envelope);
      var prior := Replay(start, c, envelope, deliveryId, now);
      if prior.Some? { return Some(Accepted(prior.value)), None; }
      reply, row := DeliverFresh(start, c, envelope, deliveryId, now, luck, others);
    }

    /** A delivery the cache does not know. */
    method DeliverFresh(
        ghost start: State, c: CallId, envelope: string, deliveryId: string, now: int, luck: Luck, others: seq<Action>)
      returns (reply: Option<Reply>, ghost row: Option<string>)
      requires Leads(f, start, Now()) && c in calls
      requires calls[c] == Call(Kind.Deliver(deliveryId, now), envelope, Queued(None))
      modifies this
      ensures Leads(f, start, Now()) && c in calls && calls[c] == Answered(deliveryId, now, envelope, reply)
      ensures reply.None? ==> envelope in gates
      ensures reply.Some? && reply.value.Accepted? ==>
                && deliveryId in deliveries && deliveries[deliveryId] == reply.value.ack
                && Bound(reply.value.ack.sessionId, envelope) && Alive(reply.value.ack.sessionId)
      ensures reply.Some? ==> !reply.value.Resumed?
      ensures envelope !in old(gates) ==> reply.Some? && OthersUntouched(old(procs), procs) && gates == old(gates)
      ensures envelope !in old(gates) ==>
                var session := Ensured(f, old(registry), old(procs), old(sessions), row, envelope, luck);
                && Answers(old(sessions), envelope, row)
                && reply == (if session.None? then Some(Refused)
                             else Some(Accepted(Ack(deliveryId, envelope, session.value, now))))
                && (row.Some? && Lives(old(registry), old(procs), row.value) ==> procs == old(procs))
    {
      var turn, session;
      turn, session, row := EnsureSession(start, c, envelope, luck, others);
      if !turn { return None, row; }
      if session.None? { return Some(Refused), row; }
      var ack := CacheAck(start, c, envelope, deliveryId, session.value, now);
      return Some(Accepted(ack)), row;
    }

    static function Answered(deliveryId: string, now: int, envelope: string, reply: Option<Reply>): Call {
      Call(Kind.Deliver(deliveryId, now), envelope, if reply.Some? then Finished(reply.value) else Queued(None))
    }

    /** A full cache is emptied before the new ack goes in. */
    method CacheAck(ghost start: State, c: CallId, envelope: string, deliveryId: string, session: string, now: int)
      returns (ack: Ack)
      requires Leads(f, start, Now()) && c in calls
      requires calls[c] == Call(Kind.Deliver(deliveryId, now), envelope, Acking(session))
      modifies this`deliveries, this`calls, this`acks
      ensures Leads(f, start, Now()) && deliveryId in deliveries && deliveries[deliveryId] == ack
      ensures ack == Ack(deliveryId, envelope, session, now)
      ensures calls == old(calls)[c := old(calls)[c].(pc := Finished(Accepted(ack)))]
    {
      ghost var s := Now();
      ack := Ack(deliveryId, envelope, session, now);
      if |deliveries| >= MAX_CACHED_DELIVERIES { deliveries := map[]; }
      deliveries := deliveries[deliveryId := ack];
      acks := acks + {ack};
      calls := calls[c := calls[c].(pc := Finished(Accepted(ack)))];
      assert SendAckStep(s, c) == Some(Now());
      Then(f, start, s, SendAck(c), Now());
    }

    // ----- resume -----

    /** Registry first, row second; on a failed write the new process runs on. */
    method RespawnLocked(ghost start: State, c: CallId, envelope: string, stale: string, luck: Luck)
      returns (session: Option<string>)
      requires Leads(f, start, Now()) && c in calls && calls[c].kind.Resume? && calls[c].envelope == envelope
      requires calls[c].pc == Spawning(Some(stale))
      requires !luck.write.Unwritten? || f.updateFails
      modifies this`sessions, this`registry, this`procs, this`calls, this`watchers, this`persisted
      ensures Leads(f, start, Now())
      ensures calls == old(calls)[c := old(calls)[c].(pc := Leaving(session))]
      ensures session.Some? ==> Bound(session.value, envelope) && Alive(session.value)
      ensures session == SpawnedSession(f, old(procs), old(sessions), Some(stale), envelope, luck)
      ensures OthersUntouched(old(procs), procs)
    {
      var proc := Spawn(start, c, envelope, luck.pid);
      if proc.None? { return None; }
      var p := proc.value;
      var sid := SessionIdFromPid(envelope, procs[p].pid);
      Register(start, c, sid, p);
      var stored := Update(start, c, envelope, p, luck.write);
      return if stored then Some(sid) else None;
    }

    method Update(ghost start: State, c: CallId, envelope: string, p: ProcId, write: RowWrite) returns (stored: bool)
      requires Leads(f, start, Now()) && c in calls && calls[c].kind.Resume? && calls[c].envelope == envelope
      requires p in procs && procs[p].envelope == envelope && calls[c].pc.Registered? && calls[c].pc.proc == p
      requires !write.Unwritten? || f.updateFails
      modifies this`sessions, this`calls, this`persisted
      ensures Leads(f, start, Now()) && (stored ==> Bound(Sid(procs[p]), envelope))
      ensures var rows := RekeyRow(old(sessions), envelope, Sid(procs[p]));
              && stored == (rows.Some? && write.Written?)
              && sessions == if rows.Some? && !write.Unwritten? then rows.value else old(sessions)
      ensures calls == old(calls)[c := old(calls)[c].(pc := Leaving(if stored then Some(Sid(procs[p])) else None))]
    {
      ghost var s := Now();
      var sid := SessionIdFromPid(envelope, procs[p].pid);
      var took := false;
      if !write.Unwritten? { took := UpdateSessionId(envelope, sid); }
      stored := took && write.Written?;
      calls := calls[c := calls[c].(pc := Leaving(if stored then Some(sid) else None))];
      assert ResumePersistStep(f, s, c, write) == Some(Now());
      Then(f, start, s, Action.Persist(c, write), Now());
    }

    /** The read before the gate; without a row there is nothing to resume. */
    method FirstLook(ghost start: State, c: CallId, envelope: string, ok: bool) returns (row: Option<string>)
      requires Leads(f, start, Now()) && c in calls && calls[c] == Call(Kind.Resume, envelope, Arrived)
      modifies this`calls
      ensures Leads(f, start, Now()) && if ok then Answers(sessions, envelope, row) else row == None
      ensures calls == old(calls)[c := old(calls)[c].(pc := if row.None? then Finished(Refused) else Queued(row))]
    {
      ghost var s := Now();
      row := GetByEnvelope(envelope);
      if !ok { row := None; }
      calls := calls[c := calls[c].(pc := if row.None? then Finished(Refused) else Queued(row))];
      assert FirstReadStep(s, c, row, ok) == Some(Now());
      Then(f, start, s, FirstRead(c, row, ok), Now());
    }

    /** The part under the gate: the row is read again, and the session respawned if dead. */
    method ResumeLocked(ghost start: State, c: CallId, envelope: string, known: string, luck: Luck)
      returns (session: Option<string>, ghost row: string)
      requires Leads(f, start, Now()) && c in calls && calls[c].kind.Resume? && calls[c].envelope == envelope
      requires calls[c].pc == Holding(Some(known))
      requires (luck.refetchOk || f.refetchFails) && (!luck.write.Unwritten? || f.updateFails)
      modifies this`sessions, this`registry, this`procs, this`calls, this`watchers, this`persisted
      ensures Leads(f, start, Now())
      ensures calls == old(calls)[c := old(calls)[c].(pc := Leaving(session))]
      ensures session.Some? ==> Alive(session.value)
      ensures OthersUntouched(old(procs), procs)
      ensures if luck.refetchOk && exists sid :: sid in old(sessions) && old(sessions)[sid] == envelope
              then row in old(sessions) && old(sessions)[row] == envelope else row == known
      ensures session == Resumable(f, old(registry), old(procs), old(sessions), row, envelope, luck)
      ensures Lives(old(registry), old(procs), row) ==> procs == old(procs)
    {
      var again := Fetch(start, c, envelope, luck.refetchOk);
      var sess := if luck.refetchOk && again.Some? then again.value else known;
      row := sess;
      var alive := Running(start, c, sess);
      if alive { return Some(sess), row; }
      session := RespawnLocked(start, c, envelope, sess, luck);
    }

    method ResumeGated(
        ghost start: State, c: CallId, envelope: string, known: string, luck: Luck, others: seq<Action>)
      returns (reply: Option<Reply>, ghost row: string)
      requires Leads(f, start, Now()) && c in calls && calls[c] == Call(Kind.Resume, envelope, Queued(Some(known)))
      requires (luck.refetchOk || f.refetchFails) && (!luck.write.Unwritten? || f.updateFails)
      modifies this
      ensures Leads(f, start, Now()) && c in calls
      ensures calls[c] == Call(Kind.Resume, envelope,
        if reply.Some? then Finished(reply.value) else Queued(Some(known)))
      ensures if reply.Some? then envelope !in gates else envelope in gates
      ensures envelope !in old(gates) ==> reply.Some? && OthersUntouched(old(procs), procs) && gates == old(gates)
      ensures envelope !in old(gates) ==>
                var session := Resumable(f, old(registry), old(procs), old(sessions), row, envelope, luck);
                && (if luck.refetchOk && exists sid :: sid in old(sessions) && old(sessions)[sid] == envelope
                    then row in old(sessions) && old(sessions)[row] == envelope else row == known)
                && reply == Some(if session.Some? then Resumed else Refused)
                && (session.Some? ==> Alive(session.value))
                && (Lives(old(registry), old(procs), row) ==> procs == old(procs))
    {
      Await(start, c, envelope, others);
      if envelope in gates { return None, known; }
      Lock(start, c, envelope);
      var session;
      session, row := ResumeLocked(start, c, envelope, known, luck);
      Unlock(start, c, envelope);
      return Some(if session.Some? then Resumed else Refused), row;
    }

    /** The resume handler up to the injection. No reply means that after `others` it still
        waits at its gate; `row` is the session it goes by. */
    method Resume(c: CallId, envelope: string, luck: Luck, others: seq<Action>)
      returns (reply: Option<Reply>, ghost row: string)
      requires c !in calls && (luck.refetchOk || f.refetchFails) && (!luck.write.Unwritten? || f.updateFails)
      modifies this
      ensures Leads(f, old(Now()), Now())
      ensures envelope == "" ==> reply == Some(Refused) && Now() == old(Now())
      ensures envelope != "" ==> c in calls && calls[c].kind.Resume? && calls[c].envelope == envelope
      ensures envelope != "" ==> if reply.Some? then calls[c].pc == Finished(reply.value) else calls[c].pc.Queued?
      ensures reply.None? ==> envelope in gates
      ensures envelope !in old(gates) ==> reply.Some? && OthersUntouched(old(procs), procs) && gates == old(gates)
      ensures envelope != "" && envelope !in old(gates) ==>
                if luck.readOk && exists sid :: sid in old(sessions) && old(sessions)[sid] == envelope then
                  var session := Resumable(f, old(registry), old(procs), old(sessions), row, envelope, luck);
                  && row in old(sessions) && old(sessions)[row] == envelope
                  && reply == Some(if session.Some? then Resumed else Refused)
                  && (session.Some? ==> Alive(session.value))
                  && (Lives(old(registry), old(procs), row) ==> procs == old(procs))
                else reply == Some(Refused) && procs == old(procs)
    {
      ghost var start := Now();
      Stays(Steps(f), start);
      if envelope == "" { return Some(Refused), ""; }
      Arrive(start, c, Kind.Resume, envelope);
      var known := FirstLook(start, c, envelope, luck.readOk);
      if known.None? { return Some(Refused), ""; }
      reply, row := ResumeGated(start, c, envelope, known.value, luck, others);
    }
  }
}
