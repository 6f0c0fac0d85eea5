/** Forge's two spawning handlers as one step system: every shared-memory access, store
    statement and process event is a step, so calls interleave as goroutines do. */
module Gateway {
  import opened Wrappers
  import opened Runs
  import opened SessionIds

  const MAX_CACHED_DELIVERIES := 1000

  type CallId = nat
  type ProcId = nat

  /** A launched process. `running` turns false once it has exited and its output is drained. */
  datatype Process = Process(envelope: string, pid: nat, running: bool)

  datatype Ack = Ack(deliveryId: string, envelopeId: string, sessionId: string, ackedAt: int)

  datatype Kind = Deliver(deliveryId: string, now: int) | Resume

  datatype Reply = Accepted(ack: Ack) | Resumed | Refused

  /** Where a handler call stands; from Holding to Leaving it owns its envelope's gate. */
  datatype Pc =
    | Arrived                                       // deliver: ack cache next; resume: first read next
    | Queued(known: Option<string>)                 // blocked on the gate; resume keeps its first read
    | Holding(known: Option<string>)                // gate taken, session row to be fetched
    | Fetched(session: string)                      // registry to be looked up
    | Probing(session: string, handle: Option<ProcId>) // handle to be asked whether it runs
    | Spawning(row: Option<string>)                 // a process must be launched
    | Spawned(row: Option<string>, proc: ProcId)
    | Persisted(proc: ProcId)                       // deliver: row written, registry next
    | Registered(row: Option<string>, proc: ProcId) // resume: registry written, row next
    | Stopping(proc: ProcId)                        // deliver: waits for the process to end
    | Leaving(result: Option<string>)               // gate to be released
    | Acking(session: string)                       // deliver: ack to be cached and sent
    | Finished(reply: Reply)

  predicate InGate(pc: Pc) {
    !pc.Arrived? && !pc.Queued? && !pc.Acking? && !pc.Finished?
  }

  datatype Call = Call(kind: Kind, envelope: string, pc: Pc)

  /** `sessions` is the session register (session id to envelope id), `gates` the locked
      spawn gates with their owners, `watchers` the pending exit-cleanup goroutines.
      `acks` and `persisted` record all acks sent and all rows ever written. */
  datatype State = State(
    calls: map<CallId, Call>,
    gates: map<string, CallId>,
    sessions: map<string, string>,
    registry: map<string, ProcId>,
    watchers: set<(string, ProcId)>,
    procs: map<ProcId, Process>,
    cache: map<string, Ack>,
    acks: set<Ack>,
    persisted: set<(string, string)>)

  const INIT := State(map[], map[], map[], map[], {}, map[], map[], {}, {})

  /** Events the one-executor claim depends on being absent. */
  datatype Faults = Faults(
    refetchFails: bool,  // resume's second read under the gate errors
    updateFails: bool,   // resume's UpdateSessionID errors without having taken effect
    restarts: bool,      // Forge restarts, its executors live on
    foreignIds: bool,    // deliveries arrive with ids other than "d-" + envelope id
    recycles: bool)      // a pid is handed out again before its last holder's output is drained

  datatype Launch = LaunchFails | Launches(proc: ProcId, pid: int)

  /** What becomes of a row write; an unconfirmed one took effect and yet reports an error. */
  datatype RowWrite = Written | Unwritten | Unconfirmed

  datatype Action =
    | BeginDeliver(call: CallId, envelope: string, deliveryId: string, now: int)
    | BeginResume(call: CallId, envelope: string)
    | CheckCache(call: CallId)
    | FirstRead(call: CallId, found: Option<string>, ok: bool)
    | TakeGate(call: CallId)
    | Fetch(call: CallId, found: Option<string>, ok: bool)
    | LookUp(call: CallId)
    | Probe(call: CallId)
    | Spawn(call: CallId, launch: Launch)
    | Persist(call: CallId, write: RowWrite)
    | Register(call: CallId)
    | StopReturns(call: CallId)
    | ReleaseGate(call: CallId)
    | SendAck(call: CallId)
    | Exit(proc: ProcId)
    | CleanUp(session: string, proc: ProcId)
    | Restart

  function Sid(p: Process): string {
    SessionIdFromPid(p.envelope, p.pid)
  }

  function Move(s: State, c: CallId, pc: Pc): State
    requires c in s.calls
  {
    s.(calls := s.calls[c := s.calls[c].(pc := pc)])
  }

  /** `GetByEnvelope`: some row of the envelope, or none when there is none. */
  predicate Answers(sessions: map<string, string>, envelope: string, found: Option<string>) {
    match found
    case Some(sid) => sid in sessions && sessions[sid] == envelope
    case None => forall sid :: sid in sessions ==> sessions[sid] != envelope
  }

  /** `Insert`: the session id is the primary key. */
  function InsertRow(sessions: map<string, string>, envelope: string, sid: string): Option<map<string, string>> {
    if sid in sessions then None else Some(sessions[sid := envelope])
  }

  /** `UpdateSessionID`: all rows of the envelope get the new key, which fails when there
      is no such row or the key would be taken twice. */
  function RekeyRow(sessions: map<string, string>, envelope: string, sid: string): Option<map<string, string>> {
    var own := set k | k in sessions && sessions[k] == envelope;
    var others := map k | k in sessions && sessions[k] != envelope :: sessions[k];
    if |own| != 1 || sid in others then None else Some(others[sid := envelope])
  }

  function Begin(s: State, c: CallId, kind: Kind, envelope: string): Option<State> {
    if c in s.calls || envelope == "" then None
    else Some(s.(calls := s.calls[c := Call(kind, envelope, Arrived)]))
  }

  function CheckCacheStep(s: State, c: CallId): Option<State> {
    if c !in s.calls || !s.calls[c].pc.Arrived? || !s.calls[c].kind.Deliver? then None
    else
      var id := s.calls[c].kind.deliveryId;
      Some(Move(s, c, if id in s.cache then Finished(Accepted(s.cache[id])) else Queued(None)))
  }

  function FirstReadStep(s: State, c: CallId, found: Option<string>, ok: bool): Option<State> {
    if c !in s.calls || !s.calls[c].pc.Arrived? || !s.calls[c].kind.Resume? then None
    else if !ok then Some(Move(s, c, Finished(Refused)))
    else if !Answers(s.sessions, s.calls[c].envelope, found) then None
    else Some(Move(s, c, if found.None? then Finished(Refused) else Queued(found)))
  }

  function TakeGateStep(s: State, c: CallId): Option<State> {
    if c !in s.calls || !s.calls[c].pc.Queued? || s.calls[c].envelope in s.gates then None
    else Some(Move(s, c, Holding(s.calls[c].pc.known)).(gates := s.gates[s.calls[c].envelope := c]))
  }

  function FetchStep(f: Faults, s: State, c: CallId, found: Option<string>, ok: bool): Option<State> {
    if c !in s.calls || !s.calls[c].pc.Holding? then None
    else if ok && !Answers(s.sessions, s.calls[c].envelope, found) then None
    else match s.calls[c].pc.known
      case None =>
        if !ok then Some(Move(s, c, Leaving(None)))
        else Some(Move(s, c, if found.Some? then Fetched(found.value) else Spawning(None)))
      case Some(stale) =>
        if !ok && !f.refetchFails then None
        else Some(Move(s, c, Fetched(if ok && found.Some? then found.value else stale)))
  }

  function LookUpStep(s: State, c: CallId): Option<State> {
    if c !in s.calls || !s.calls[c].pc.Fetched? then None
    else
      var sid := s.calls[c].pc.session;
      Some(Move(s, c, Probing(sid, if sid in s.registry then Some(s.registry[sid]) else None)))
  }

  function ProbeStep(s: State, c: CallId): Option<State> {
    if c !in s.calls || !s.calls[c].pc.Probing? then None
    else
      var Probing(sid, handle) := s.calls[c].pc;
      var alive := handle.Some? && handle.value in s.procs && s.procs[handle.value].running;
      Some(Move(s, c, if alive then Leaving(Some(sid)) else Spawning(Some(sid))))
  }

  predicate PidFree(procs: map<ProcId, Process>, pid: int) {
    forall q | q in procs && procs[q].running :: procs[q].pid != pid
  }

  function SpawnStep(f: Faults, s: State, c: CallId, launch: Launch): Option<State> {
    if c !in s.calls || !s.calls[c].pc.Spawning? then None
    else match launch
      case LaunchFails => Some(Move(s, c, Leaving(None)))
      case Launches(p, pid) =>
        if p in s.procs then None
        else if pid <= 0 then Some(Move(s, c, Leaving(None)))
        else if !f.recycles && !PidFree(s.procs, pid) then None
        else Some(Move(s, c, Spawned(s.calls[c].pc.row, p))
                  .(procs := s.procs[p := Process(s.calls[c].envelope, pid, true)]))
  }

  /** Deliver writes its row before it registers, and stops its process when that fails. */
  function DeliverPersistStep(s: State, c: CallId, write: RowWrite): Option<State> {
    if c !in s.calls || !s.calls[c].pc.Spawned? || s.calls[c].pc.proc !in s.procs then None
    else
      var e, row, p := s.calls[c].envelope, s.calls[c].pc.row, s.calls[c].pc.proc;
      var sid := Sid(s.procs[p]);
      var rows := if row.Some? then RekeyRow(s.sessions, e, sid) else InsertRow(s.sessions, e, sid);
      if write.Unwritten? || rows.None? then Some(Move(s, c, Stopping(p)))
      else Some(Move(s, c, if write.Written? then Persisted(p) else Stopping(p))
                .(sessions := rows.value, persisted := s.persisted + {(sid, e)}))
  }

  function DeliverRegisterStep(s: State, c: CallId): Option<State> {
    if c !in s.calls || !s.calls[c].pc.Persisted? || s.calls[c].pc.proc !in s.procs then None
    else
      var p := s.calls[c].pc.proc;
      var sid := Sid(s.procs[p]);
      Some(Move(s, c, Leaving(Some(sid)))
           .(registry := s.registry[sid := p], watchers := s.watchers + {(sid, p)}))
  }

  /** Resume registers before it updates the row, and does not stop its process when that fails. */
  function ResumeRegisterStep(s: State, c: CallId): Option<State> {
    if c !in s.calls || !s.calls[c].pc.Spawned? || s.calls[c].pc.proc !in s.procs then None
    else
      var row, p := s.calls[c].pc.row, s.calls[c].pc.proc;
      var sid := Sid(s.procs[p]);
      Some(Move(s, c, Registered(row, p))
           .(registry := s.registry[sid := p], watchers := s.watchers + {(sid, p)}))
  }

  function ResumePersistStep(f: Faults, s: State, c: CallId, write: RowWrite): Option<State> {
    if c !in s.calls || !s.calls[c].pc.Registered? || s.calls[c].pc.proc !in s.procs then None
    else if write.Unwritten? && !f.updateFails then None
    else
      var e := s.calls[c].envelope;
      var sid := Sid(s.procs[s.calls[c].pc.proc]);
      var rows := RekeyRow(s.sessions, e, sid);
      if write.Unwritten? || rows.None? then Some(Move(s, c, Leaving(None)))
      else Some(Move(s, c, Leaving(if write.Written? then Some(sid) else None))
                .(sessions := rows.value, persisted := s.persisted + {(sid, e)}))
  }

  function PersistStep(f: Faults, s: State, c: CallId, write: RowWrite): Option<State> {
    if c !in s.calls then None
    else if s.calls[c].kind.Deliver? then DeliverPersistStep(s, c, write)
    else ResumePersistStep(f, s, c, write)
  }

  function RegisterStep(s: State, c: CallId): Option<State> {
    if c !in s.calls then None
    else if s.calls[c].kind.Deliver? then DeliverRegisterStep(s, c)
    else ResumeRegisterStep(s, c)
  }

  function StopReturnsStep(s: State, c: CallId): Option<State> {
    if c !in s.calls || !s.calls[c].pc.Stopping? then None
    else
      var p := s.calls[c].pc.proc;
      if p in s.procs && s.procs[p].running then None else Some(Move(s, c, Leaving(None)))
  }

  function ReleaseGateStep(s: State, c: CallId): Option<State> {
    if c !in s.calls || !s.calls[c].pc.Leaving? then None
    else
      var Call(kind, e, pc) := s.calls[c];
      var next := if pc.result.None? then Finished(Refused)
                  else if kind.Deliver? then Acking(pc.result.value) else Finished(Resumed);
      Some(Move(s, c, next).(gates := s.gates - {e}))
  }

  function SendAckStep(s: State, c: CallId): Option<State> {
    if c !in s.calls || !s.calls[c].pc.Acking? || !s.calls[c].kind.Deliver? then None
    else
      var Call(kind, e, pc) := s.calls[c];
      var ack := Ack(kind.deliveryId, e, pc.session, kind.now);
      var kept := if |s.cache| >= MAX_CACHED_DELIVERIES then map[] else s.cache;
      Some(Move(s, c, Finished(Accepted(ack))).(cache := kept[kind.deliveryId := ack], acks := s.acks + {ack}))
  }

  function ExitStep(s: State, p: ProcId): Option<State> {
    if p !in s.procs then None else Some(s.(procs := s.procs[p := s.procs[p].(running := false)]))
  }

  function CleanUpStep(s: State, sid: string, p: ProcId): Option<State> {
    if (sid, p) !in s.watchers || p !in s.procs || s.procs[p].running then None
    else
      Some(s.(watchers := s.watchers - {(sid, p)},
              registry := if sid in s.registry && s.registry[sid] == p then s.registry - {sid} else s.registry))
  }

  /** The register survives on disk and the executors survive as processes; all memory is lost. */
  function RestartStep(s: State): State {
    s.(calls := map c | c in s.calls ::
         if s.calls[c].pc.Finished? then s.calls[c] else s.calls[c].(pc := Finished(Refused)),
       gates := map[], registry := map[], watchers := {}, cache := map[])
  }

  function Step(f: Faults, s: State, a: Action): Option<State> {
    match a
    case BeginDeliver(c, e, id, now) =>
      if id == "" || (id != "d-" + e && !f.foreignIds) then None else Begin(s, c, Deliver(id, now), e)
    case BeginResume(c, e) => Begin(s, c, Resume, e)
    case CheckCache(c) => CheckCacheStep(s, c)
    case FirstRead(c, found, ok) => FirstReadStep(s, c, found, ok)
    case TakeGate(c) => TakeGateStep(s, c)
    case Fetch(c, found, ok) => FetchStep(f, s, c, found, ok)
    case LookUp(c) => LookUpStep(s, c)
    case Probe(c) => ProbeStep(s, c)
    case Spawn(c, launch) => SpawnStep(f, s, c, launch)
    case Persist(c, write) => PersistStep(f, s, c, write)
    case Register(c) => RegisterStep(s, c)
    case StopReturns(c) => StopReturnsStep(s, c)
    case ReleaseGate(c) => ReleaseGateStep(s, c)
    case SendAck(c) => SendAckStep(s, c)
    case Exit(p) => ExitStep(s, p)
    case CleanUp(sid, p) => CleanUpStep(s, sid, p)
    case Restart => if f.restarts then Some(RestartStep(s)) else None
  }

  function Steps(f: Faults): StepSystem<State, Action> {
    (s, a) => Step(f, s, a)
  }

  /** The claim: an envelope never has two executors running at once. */
  ghost predicate OneExecutor(s: State) {
    forall p, q | p in s.procs && q in s.procs && s.procs[p].running && s.procs[q].running ::
      s.procs[p].envelope == s.procs[q].envelope ==> p == q
  }
}
