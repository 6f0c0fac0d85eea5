/** Replays: when a delivery id is answered with one ack for ever. The handler drops its
    mutex between the cache check and the cache write, so the check alone does not decide. */
module GatewayAcks {
  import opened Wrappers
  import opened Runs
  import opened SessionIds
  import opened Gateway

  /** What callers and the cache size may do beyond delivering one id at a time. */
  datatype Care = Care(
    overlaps: bool,   // a delivery id is posted again while its first post is under way
    evicts: bool)     // an ack is sent while the cache is at its cap, which empties it

  predicate Underway(call: Call, id: string) {
    call.kind.Deliver? && call.kind.deliveryId == id && !call.pc.Finished?
  }

  predicate Careful(k: Care, s: State, a: Action) {
    match a
    case BeginDeliver(_, _, id, _) => k.overlaps || forall c | c in s.calls :: !Underway(s.calls[c], id)
    case SendAck(_) => k.evicts || |s.cache| < MAX_CACHED_DELIVERIES
    case _ => true
  }

  function CarefulStep(f: Faults, k: Care, s: State, a: Action): Option<State> {
    if Careful(k, s, a) then Step(f, s, a) else None
  }

  function Steps(f: Faults, k: Care): StepSystem<State, Action> {
    (s, a) => CarefulStep(f, k, s, a)
  }

  ghost predicate Reached(f: Faults, k: Care, s: State) {
    Reaches(Steps(f, k), INIT, s)
  }

  ghost predicate OneAckPerId(s: State) {
    forall a, b | a in s.acks && b in s.acks :: a.deliveryId == b.deliveryId ==> a == b
  }

  ghost predicate OneSessionPerId(s: State) {
    forall a, b | a in s.acks && b in s.acks :: a.deliveryId == b.deliveryId ==> a.sessionId == b.sessionId
  }

  /** No delivery id is ever acked in two ways. */
  ghost predicate Idempotent(f: Faults, k: Care) {
    forall s | Reached(f, k, s) :: OneAckPerId(s)
  }

  /** No delivery id is ever acked with two sessions, whatever the timestamps. */
  ghost predicate Steady(f: Faults, k: Care) {
    forall s | Reached(f, k, s) :: OneSessionPerId(s)
  }

  // ----- one id at a time, nothing forgotten -----

  /** Past the cache check and not yet answered. */
  predicate Committed(call: Call) {
    call.kind.Deliver? && !call.pc.Arrived? && !call.pc.Finished?
  }

  ghost predicate AcksCached(s: State) {
    forall a | a in s.acks :: a.deliveryId in s.cache && s.cache[a.deliveryId] == a
  }

  ghost predicate Inv(s: State) {
    && AcksCached(s)
    && (forall c | c in s.calls && Committed(s.calls[c]) :: s.calls[c].kind.deliveryId !in s.cache)
    && forall c, d | c in s.calls && d in s.calls && s.calls[c].kind.Deliver? && !s.calls[c].pc.Finished?
                     && Underway(s.calls[d], s.calls[c].kind.deliveryId) :: c == d
  }

  /** A step that leaves the cache alone and commits no call whose id is cached. */
  lemma CallsMove(s: State, t: State)
    requires Inv(s) && t.cache == s.cache && t.acks == s.acks && t.calls.Keys == s.calls.Keys
    requires forall c | c in s.calls :: t.calls[c].kind == s.calls[c].kind
    requires forall c | c in s.calls && s.calls[c].pc.Finished? :: t.calls[c].pc.Finished?
    requires forall c | c in s.calls && Committed(t.calls[c]) ::
               Committed(s.calls[c]) || t.calls[c].kind.deliveryId !in s.cache
    ensures Inv(t)
  {
  }

  lemma CallMoves(s: State, c: CallId, t: State)
    requires Inv(s) && t.cache == s.cache && t.acks == s.acks && c in s.calls && c in t.calls
    requires t.calls == s.calls[c := s.calls[c].(pc := t.calls[c].pc)]
    requires !s.calls[c].pc.Arrived? && !s.calls[c].pc.Finished?
    ensures Inv(t)
  {
    CallsMove(s, t);
  }

  lemma BeginDeliverKeeps(f: Faults, k: Care, s: State, c: CallId, e: string, id: string, now: int, t: State)
    requires !k.overlaps && Inv(s) && CarefulStep(f, k, s, BeginDeliver(c, e, id, now)) == Some(t)
    ensures Inv(t)
  {
  }

  lemma BeginResumeKeeps(f: Faults, s: State, c: CallId, e: string, t: State)
    requires Inv(s) && Step(f, s, BeginResume(c, e)) == Some(t)
    ensures Inv(t)
  {
  }

  lemma SendAckKeeps(s: State, c: CallId, t: State)
    requires Inv(s) && |s.cache| < MAX_CACHED_DELIVERIES && SendAckStep(s, c) == Some(t)
    ensures Inv(t)
  {
  }

  lemma CheckCacheKeeps(s: State, c: CallId, t: State)
    requires Inv(s) && CheckCacheStep(s, c) == Some(t)
    ensures Inv(t)
  {
  }

  /** All other steps move one call that is past the cache check, or none. */
  lemma OtherStepKeeps(f: Faults, s: State, a: Action, t: State)
    requires Inv(s) && Step(f, s, a) == Some(t)
    requires a.TakeGate? || a.LookUp? || a.Probe? || a.StopReturns? || a.ReleaseGate? || a.Exit? || a.CleanUp?
    ensures Inv(t)
  {
    CallsMove(s, t);
  }

  lemma FirstReadKeeps(s: State, c: CallId, found: Option<string>, ok: bool, t: State)
    requires Inv(s) && FirstReadStep(s, c, found, ok) == Some(t)
    ensures Inv(t)
  {
  }

  lemma FetchKeeps(f: Faults, s: State, c: CallId, found: Option<string>, ok: bool, t: State)
    requires Inv(s) && FetchStep(f, s, c, found, ok) == Some(t)
    ensures Inv(t)
  {
  }

  lemma SpawnKeeps(f: Faults, s: State, c: CallId, launch: Launch, t: State)
    requires Inv(s) && SpawnStep(f, s, c, launch) == Some(t)
    ensures Inv(t)
  {
    CallMoves(s, c, t);
  }

  lemma DeliverPersistKeeps(s: State, c: CallId, write: RowWrite, t: State)
    requires Inv(s) && DeliverPersistStep(s, c, write) == Some(t)
    ensures Inv(t)
  {
  }

  lemma ResumePersistKeeps(f: Faults, s: State, c: CallId, write: RowWrite, t: State)
    requires Inv(s) && ResumePersistStep(f, s, c, write) == Some(t)
    ensures Inv(t)
  {
  }

  lemma DeliverRegisterKeeps(s: State, c: CallId, t: State)
    requires Inv(s) && DeliverRegisterStep(s, c) == Some(t)
    ensures Inv(t)
  {
  }

  lemma ResumeRegisterKeeps(s: State, c: CallId, t: State)
    requires Inv(s) && ResumeRegisterStep(s, c) == Some(t)
    ensures Inv(t)
  {
  }

  lemma StepKeeps(f: Faults, k: Care, s: State, a: Action, t: State)
    requires !k.overlaps && !k.evicts && !f.restarts
    requires Inv(s) && CarefulStep(f, k, s, a) == Some(t)
    ensures Inv(t)
  {
    match a
    case BeginDeliver(c, e, id, now) => BeginDeliverKeeps(f, k, s, c, e, id, now, t);
    case BeginResume(c, e) => BeginResumeKeeps(f, s, c, e, t);
    case CheckCache(c) => CheckCacheKeeps(s, c, t);
    case FirstRead(c, found, ok) => FirstReadKeeps(s, c, found, ok, t);
    case Fetch(c, found, ok) => FetchKeeps(f, s, c, found, ok, t);
    case Spawn(c, launch) => SpawnKeeps(f, s, c, launch, t);
    case Persist(c, write) =>
      if s.calls[c].kind.Deliver? {
        DeliverPersistKeeps(s, c, write, t);
      } else {
        ResumePersistKeeps(f, s, c, write, t);
      }
    case Register(c) =>
      if s.calls[c].kind.Deliver? { DeliverRegisterKeeps(s, c, t); } else { ResumeRegisterKeeps(s, c, t); }
    case SendAck(c) => SendAckKeeps(s, c, t);
    case _ => OtherStepKeeps(f, s, a, t);
  }

  lemma {:induction false} RunKeeps(f: Faults, k: Care, s: State, run: seq<Action>, t: State)
    requires !k.overlaps && !k.evicts && !f.restarts
    requires Inv(s) && RunFrom(Steps(f, k), s, run) == Some(t)
    ensures Inv(t)
    decreases |run|
  {
    if run == [] {
    } else {
      var next := CarefulStep(f, k, s, run[0]).value;
      StepKeeps(f, k, s, run[0], next);
      RunKeeps(f, k, next, run[1..], t);
    }
  }

  // ----- runs that ack one id twice -----

  lemma Exits(f: Faults, k: Care, s: State, p: ProcId) returns (t: State)
    requires Reached(f, k, s) && p in s.procs
    ensures Reached(f, k, t) && ExitStep(s, p) == Some(t)
  {
    t := ExitStep(s, p).value;
    ReachNext(Steps(f, k), INIT, s, Exit(p), t);
  }

  function Posted(s: State, c: CallId, e: string, now: int): State {
    s.(calls := s.calls[c := Call(Deliver("d-" + e, now), e, Queued(None))])
  }

  /** A delivery under its stable id gets past the cache check. */
  lemma Post(f: Faults, k: Care, s: State, c: CallId, e: string, now: int) returns (t: State)
    requires Reached(f, k, s) && c !in s.calls && e != "" && "d-" + e !in s.cache
    requires k.overlaps || forall d | d in s.calls :: s.calls[d].pc.Finished?
    ensures Reached(f, k, t) && t == Posted(s, c, e, now)
  {
    var s1 := s.(calls := s.calls[c := Call(Deliver("d-" + e, now), e, Arrived)]);
    ReachNext(Steps(f, k), INIT, s, BeginDeliver(c, e, "d-" + e, now), s1);
    t := Move(s1, c, Queued(None));
    ReachNext(Steps(f, k), INIT, s1, CheckCache(c), t);
    assert t.calls == s.calls[c := Call(Deliver("d-" + e, now), e, Queued(None))];
  }

  /** Under the gate: the envelope has this row, or none. */
  lemma Enter(f: Faults, k: Care, s: State, c: CallId, row: Option<string>) returns (t: State)
    requires Reached(f, k, s) && c in s.calls && s.calls[c].kind.Deliver? && s.calls[c].pc == Queued(None)
    requires s.calls[c].envelope !in s.gates && Answers(s.sessions, s.calls[c].envelope, row)
    ensures Reached(f, k, t)
    ensures t == Move(s, c, if row.Some? then Fetched(row.value) else Spawning(None))
      .(gates := s.gates[s.calls[c].envelope := c])
  {
    var s1 := Move(s, c, Holding(None)).(gates := s.gates[s.calls[c].envelope := c]);
    ReachNext(Steps(f, k), INIT, s, TakeGate(c), s1);
    t := Move(s1, c, if row.Some? then Fetched(row.value) else Spawning(None));
    ReachNext(Steps(f, k), INIT, s1, Fetch(c, row, true), t);
    assert t.calls == Move(s, c, if row.Some? then Fetched(row.value) else Spawning(None)).calls;
  }

  /** Asks the registry about a session without a live process. */
  lemma Ask(f: Faults, k: Care, s: State, c: CallId, sid: string) returns (t: State)
    requires Reached(f, k, s) && c in s.calls && s.calls[c].pc == Fetched(sid)
    requires sid in s.registry ==> s.registry[sid] in s.procs && !s.procs[s.registry[sid]].running
    ensures Reached(f, k, t) && t == Move(s, c, Spawning(Some(sid)))
  {
    var s1 := Move(s, c, Probing(sid, if sid in s.registry then Some(s.registry[sid]) else None));
    ReachNext(Steps(f, k), INIT, s, LookUp(c), s1);
    t := Move(s1, c, Spawning(Some(sid)));
    ReachNext(Steps(f, k), INIT, s1, Probe(c), t);
    assert t.calls == Move(s, c, Spawning(Some(sid))).calls;
  }

  /** The pid the system gives the p-th process: no two of these runs' processes share one. */
  function Pid(p: ProcId): (pid: nat)
    ensures pid > 0
  {
    p + 7
  }

  function SidOf(e: string, p: ProcId): string {
    SessionIdFromPid(e, Pid(p))
  }

  lemma SidsDiffer(e: string, p: ProcId, e': string, p': ProcId)
    ensures SidOf(e, p) == SidOf(e', p') <==> e == e' && p == p'
  {
    SessionIdsAreInjective(e, Pid(p), e', Pid(p'));
  }

  function RowsWith(s: State, row: Option<string>, e: string, p: ProcId): Option<map<string, string>> {
    if row.Some? then RekeyRow(s.sessions, e, SidOf(e, p)) else InsertRow(s.sessions, e, SidOf(e, p))
  }

  lemma Launch(f: Faults, k: Care, s: State, c: CallId, p: ProcId) returns (t: State)
    requires Reached(f, k, s) && c in s.calls && s.calls[c].pc.Spawning? && p !in s.procs && PidFree(s.procs, Pid(p))
    ensures Reached(f, k, t)
    ensures t == Move(s, c, Spawned(s.calls[c].pc.row, p))
      .(procs := s.procs[p := Process(s.calls[c].envelope, Pid(p), true)])
  {
    t := Move(s, c, Spawned(s.calls[c].pc.row, p)).(procs := s.procs[p := Process(s.calls[c].envelope, Pid(p), true)]);
    ReachNext(Steps(f, k), INIT, s, Spawn(c, Launches(p, Pid(p))), t);
  }

  lemma WriteRow(f: Faults, k: Care, s: State, c: CallId, p: ProcId, rows: map<string, string>) returns (t: State)
    requires Reached(f, k, s) && c in s.calls && s.calls[c].kind.Deliver?
      && s.calls[c].pc.Spawned? && s.calls[c].pc.proc == p
    requires p in s.procs && s.procs[p].envelope == s.calls[c].envelope && s.procs[p].pid == Pid(p)
    requires Some(rows) == RowsWith(s, s.calls[c].pc.row, s.calls[c].envelope, p)
    ensures Reached(f, k, t)
    ensures var e := s.calls[c].envelope;
            t == Move(s, c, Persisted(p)).(sessions := rows, persisted := s.persisted + {(SidOf(e, p), e)})
  {
    var e := s.calls[c].envelope;
    t := Move(s, c, Persisted(p)).(sessions := rows, persisted := s.persisted + {(SidOf(e, p), e)});
    ReachNext(Steps(f, k), INIT, s, Persist(c, Written), t);
  }

  lemma Join(f: Faults, k: Care, s: State, c: CallId, p: ProcId) returns (t: State)
    requires Reached(f, k, s) && c in s.calls && s.calls[c].kind.Deliver?
      && s.calls[c].pc == Persisted(p) && p in s.procs
    ensures Reached(f, k, t)
    ensures var sid := Sid(s.procs[p]);
            t == Move(s, c, Leaving(Some(sid))).(registry := s.registry[sid := p], watchers := s.watchers + {(sid, p)})
  {
    var sid := Sid(s.procs[p]);
    t := Move(s, c, Leaving(Some(sid))).(registry := s.registry[sid := p], watchers := s.watchers + {(sid, p)});
    ReachNext(Steps(f, k), INIT, s, Register(c), t);
  }

  function Kept(cache: map<string, Ack>): map<string, Ack> {
    if |cache| >= MAX_CACHED_DELIVERIES then map[] else cache
  }

  lemma Leave(f: Faults, k: Care, s: State, c: CallId, sid: string) returns (t: State)
    requires Reached(f, k, s) && c in s.calls && s.calls[c].kind.Deliver? && s.calls[c].pc == Leaving(Some(sid))
    ensures Reached(f, k, t) && t == Move(s, c, Acking(sid)).(gates := s.gates - {s.calls[c].envelope})
  {
    t := Move(s, c, Acking(sid)).(gates := s.gates - {s.calls[c].envelope});
    ReachNext(Steps(f, k), INIT, s, ReleaseGate(c), t);
  }

  lemma Confirm(f: Faults, k: Care, s: State, c: CallId, ack: Ack) returns (t: State)
    requires Reached(f, k, s) && c in s.calls && s.calls[c].kind == Deliver(ack.deliveryId, ack.ackedAt)
    requires s.calls[c].pc == Acking(ack.sessionId) && s.calls[c].envelope == ack.envelopeId
    requires k.evicts || |s.cache| < MAX_CACHED_DELIVERIES
    ensures Reached(f, k, t)
    ensures t == Move(s, c, Finished(Accepted(ack)))
                 .(cache := Kept(s.cache)[ack.deliveryId := ack], acks := s.acks + {ack})
  {
    t := Move(s, c, Finished(Accepted(ack))).(cache := Kept(s.cache)[ack.deliveryId := ack], acks := s.acks + {ack});
    ReachNext(Steps(f, k), INIT, s, SendAck(c), t);
  }

  lemma MovedTwice(s: State, t: State, c: CallId, via: Pc, pc: Pc)
    requires c in s.calls && t.calls == Move(s, c, via).calls
    ensures Move(t, c, pc).calls == Move(s, c, pc).calls
  {
  }

  /** Releases the gate and sends the ack. */
  lemma Answer(f: Faults, k: Care, s: State, c: CallId, ack: Ack) returns (t: State)
    requires Reached(f, k, s) && c in s.calls && s.calls[c].kind == Deliver(ack.deliveryId, ack.ackedAt)
    requires s.calls[c].pc == Leaving(Some(ack.sessionId)) && s.calls[c].envelope == ack.envelopeId
    requires k.evicts || |s.cache| < MAX_CACHED_DELIVERIES
    ensures Reached(f, k, t)
    ensures t == Move(s, c, Finished(Accepted(ack)))
                 .(gates := s.gates - {ack.envelopeId},
                   cache := Kept(s.cache)[ack.deliveryId := ack], acks := s.acks + {ack})
  {
    var s1 := Leave(f, k, s, c, ack.sessionId);
    t := Confirm(f, k, s1, c, ack);
    MovedTwice(s, s1, c, s1.calls[c].pc, t.calls[c].pc);
  }

  ghost predicate Quiet(s: State) {
    s.gates == map[] && forall c | c in s.calls :: s.calls[c].pc.Finished?
  }

  function AckOf(e: string, p: ProcId, now: int): Ack {
    Ack("d-" + e, e, SidOf(e, p), now)
  }

  /** The state once call `c` has launched `p`, written its rows and sent its ack. */
  function Acked(s: State, c: CallId, e: string, p: ProcId, now: int, rows: map<string, string>): State
    requires c in s.calls
  {
    var sid, ack := SidOf(e, p), AckOf(e, p, now);
    Move(s, c, Finished(Accepted(ack)))
    .(gates := s.gates - {e}, sessions := rows, registry := s.registry[sid := p], watchers := s.watchers + {(sid, p)},
      procs := s.procs[p := Process(e, Pid(p), true)], persisted := s.persisted + {(sid, e)},
      cache := Kept(s.cache)["d-" + e := ack], acks := s.acks + {ack})
  }

  /** From the launch to the ack. */
  lemma SpawnToAck(f: Faults, k: Care, s: State, c: CallId, e: string, p: ProcId, now: int, rows: map<string, string>)
    returns (t: State)
    requires Reached(f, k, s) && c in s.calls && s.calls[c].pc.Spawning? && p !in s.procs && PidFree(s.procs, Pid(p))
    requires s.calls[c].kind == Deliver("d-" + e, now) && s.calls[c].envelope == e
    requires Some(rows) == RowsWith(s, s.calls[c].pc.row, e, p)
    requires k.evicts || |s.cache| < MAX_CACHED_DELIVERIES
    ensures Reached(f, k, t) && t == Acked(s, c, e, p, now, rows)
  {
    var s1 := Launch(f, k, s, c, p);
    var s2 := WriteRow(f, k, s1, c, p, rows);
    MovedTwice(s, s1, c, s1.calls[c].pc, s2.calls[c].pc);
    var s3 := Join(f, k, s2, c, p);
    MovedTwice(s, s2, c, s2.calls[c].pc, s3.calls[c].pc);
    t := Answer(f, k, s3, c, AckOf(e, p, now));
    MovedTwice(s, s3, c, s3.calls[c].pc, t.calls[c].pc);
  }

  /** A posted delivery of an envelope without a row runs to its ack. */
  lemma FirstDelivery(f: Faults, k: Care, s: State, c: CallId, e: string, p: ProcId, now: int) returns (t: State)
    requires Reached(f, k, s) && c in s.calls && s.calls[c] == Call(Deliver("d-" + e, now), e, Queued(None))
    requires s.gates == map[] && Answers(s.sessions, e, None) && SidOf(e, p) !in s.sessions
    requires p !in s.procs && PidFree(s.procs, Pid(p)) && (k.evicts || |s.cache| < MAX_CACHED_DELIVERIES)
    ensures Reached(f, k, t) && t == Acked(s, c, e, p, now, s.sessions[SidOf(e, p) := e])
  {
    var s1 := Enter(f, k, s, c, None);
    t := SpawnToAck(f, k, s1, c, e, p, now, s.sessions[SidOf(e, p) := e]);
    MovedTwice(s, s1, c, Spawning(None), t.calls[c].pc);
    assert s1.gates - {e} == s.gates - {e};
  }

  /** A posted delivery of an envelope whose process is gone is acked with a new session. */
  lemma SecondDelivery(f: Faults, k: Care, s: State, c: CallId, e: string, sid: string, p: ProcId, now: int)
    returns (t: State)
    requires Reached(f, k, s) && c in s.calls && s.calls[c] == Call(Deliver("d-" + e, now), e, Queued(None))
    requires s.gates == map[] && sid in s.sessions && s.sessions[sid] == e && RowsWith(s, Some(sid), e, p).Some?
    requires sid in s.registry ==> s.registry[sid] in s.procs && !s.procs[s.registry[sid]].running
    requires p !in s.procs && PidFree(s.procs, Pid(p)) && (k.evicts || |s.cache| < MAX_CACHED_DELIVERIES)
    ensures Reached(f, k, t) && t.acks == s.acks + {AckOf(e, p, now)}
  {
    var s1 := Enter(f, k, s, c, Some(sid));
    var s2 := Ask(f, k, s1, c, sid);
    t := SpawnToAck(f, k, s2, c, e, p, now, RowsWith(s, Some(sid), e, p).value);
  }

  /** The only row of an envelope can be re-keyed to an unused id. */
  lemma OnlyRowRekeys(s: State, sid: string, e: string, p: ProcId)
    requires sid in s.sessions && s.sessions[sid] == e && SidOf(e, p) !in s.sessions
    requires forall j | j in s.sessions && s.sessions[j] == e :: j == sid
    ensures RowsWith(s, Some(sid), e, p).Some?
  {
    assert (set j | j in s.sessions && s.sessions[j] == e) == {sid};
  }

  lemma TwoSessions(f: Faults, k: Care, s: State, a: Ack, b: Ack)
    requires Reached(f, k, s) && a in s.acks && b in s.acks
      && a.deliveryId == b.deliveryId && a.sessionId != b.sessionId
    ensures !Steady(f, k) && !Idempotent(f, k)
  {
    assert !OneSessionPerId(s) && !OneAckPerId(s);
  }

  lemma InitReached(f: Faults, k: Care)
    ensures Reached(f, k, INIT)
  {
    Stays(Steps(f, k), INIT);
  }

  /** What is left after a first delivery of `e` at time 0 by call 0. */
  ghost predicate IsAcked(s: State, e: string) {
    && s.gates == map[] && s.procs.Keys == {0} && AckOf(e, 0, 0) in s.acks && s.sessions == map[SidOf(e, 0) := e]
    && s.procs[0].pid == Pid(0) && (forall sid | sid in s.registry :: s.registry[sid] == 0)
    && |s.cache| <= 1
  }

  lemma FirstIsAcked(e: string, s: State, t: State)
    requires s.sessions == map[] && s.gates == map[] && s.procs == map[] && s.registry == map[] && s.cache == map[]
    requires 0 in s.calls && t == Acked(s, 0, e, 0, 0, s.sessions[SidOf(e, 0) := e])
    ensures IsAcked(t, e)
  {
  }

  /** Process 0 exits, if it has not, and envelope `e` is delivered a second time. */
  lemma AckedAgain(f: Faults, k: Care, s: State, e: string)
    requires Reached(f, k, s) && IsAcked(s, e) && 1 in s.calls
    requires s.calls[1] == Call(Deliver("d-" + e, 1), e, Queued(None))
    ensures !Steady(f, k) && !Idempotent(f, k)
  {
    var s1 := Exits(f, k, s, 0);
    SidsDiffer(e, 0, e, 1);
    OnlyRowRekeys(s1, SidOf(e, 0), e, 1);
    var t := SecondDelivery(f, k, s1, 1, e, SidOf(e, 0), 1, 1);
    TwoSessions(f, k, t, AckOf(e, 0, 0), AckOf(e, 1, 1));
  }

  /** Two posts of one delivery both pass the cache check; the first executor exits before
      the second post gets the gate, and so they are acked with different sessions. */
  lemma OverlapIsAckedTwice(f: Faults, k: Care, e: string)
    requires k.overlaps && e != ""
    ensures !Steady(f, k) && !Idempotent(f, k)
  {
    InitReached(f, k);
    var s0 := Post(f, k, INIT, 0, e, 0);
    var s1 := Post(f, k, s0, 1, e, 1);
    var s2 := FirstDelivery(f, k, s1, 0, e, 0, 0);
    FirstIsAcked(e, s1, s2);
    AckedAgain(f, k, s2, e);
  }

  lemma RestartForgets(s: State)
    ensures var t := RestartStep(s);
            && Quiet(t) && t.calls.Keys == s.calls.Keys && t.registry == map[] && t.cache == map[]
            && t.sessions == s.sessions && t.procs == s.procs && t.acks == s.acks
  {
  }

  lemma Restarts(f: Faults, k: Care, s: State)
    requires f.restarts && Reached(f, k, s)
    ensures Reached(f, k, RestartStep(s))
  {
    ReachNext(Steps(f, k), INIT, s, Restart, RestartStep(s));
  }

  /** A restart after the delivery: row and process survive. */
  lemma AckedThenRestarted(f: Faults, k: Care, s: State, e: string) returns (t: State)
    requires f.restarts && Reached(f, k, s) && IsAcked(s, e)
    ensures Reached(f, k, t) && IsAcked(t, e) && Quiet(t) && t.calls.Keys == s.calls.Keys
    ensures t.registry == map[] && t.cache == map[]
  {
    t := RestartStep(s);
    RestartForgets(s);
    Restarts(f, k, s);
  }

  lemma AckedOnce(f: Faults, k: Care, e: string) returns (t: State)
    requires e != ""
    ensures Reached(f, k, t) && IsAcked(t, e) && t.calls.Keys == {0}
  {
    InitReached(f, k);
    var s := Post(f, k, INIT, 0, e, 0);
    t := FirstDelivery(f, k, s, 0, e, 0, 0);
    FirstIsAcked(e, s, t);
  }

  /** The old executor runs on beside the one spawned now. */
  lemma AckedBeside(f: Faults, k: Care, s: State, e: string)
    requires Reached(f, k, s) && IsAcked(s, e) && s.registry == map[] && s.cache == map[] && 1 in s.calls
    requires s.calls[1] == Call(Deliver("d-" + e, 1), e, Queued(None))
    ensures !Steady(f, k) && !Idempotent(f, k)
  {
    SidsDiffer(e, 0, e, 1);
    OnlyRowRekeys(s, SidOf(e, 0), e, 1);
    var t := SecondDelivery(f, k, s, 1, e, SidOf(e, 0), 1, 1);
    TwoSessions(f, k, t, AckOf(e, 0, 0), AckOf(e, 1, 1));
  }

  /** A restart forgets the ack and the process, while the register keeps the session: the
      next delivery spawns beside the old executor and is acked with another session. */
  lemma RestartIsAckedTwice(f: Faults, k: Care, e: string)
    requires f.restarts && e != ""
    ensures !Steady(f, k) && !Idempotent(f, k)
  {
    var s0 := AckedOnce(f, k, e);
    var s1 := AckedThenRestarted(f, k, s0, e);
    var s2 := Post(f, k, s1, 1, e, 1);
    AckedBeside(f, k, s2, e);
  }

  /** The n-th of a family of distinct envelope ids. */
  function Name(n: nat): (e: string)
    ensures |e| == n + 1
  {
    seq(n + 1, _ => 'e')
  }

  /** The n-th process serves the n-th envelope under the n-th pid, and its row is the only one. */
  ghost predicate RowsOwned(sessions: map<string, string>, n: nat) {
    forall sid | sid in sessions ::
      var e := sessions[sid];
      0 < |e| <= n && sid == SidOf(e, |e| - 1)
  }

  ghost predicate ProcsOwned(procs: map<ProcId, Process>, n: nat) {
    forall p | p in procs :: p < n && procs[p].pid == Pid(p)
  }

  /** The first envelope was acked at time 0, and process 0 is its registered executor. */
  ghost predicate FirstIsKnown(s: State) {
    var sid := SidOf(Name(0), 0);
    && AckOf(Name(0), 0, 0) in s.acks && sid in s.sessions && s.sessions[sid] == Name(0)
    && sid in s.registry && s.registry[sid] == 0 && 0 in s.procs
  }

  /** `n` envelopes have been delivered, the first one at time 0, and nothing was evicted. */
  ghost predicate Filled(s: State, n: nat) {
    && Quiet(s) && |s.cache| == n && (forall c | c in s.calls :: c < n) && ProcsOwned(s.procs, n)
    && (forall id | id in s.cache :: |id| <= n + 2) && RowsOwned(s.sessions, n) && (n > 0 ==> FirstIsKnown(s))
  }

  /** The n-th envelope is new to this state in every respect. */
  ghost predicate IsNew(s: State, n: nat, e: string) {
    && n !in s.calls && n !in s.procs && PidFree(s.procs, Pid(n)) && "d-" + e !in s.cache
    && Answers(s.sessions, e, None) && SidOf(e, n) !in s.sessions
  }

  lemma NextIsNew(s: State, n: nat)
    requires Filled(s, n)
    ensures IsNew(s, n, Name(n))
  {
    forall sid | sid in s.sessions ensures sid != SidOf(Name(n), n) {
      SidsDiffer(Name(n), n, s.sessions[sid], |s.sessions[sid]| - 1);
    }
  }

  /** The state after a first delivery of the n-th envelope. */
  function Grown(s: State, n: nat): State {
    Acked(Posted(s, n, Name(n), 0), n, Name(n), n, 0, s.sessions[SidOf(Name(n), n) := Name(n)])
  }

  lemma RowsAfter(s: State, n: nat, t: State)
    requires RowsOwned(s.sessions, n) && t == Grown(s, n)
    ensures RowsOwned(t.sessions, n + 1)
  {
  }

  lemma FirstStays(s: State, n: nat, t: State)
    requires Filled(s, n) && IsNew(s, n, Name(n)) && t == Grown(s, n)
    ensures FirstIsKnown(t)
  {
    SidsDiffer(Name(0), 0, Name(n), n);
  }

  lemma CacheAfter(s: State, n: nat, t: State)
    requires Filled(s, n) && n < MAX_CACHED_DELIVERIES && IsNew(s, n, Name(n)) && t == Grown(s, n)
    ensures |t.cache| == n + 1 && forall id | id in t.cache :: |id| <= n + 3
  {
  }

  lemma QuietAfter(s: State, n: nat, t: State, call: Call, proc: Process)
    requires Filled(s, n) && t.gates == map[] && call.pc.Finished? && proc.pid == Pid(n)
    requires t.calls == s.calls[n := call] && t.procs == s.procs[n := proc]
    ensures Quiet(t) && (forall c | c in t.calls :: c < n + 1) && ProcsOwned(t.procs, n + 1)
  {
  }

  lemma FilledAfter(s: State, n: nat, t: State)
    requires Filled(s, n) && n < MAX_CACHED_DELIVERIES && IsNew(s, n, Name(n)) && t == Grown(s, n)
    ensures Filled(t, n + 1)
  {
    assert t.calls == s.calls[n := t.calls[n]];
    QuietAfter(s, n, t, t.calls[n], t.procs[n]);
    RowsAfter(s, n, t);
    FirstStays(s, n, t);
    CacheAfter(s, n, t);
  }

  lemma DeliverNew(f: Faults, k: Care, s: State, n: nat) returns (t: State)
    requires Reached(f, k, s) && Quiet(s) && IsNew(s, n, Name(n)) && (k.evicts || |s.cache| < MAX_CACHED_DELIVERIES)
    ensures Reached(f, k, t) && t == Grown(s, n)
  {
    var s1 := Post(f, k, s, n, Name(n), 0);
    t := FirstDelivery(f, k, s1, n, Name(n), n, 0);
  }

  lemma InitIsFilled()
    ensures Filled(INIT, 0)
  {
  }

  lemma {:induction false} CacheFills(f: Faults, k: Care, n: nat) returns (s: State)
    requires n <= MAX_CACHED_DELIVERIES
    ensures Reached(f, k, s) && Filled(s, n)
  {
    if n == 0 {
      InitReached(f, k);
      InitIsFilled();
      s := INIT;
    } else {
      var s0 := CacheFills(f, k, n - 1);
      NextIsNew(s0, n - 1);
      s := DeliverNew(f, k, s0, n - 1);
      FilledAfter(s0, n - 1, s);
    }
  }

  /** The first ack is forgotten, and its executor is gone. */
  ghost predicate Forgotten(s: State, n: nat) {
    && Quiet(s) && n + 1 !in s.calls && |s.cache| == 1 && "d-" + Name(0) !in s.cache
    && FirstIsKnown(s) && !s.procs[0].running && ProcsOwned(s.procs, n + 1) && RowsOwned(s.sessions, n + 1)
  }

  lemma ForgottenAfter(s: State, n: nat, g: State, t: State)
    requires Filled(s, n) && n == MAX_CACHED_DELIVERIES && IsNew(s, n, Name(n)) && g == Grown(s, n)
    requires ExitStep(g, 0) == Some(t)
    ensures Forgotten(t, n)
  {
    assert g.calls == s.calls[n := g.calls[n]];
    QuietAfter(s, n, g, g.calls[n], g.procs[n]);
    RowsAfter(s, n, g);
    FirstStays(s, n, g);
    assert t.cache == map["d-" + Name(n) := AckOf(Name(n), n, 0)] && |"d-" + Name(0)| != |"d-" + Name(n)|;
  }

  /** The delivery that empties the full cache, and the exit of the first executor. */
  lemma FirstForgotten(f: Faults, k: Care, n: nat) returns (t: State)
    requires k.evicts && n == MAX_CACHED_DELIVERIES
    ensures Reached(f, k, t) && Forgotten(t, n)
  {
    var s := CacheFills(f, k, n);
    NextIsNew(s, n);
    var g := DeliverNew(f, k, s, n);
    FirstStays(s, n, g);
    t := Exits(f, k, g, 0);
    ForgottenAfter(s, n, g, t);
  }

  /** After 1001 deliveries the first id is delivered anew and acked with another session. */
  lemma EvictionIsAckedTwice(f: Faults, k: Care)
    requires k.evicts
    ensures !Steady(f, k) && !Idempotent(f, k)
  {
    var n, e := MAX_CACHED_DELIVERIES, Name(0);
    var s := FirstForgotten(f, k, n);
    var s1 := Post(f, k, s, n + 1, e, 1);
    forall j | j in s.sessions ensures j != SidOf(e, n + 1) && (s.sessions[j] == e ==> j == SidOf(e, 0)) {
      SidsDiffer(s.sessions[j], |s.sessions[j]| - 1, e, n + 1);
    }
    OnlyRowRekeys(s1, SidOf(e, 0), e, n + 1);
    var t := SecondDelivery(f, k, s1, n + 1, e, SidOf(e, 0), n + 1, 1);
    SidsDiffer(e, 0, e, n + 1);
    TwoSessions(f, k, t, AckOf(e, 0, 0), AckOf(e, n + 1, 1));
  }

  /** A delivery id is answered with one ack for ever, in every run, exactly when no id is
      posted again while under way, no ack is sent at the cache's cap and Forge never restarts.
      The same holds of the acked session alone, and whether or not pids are recycled early. */
  lemma IdempotentExactly(f: Faults, k: Care)
    ensures Idempotent(f, k) <==> !k.overlaps && !k.evicts && !f.restarts
    ensures Steady(f, k) <==> !k.overlaps && !k.evicts && !f.restarts
  {
    if k.overlaps { OverlapIsAckedTwice(f, k, "e"); }
    else if k.evicts { EvictionIsAckedTwice(f, k); }
    else if f.restarts { RestartIsAckedTwice(f, k, "e"); }
    else {
      forall s | Reached(f, k, s) ensures OneAckPerId(s) && OneSessionPerId(s) {
        var run :| RunFrom(Steps(f, k), INIT, run) == Some(s);
        RunKeeps(f, k, INIT, run, s);
      }
    }
  }
}
