/** The whole hand-over: worker, lossy network, Forge and the envelope table, with any other
    writers of the table and any other clients of Forge interleaved. */
module Handover {
  import opened Wrappers
  import opened Runs
  import opened SessionIds
  import E = Envelopes
  import T = EnvelopeTable
  import ES = EnvelopeStore
  import O = Ordering
  import W = Worker
  import Laws = EnvelopeLaws
  import opened Gateway
  import opened GatewayTheorems

  /** Where the worker's tick stands. */
  datatype Place =
    | Idle
    | Picked(id: string)                     // NextCreated returned this row
    | Waiting(id: string, call: CallId)      // request accepted by Forge, answer pending
    | Answered(id: string, session: string)  // ack parsed, row not flipped yet

  /** `bindings` lists the session bindings the worker wrote, `given` those that came with
      an inserted envelope. */
  datatype System = System(
    table: T.Table, forge: State, worker: Place,
    bindings: seq<(string, string)>, given: set<(string, string)>)

  const START := System(map[], INIT, Idle, [], {})

  datatype SystemEvent =
    | Write(op: T.Op)               // another caller's store operation
    | Forge(a: Action)              // a step of Forge, for any client
    | Pick(id: string)
    | Post(call: CallId, now: int)
    | Receive
    | Flip(at: int)
    | GiveUp                        // lost request or answer, timeout, error, cancellation, crash

  function StableId(id: string): string {
    "d-" + id
  }

  ghost function Next(f: Faults, s: System, ev: SystemEvent): Option<System> {
    match ev
    case Write(op) =>
      if op.MarkDelivered? then None
      else
        var gift := if op.Insert? && T.Refusal(s.table, op).None? && op.envelope.sessionBinding.Some?
                    then {(op.envelope.id, op.envelope.sessionBinding.value)} else {};
        Some(s.(table := T.After(s.table, op), given := s.given + gift))
    case Forge(a) =>
      var t := Step(f, s.forge, a);
      if t.None? then None else Some(s.(forge := t.value))
    case Pick(id) =>
      if s.worker.Idle? && ES.Keyed(s.table) && ES.Queue(s.table) != [] && ES.Queue(s.table)[0].id == id
      then Some(s.(worker := Picked(id))) else None
    case Post(c, now) =>
      if !s.worker.Picked? then None
      else
        var t := Step(f, s.forge, BeginDeliver(c, s.worker.id, StableId(s.worker.id), now));
        if t.None? then None else Some(s.(forge := t.value, worker := Waiting(s.worker.id, c)))
    case Receive =>
      if s.worker.Waiting? && s.worker.call in s.forge.calls && s.forge.calls[s.worker.call].pc.Finished?
         && s.forge.calls[s.worker.call].pc.reply.Accepted?
         && s.forge.calls[s.worker.call].pc.reply.ack.sessionId != ""
      then Some(s.(worker := Answered(s.worker.id, s.forge.calls[s.worker.call].pc.reply.ack.sessionId)))
      else None
    case Flip(at) =>
      if !s.worker.Answered? then None
      else
        var op := T.MarkDelivered(s.worker.id, s.worker.session, at);
        Some(s.(table := T.After(s.table, op), worker := Idle,
                bindings := if T.Refusal(s.table, op).None? then s.bindings + [(s.worker.id, s.worker.session)]
                            else s.bindings))
    case GiveUp => Some(s.(worker := Idle))
  }

  ghost function Events(f: Faults): StepSystem<System, SystemEvent> {
    (s, ev) => Next(f, s, ev)
  }

  /** Forge acked the envelope's stable delivery id with this session. */
  ghost predicate AckedAs(forge: State, id: string, session: string) {
    exists a :: a in forge.acks && a.deliveryId == StableId(id) && a.sessionId == session
  }

  /** The call is the delivery of this envelope under its stable id. */
  ghost predicate IsDelivery(forge: State, c: CallId, id: string) {
    && c in forge.calls && forge.calls[c].envelope == id
    && forge.calls[c].kind.Deliver? && forge.calls[c].kind.deliveryId == StableId(id)
  }

  ghost predicate Inv(f: Faults, s: System) {
    && Reachable(f, s.forge)
    && ES.Keyed(s.table)
    && (s.worker.Waiting? ==> IsDelivery(s.forge, s.worker.call, s.worker.id))
    && (s.worker.Answered? ==> AckedAs(s.forge, s.worker.id, s.worker.session))
    && (forall b :: b in s.bindings ==> AckedAs(s.forge, b.0, b.1))
    && (forall id :: id in s.table && s.table[id].sessionBinding.Some? ==>
         (id, s.table[id].sessionBinding.value) in s.bindings || (id, s.table[id].sessionBinding.value) in s.given)
  }

  lemma ForgeStepKeeps(f: Faults, s: System, a: Action, t: State)
    requires Inv(f, s) && Step(f, s.forge, a) == Some(t)
    ensures Inv(f, s.(forge := t))
  {
    ReachNext(Steps(f), INIT, s.forge, a, t);
    Provenance.StepKeepsCalls(f, s.forge, a);
    forall id, session | AckedAs(s.forge, id, session) ensures AckedAs(t, id, session) {
      var x :| x in s.forge.acks && x.deliveryId == StableId(id) && x.sessionId == session;
      assert x in t.acks;
    }
  }

  lemma ReceiveKeeps(f: Faults, s: System)
    requires Inv(f, s) && Next(f, s, Receive).Some?
    ensures Inv(f, Next(f, s, Receive).value)
  {
    var c := s.worker.call;
    AcceptedIsAcked(f, s.forge, c);
    var ack := s.forge.calls[c].pc.reply.ack;
    assert ack in s.forge.acks && ack.deliveryId == StableId(s.worker.id);
  }

  /** Other callers never write a binding into an existing row. */
  lemma WriteKeeps(f: Faults, s: System, op: T.Op)
    requires Inv(f, s) && Next(f, s, Write(op)).Some?
    ensures Inv(f, Next(f, s, Write(op)).value)
  {
  }

  lemma FlipKeeps(f: Faults, s: System, at: int)
    requires Inv(f, s) && Next(f, s, Flip(at)).Some?
    ensures Inv(f, Next(f, s, Flip(at)).value)
  {
  }

  lemma NextKeeps(f: Faults, s: System, ev: SystemEvent)
    requires Inv(f, s) && Next(f, s, ev).Some?
    ensures Inv(f, Next(f, s, ev).value)
  {
    match ev
    case Forge(a) => ForgeStepKeeps(f, s, a, Step(f, s.forge, a).value);
    case Post(c, now) =>
      ForgeStepKeeps(f, s, BeginDeliver(c, s.worker.id, StableId(s.worker.id), now), Next(f, s, ev).value.forge);
    case Receive => ReceiveKeeps(f, s);
    case Write(op) => WriteKeeps(f, s, op);
    case Flip(at) => FlipKeeps(f, s, at);
    case Pick(id) =>
    case GiveUp =>
  }

  lemma {:induction false} RunKeeps(f: Faults, s: System, run: seq<SystemEvent>)
    requires Inv(f, s) && RunFrom(Events(f), s, run).Some?
    ensures Inv(f, RunFrom(Events(f), s, run).value)
    decreases |run|
  {
    if run == [] {
    } else {
      NextKeeps(f, s, run[0]);
      RunKeeps(f, Next(f, s, run[0]).value, run[1..]);
    }
  }

  lemma StartIsSound(f: Faults)
    ensures Inv(f, START)
  {
    Stays(Steps(f), INIT);
  }

  ghost predicate Occurs(f: Faults, s: System) {
    Reaches(Events(f), START, s)
  }

  lemma OccursIsSound(f: Faults, s: System)
    requires Occurs(f, s)
    ensures Inv(f, s)
  {
    var run :| RunFrom(Events(f), START, run) == Some(s);
    StartIsSound(f);
    RunKeeps(f, START, run);
  }

  /** In the whole system too an envelope has at most one executor. */
  lemma OneExecutorThroughout(f: Faults, s: System)
    requires Occurs(f, s) && !f.refetchFails && !f.updateFails && !f.restarts
    ensures OneExecutor(s.forge)
  {
    OccursIsSound(f, s);
    OneExecutorExactly(f);
  }

  /** Forge launched a process of this envelope under this session id and wrote the row. */
  ghost predicate Backs(forge: State, id: string, session: string) {
    Provenance.Backed(forge, session, id)
  }

  /** Every binding the worker wrote names a session Forge backs for that very envelope. */
  ghost predicate Honest(f: Faults) {
    forall s | Occurs(f, s) :: forall b :: b in s.bindings ==> Backs(s.forge, b.0, b.1)
  }

  /** No optimistic confirmation, whatever is lost, cancelled, crashed or restarted: a binding
      was acked for the envelope's own delivery id and is backed by a process and a row. */
  lemma BindingsWereAcked(f: Faults, s: System, b: (string, string))
    requires Occurs(f, s) && b in s.bindings
    ensures AckedAs(s.forge, b.0, b.1)
    ensures !f.foreignIds ==> Backs(s.forge, b.0, b.1)
  {
    OccursIsSound(f, s);
    var a :| a in s.forge.acks && a.deliveryId == StableId(b.0) && a.sessionId == b.1;
    AcksAreBacked(f, s.forge, a);
    if !f.foreignIds {
      AcksAreForTheirEnvelope(f, s.forge, a);
      assert StableId(a.envelopeId)[2..] == StableId(b.0)[2..];
    }
  }

  /** A row's binding was written by the worker or came with the inserted envelope. */
  lemma RowBindingsHaveASource(f: Faults, s: System, id: string)
    requires Occurs(f, s) && id in s.table && s.table[id].sessionBinding.Some?
    ensures var b := (id, s.table[id].sessionBinding.value); b in s.bindings || b in s.given
  {
    OccursIsSound(f, s);
  }

  /** The store operation an event commits, if it commits one. */
  function OpsOf(s: System, ev: SystemEvent): seq<T.Op> {
    match ev
    case Write(op) => [op]
    case Flip(at) =>
      if !s.worker.Answered? || T.Refusal(s.table, T.MarkDelivered(s.worker.id, s.worker.session, at)).Some? then []
      else [T.MarkDelivered(s.worker.id, s.worker.session, at)]
    case _ => []
  }

  lemma NextIsHistory(f: Faults, s: System, ev: SystemEvent, t: System)
    requires Next(f, s, ev) == Some(t)
    ensures t.table == T.Run(s.table, OpsOf(s, ev)) && s.bindings <= t.bindings
    ensures forall op | op in OpsOf(s, ev) && op.MarkDelivered? :: (op.id, op.binding) in t.bindings
  {
    var ops := OpsOf(s, ev);
    assert T.Run(s.table, []) == s.table;
    assert ops != [] ==> T.Run(s.table, ops) == T.Run(T.After(s.table, ops[0]), ops[1..]) && ops[1..] == [];
    if ev.Flip? && ops != [] { assert t.bindings[|s.bindings|] == (s.worker.id, s.worker.session); }
  }

  /** Whatever interleaves, the table goes through a history of store operations, and every
      delivery in it is one of the worker's bindings. */
  lemma {:induction false} RunIsHistory(f: Faults, s: System, run: seq<SystemEvent>, t: System) returns (ops: seq<T.Op>)
    requires RunFrom(Events(f), s, run) == Some(t)
    ensures t.table == T.Run(s.table, ops) && s.bindings <= t.bindings
    ensures forall op | op in ops && op.MarkDelivered? :: (op.id, op.binding) in t.bindings
    decreases |run|
  {
    if run == [] {
      ops := [];
    } else {
      var next := Next(f, s, run[0]).value;
      NextIsHistory(f, s, run[0], next);
      var rest := RunIsHistory(f, next, run[1..], t);
      ops := OpsOf(s, run[0]) + rest;
      Laws.HistoriesJoin(s.table, OpsOf(s, run[0]), rest);
    }
  }

  /** In the whole system too: rows stay, logs only grow, terminal envelopes freeze, recorded
      changes form a path, proven-if-done stays so, and a new binding is one of the worker's. */
  lemma LawsHoldThroughout(f: Faults, s: System, run: seq<SystemEvent>, t: System, id: string)
    requires RunFrom(Events(f), s, run) == Some(t) && id in s.table
    ensures id in t.table && Laws.Evolves(s.table[id], t.table[id]) && Laws.Recorded(s.table[id], t.table[id])
    ensures Laws.DoneMeansProven(s.table[id]) ==> Laws.DoneMeansProven(t.table[id])
    ensures t.table[id].sessionBinding == s.table[id].sessionBinding
         || (t.table[id].sessionBinding.Some? && (id, t.table[id].sessionBinding.value) in t.bindings)
  {
    var ops := RunIsHistory(f, s, run, t);
    Laws.RunEvolves(s.table, ops, id);
    Laws.RunIsRecorded(s.table, ops, id);
    if Laws.DoneMeansProven(s.table[id]) { Laws.RunKeepsProof(s.table, ops, id); }
    Laws.BindingComesFromDelivery(s.table, ops, id);
  }

  /** The row as the worker's flip leaves it. */
  ghost predicate Flipped(a: E.Envelope, b: E.Envelope) {
    && a.status.Created? && b.status == E.Delivered && b.sessionBinding.Some?
    && b == a.(status := b.status, delivery := b.delivery, sessionBinding := b.sessionBinding)
  }

  lemma StepFlipsCreatedOnly(f: Faults, s: System, ev: SystemEvent, t: System, id: string)
    requires Next(f, s, ev) == Some(t) && !ev.Write? && id in s.table
    ensures t.table.Keys == s.table.Keys && s.bindings <= t.bindings
    ensures t.table[id] == s.table[id]
         || (Flipped(s.table[id], t.table[id]) && (id, t.table[id].sessionBinding.value) in t.bindings)
  {
    if ev.Flip? && |t.bindings| > |s.bindings| {
      assert t.bindings[|s.bindings|] == (s.worker.id, s.worker.session);
    }
  }

  /** Over any stretch without other writers, a row is left alone or flipped once, and it is
      flipped only if it was still `created`: no envelope an executor has moved is overwritten. */
  lemma {:induction false} WorkerFlipsCreatedOnly(f: Faults, s: System, run: seq<SystemEvent>, t: System, id: string)
    requires RunFrom(Events(f), s, run) == Some(t) && id in s.table
    requires forall ev | ev in run :: !ev.Write?
    ensures id in t.table && s.bindings <= t.bindings
    ensures t.table[id] == s.table[id]
         || (Flipped(s.table[id], t.table[id]) && (id, t.table[id].sessionBinding.value) in t.bindings)
    decreases |run|
  {
    if run == [] {
    } else {
      var next := Next(f, s, run[0]).value;
      StepFlipsCreatedOnly(f, s, run[0], next, id);
      WorkerFlipsCreatedOnly(f, next, run[1..], t, id);
    }
  }

  lemma Then(f: Faults, s: System, ev: SystemEvent, t: System)
    requires Occurs(f, s) && Next(f, s, ev) == Some(t)
    ensures Occurs(f, t)
  {
    ReachNext(Events(f), START, s, ev, t);
  }

  /** Any run of Forge alone is a run of the system. */
  lemma {:induction false} ForgeRunLifts(f: Faults, s: System, run: seq<Action>)
    requires Occurs(f, s) && RunFrom(Steps(f), s.forge, run).Some?
    ensures Occurs(f, s.(forge := RunFrom(Steps(f), s.forge, run).value))
    decreases |run|
  {
    if run == [] {
      assert s.(forge := s.forge) == s;
    } else {
      var t := s.(forge := Step(f, s.forge, run[0]).value);
      Then(f, s, Forge(run[0]), t);
      ForgeRunLifts(f, t, run[1..]);
    }
  }

  /** The worker's code is a run of the system: a successful tick's POST, Forge's own steps up
      to the answer, and the flip change the table just as `TickOnce` does. */
  lemma TickIsARun(
      f: Faults, s: System, c: CallId, arrived: State, run: seq<Action>, answered: State, a: W.Attempt)
    returns (t: System)
    requires Occurs(f, s) && s.worker.Idle? && ES.Keyed(s.table) && ES.Queue(s.table) != [] && a.Flips()
    requires var id := ES.Queue(s.table)[0].id;
      Step(f, s.forge, BeginDeliver(c, id, StableId(id), a.now)) == Some(arrived)
    requires RunFrom(Steps(f), arrived, run) == Some(answered) && c in answered.calls
    requires answered.calls[c].pc.Finished? && answered.calls[c].pc.reply.Accepted?
    requires answered.calls[c].pc.reply.ack.sessionId == W.ParseAck(a.http).value
    ensures Occurs(f, t) && t.worker.Idle? && t.forge == answered
    ensures t.table == T.After(s.table, W.Mark(ES.Queue(s.table)[0], a))
  {
    var id, session := ES.Queue(s.table)[0].id, W.ParseAck(a.http).value;
    var s1 := s.(worker := Picked(id));
    Then(f, s, Pick(id), s1);
    var s2 := s1.(forge := arrived, worker := Waiting(id, c));
    Then(f, s1, Post(c, a.now), s2);
    ForgeRunLifts(f, s2, run);
    var s3 := s2.(forge := answered);
    var s4 := s3.(worker := Answered(id, session));
    Then(f, s3, Receive, s4);
    t := Next(f, s4, Flip(a.now)).value;
    Then(f, s4, Flip(a.now), t);
  }

  /** Nothing but a flip or another writer touches the table. */
  lemma {:induction false} TableStays(f: Faults, s: System, run: seq<SystemEvent>, t: System)
    requires RunFrom(Events(f), s, run) == Some(t)
    requires forall ev | ev in run :: !ev.Write? && !ev.Flip?
    ensures t.table == s.table && t.bindings == s.bindings
    decreases |run|
  {
    if run == [] {
    } else {
      TableStays(f, Next(f, s, run[0]).value, run[1..], t);
    }
  }

  /** Whatever happens to a delivery before its flip, a lost request or answer, an error or a
      crash, its row stays created and is the next one the worker takes. */
  lemma LostDeliveryIsRetried(
      f: Faults, s: System, id: string, picked: System, run: seq<SystemEvent>, t: System)
    requires Next(f, s, Pick(id)) == Some(picked) && RunFrom(Events(f), picked, run) == Some(t)
    requires forall ev | ev in run :: !ev.Write? && !ev.Flip?
    ensures var back := Next(f, t, GiveUp);
            && back == Some(t.(worker := Idle)) && t.table == s.table && id in t.table
            && t.table[id].status == E.Created
            && Next(f, back.value, Pick(id)) == Some(t.(worker := Picked(id)))
  {
    TableStays(f, picked, run, t);
    W.QueueHead(s.table);
  }

  function DemoEnvelope(): E.Envelope {
    E.Envelope("e", 0, "t", "", "claude", "t", [], E.Created, E.Delivery(false, None, false, None), None,
               "", [], E.Metrics(None, None, None, 0), [], map[])
  }

  lemma SoleRowIsNext(e: E.Envelope)
    requires e.status == E.Created
    ensures ES.Keyed(map[e.id := e]) && ES.Queue(map[e.id := e]) == [e]
  {
    var t := map[e.id := e];
    ES.NewerOrders(t, ES.CreatedRows(t));
    assert t[e.id] in t.Values;
    assert ES.CreatedRows(t) == {e};
    O.ArrangementIsUnique([e], ES.Queue(t), {e}, ES.Older);
  }

  /** The table gets one envelope and the worker takes it, beside any reachable Forge. */
  lemma TakenByWorker(f: Faults, forge: State) returns (t: System)
    requires Reachable(f, forge)
    ensures Occurs(f, t) && t == System(map["e" := DemoEnvelope()], forge, Picked("e"), [], {})
  {
    var run :| RunFrom(Steps(f), INIT, run) == Some(forge);
    Stays(Events(f), START);
    ForgeRunLifts(f, START, run);
    var s0 := START.(forge := forge);
    var s1 := s0.(table := map["e" := DemoEnvelope()]);
    assert s0.given + {} == s0.given;
    Then(f, s0, Write(T.Insert(DemoEnvelope())), s1);
    SoleRowIsNext(DemoEnvelope());
    t := s1.(worker := Picked("e"));
    Then(f, s1, Pick("e"), t);
  }

  /** The worker posts its row and Forge answers from its cache. */
  lemma PostedAndAnswered(f: Faults, forge: State, ack: Ack) returns (t: System)
    requires Reachable(f, forge) && 1 !in forge.calls
    requires StableId("e") in forge.cache && forge.cache[StableId("e")] == ack
    ensures Occurs(f, t) && t.table == map["e" := DemoEnvelope()] && t.worker == Waiting("e", 1) && t.bindings == []
    ensures t.forge == forge.(calls := forge.calls[1 := Call(Deliver(StableId("e"), 0), "e", Finished(Accepted(ack)))])
  {
    var s := TakenByWorker(f, forge);
    var arrived := forge.(calls := forge.calls[1 := Call(Deliver(StableId("e"), 0), "e", Arrived)]);
    var s1 := s.(forge := arrived, worker := Waiting("e", 1));
    Then(f, s, Post(1, 0), s1);
    var answered := Move(arrived, 1, Finished(Accepted(ack)));
    assert answered.calls == forge.calls[1 := Call(Deliver(StableId("e"), 0), "e", Finished(Accepted(ack)))];
    t := s1.(forge := answered);
    Then(f, s1, Forge(CheckCache(1)), t);
  }

  /** A foreign delivery under "d-e" makes the worker bind "e" to another envelope's session. */
  lemma ForeignIdsAreDishonest(f: Faults)
    requires f.foreignIds
    ensures !Honest(f)
  {
    var forge := AckCached(f, "g", StableId("e"), 7);
    var sid := SessionIdFromPid("g", 7);
    assert sid != "";
    var s := PostedAndAnswered(f, forge, Ack(StableId("e"), "g", sid, 0));
    var s1 := s.(worker := Answered("e", sid));
    Then(f, s, Receive, s1);
    var s2 := Next(f, s1, Flip(0)).value;
    Then(f, s1, Flip(0), s2);
    assert ("e", sid) in s2.bindings by { assert s2.bindings == [("e", sid)]; }
    assert !Backs(s2.forge, "e", sid);
  }

  /** The worker's bindings are honest in every run exactly when every delivery that reaches
      Forge carries its envelope's stable id. */
  lemma HonestExactly(f: Faults)
    ensures Honest(f) <==> !f.foreignIds
  {
    if f.foreignIds {
      ForeignIdsAreDishonest(f);
    } else {
      forall s, b | Occurs(f, s) && b in s.bindings ensures Backs(s.forge, b.0, b.1) {
        BindingsWereAcked(f, s, b);
      }
    }
  }
}
