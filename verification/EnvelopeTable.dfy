/** The envelope table as a value: what each store operation refuses and what it changes. */
module EnvelopeTable {
  import opened Wrappers
  import opened Envelopes

  type Table = map<string, Envelope>

  datatype StoreError =
    | NotFound
    | Duplicate
    | Invalid
    | TerminalEnvelope
    | Rejected(reason: TransitionError)

  /** One committed (or refused) operation of the store, by any caller. */
  datatype Op =
    | Insert(envelope: Envelope)
    | MarkDelivered(id: string, binding: string, at: int)
    | SetExecutorSession(id: string, session: string)
    | UpdateStatus(id: string, next: Status, proof: map<string, string>, note: string, at: int)
    | AddHistory(id: string, entry: string)
    | AppendMessage(id: string, message: Message)

  /** Why the store refuses an operation, if it does. */
  function Refusal(t: Table, op: Op): Option<StoreError> {
    match op
    case Insert(e) =>
      if !e.Validates() then Some(Invalid) else if e.id in t then Some(Duplicate) else None
    case MarkDelivered(id, _, _) =>
      if id in t && t[id].status.Created? then None else Some(NotFound)
    case SetExecutorSession(id, _) =>
      if id !in t then Some(NotFound) else if t[id].status.IsTerminal() then Some(TerminalEnvelope) else None
    case UpdateStatus(id, next, proof, _, _) =>
      if id !in t then Some(NotFound)
      else
        var reason := t[id].(proof := t[id].proof + proof).CanTransition(next);
        if reason.Some? then Some(Rejected(reason.value)) else None
    case AddHistory(id, _) => if id in t then None else Some(NotFound)
    case AppendMessage(id, _) => if id in t then None else Some(NotFound)
  }

  /** The row after a status change: timestamps, the read mark and the history line follow
      from the old row and the new status. */
  function Transitioned(e: Envelope, next: Status, proof: map<string, string>, note: string, at: int): Envelope {
    e.(status := next,
       proof := e.proof + proof,
       metrics := e.metrics.(updatedAt := Some(at),
                             completedAt := if next.IsTerminal() && e.metrics.completedAt.None?
                                            then Some(at) else e.metrics.completedAt),
       delivery := if next.Read? && !e.delivery.read
                   then e.delivery.(read := true, readAt := Some(at)) else e.delivery,
       history := if e.status == next then e.history
                  else e.history + [Change(at, e.status, next, note)])
  }

  /** The row of an existing envelope after an operation the store accepts. */
  function Changed(e: Envelope, op: Op): Envelope
    requires !op.Insert?
  {
    match op
    case MarkDelivered(_, binding, at) =>
      e.(status := Status.Delivered, delivery := Delivery.Delivery(true, Some(at), false, None),
         sessionBinding := Some(binding))
    case SetExecutorSession(_, session) => e.(executorSessionId := session)
    case UpdateStatus(_, next, proof, note, at) => Transitioned(e, next, proof, note, at)
    case AddHistory(_, entry) => e.(history := e.history + [Note(entry)])
    case AppendMessage(_, message) => e.(thread := e.thread + [message])
  }

  function After(t: Table, op: Op): Table {
    if Refusal(t, op).Some? then t
    else if op.Insert? then t[op.envelope.id := op.envelope]
    else t[op.id := Changed(t[op.id], op)]
  }

  /** All operations share one database connection, so a concurrent history is a sequence. */
  function Run(t: Table, ops: seq<Op>): Table
    decreases |ops|
  {
    if ops == [] then t else Run(After(t, ops[0]), ops[1..])
  }
}
