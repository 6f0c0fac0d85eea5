/** The envelope type and its status machine (hermes/envelope). */
module Envelopes {
  import opened Wrappers

  /** Go's status is a string; any text that is not one of the ten names is `Other`. */
  datatype Status =
    | Created | Delivered | Read | InProgress | Paused | Blocked | AwaitingConfirm
    | Done | Failed | Lost
    | Other(text: string)
  {
    predicate IsTerminal() {
      Done? || Failed? || Lost?
    }

    predicate Known() {
      !Other?
    }
  }

  datatype Delivery = Delivery(delivered: bool, deliveredAt: Option<int>, read: bool, readAt: Option<int>)

  datatype Metrics = Metrics(startedAt: Option<int>, updatedAt: Option<int>, completedAt: Option<int>, retryCount: int)

  datatype Message = Message(id: string, sender: string, kind: string, text: string, replyTo: string, at: int)

  /** History lines, tagged by who wrote them: a status change or a free-text note. */
  datatype HistoryEntry =
    | Change(at: int, from: Status, to: Status, note: string)
    | Note(text: string)

  datatype TransitionError =
    | TerminalTransition
    | UnknownStatus(status: Status)
    | MissingProof(key: string)
    | EmptyProof

  function FirstMissing(keys: seq<string>, proof: map<string, string>): (k: Option<string>)
    ensures k.None? <==> forall key :: key in keys ==> key in proof
    ensures k.Some? ==> k.value !in proof && exists i ::
              0 <= i < |keys| && keys[i] == k.value && forall j :: 0 <= j < i ==> keys[j] in proof
  {
    if keys == [] then None
    else if keys[0] !in proof then Some(keys[0])
    else
      var rest := FirstMissing(keys[1..], proof);
      assert rest.Some? ==> exists i :: 0 < i < |keys| && keys[i] == rest.value
                                      && forall j :: 0 <= j < i ==> keys[j] in proof by {
        if rest.Some? {
          var i :| 0 <= i < |keys[1..]| && keys[1..][i] == rest.value
            && forall j :: 0 <= j < i ==> keys[1..][j] in proof;
          assert keys[i + 1] == rest.value;
          forall j | 0 <= j < i + 1 ensures keys[j] in proof { if j > 0 { assert keys[1..][j - 1] in proof; } }
        }
      }
      rest
  }

  predicate ValidProofValues(proof: map<string, string>) {
    forall k :: k in proof ==> proof[k] != ""
  }

  datatype Envelope = Envelope(
    id: string, createdAt: int, title: string, project: string, targetExecutor: string, taskTitle: string,
    proofRequired: seq<string>, status: Status, delivery: Delivery, sessionBinding: Option<string>,
    executorSessionId: string, thread: seq<Message>, metrics: Metrics, history: seq<HistoryEntry>,
    proof: map<string, string>)
  {
    /** The shape insertion asks for. */
    predicate Validates() {
      id != "" && title != "" && taskTitle != "" && targetExecutor != "" && status.Known()
    }

    /** Every required key has a proof, and no proof is empty. */
    ghost predicate Proven() {
      && (forall k :: k in proofRequired ==> k in proof)
      && (forall k :: k in proof ==> proof[k] != "")
    }

    /** What may stop a move to `next`; a move is permitted exactly when nothing does. */
    function CanTransition(next: Status): (e: Option<TransitionError>)
      ensures e.None? <==> !status.IsTerminal() && next.Known() && (next.Done? ==> Proven())
      ensures e == Some(TerminalTransition) <==> status.IsTerminal()
      ensures e == Some(UnknownStatus(next)) <==> !status.IsTerminal() && !next.Known()
      ensures e.Some? && e.value.MissingProof? <==>
                !status.IsTerminal() && next.Done? && exists k :: k in proofRequired && k !in proof
      ensures e.Some? && e.value.MissingProof? ==>
                exists i :: 0 <= i < |proofRequired| && proofRequired[i] == e.value.key && e.value.key !in proof
                            && forall j :: 0 <= j < i ==> proofRequired[j] in proof
    {
      if status.IsTerminal() then Some(TerminalTransition)
      else if !next.Known() then Some(UnknownStatus(next))
      else if next.Done? then
        match FirstMissing(proofRequired, proof)
        case Some(key) => Some(MissingProof(key))
        case None => if ValidProofValues(proof) then None else Some(EmptyProof)
      else None
    }
  }
}
