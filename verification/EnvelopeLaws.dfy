/** What every history of store operations keeps. */
module EnvelopeLaws {
  import opened Wrappers
  import opened Envelopes
  import opened EnvelopeTable

  /** Fields no operation writes. */
  ghost predicate SameIdentity(a: Envelope, b: Envelope) {
    && a.id == b.id && a.createdAt == b.createdAt && a.title == b.title && a.project == b.project
    && a.targetExecutor == b.targetExecutor && a.taskTitle == b.taskTitle && a.proofRequired == b.proofRequired
  }

  /** Everything but history and thread. */
  ghost predicate Frozen(a: Envelope, b: Envelope) {
    && a.status == b.status && a.proof == b.proof && a.metrics == b.metrics && a.delivery == b.delivery
    && a.sessionBinding == b.sessionBinding && a.executorSessionId == b.executorSessionId
  }

  /** How a row may evolve: identity stays, logs only grow at the end, terminal rows freeze. */
  ghost predicate Evolves(a: Envelope, b: Envelope) {
    && SameIdentity(a, b) && a.history <= b.history && a.thread <= b.thread
    && (a.status.IsTerminal() ==> Frozen(a, b))
  }

  lemma OpEvolves(t: Table, op: Op, id: string)
    requires id in t
    ensures id in After(t, op) && Evolves(t[id], After(t, op)[id])
  {
  }

  /** Rows are never removed; logs are append-only; once an envelope is done, failed or lost
      its status, proof, metrics, delivery, binding and executor session never change. */
  lemma {:induction false} RunEvolves(t: Table, ops: seq<Op>, id: string)
    requires id in t
    ensures id in Run(t, ops) && Evolves(t[id], Run(t, ops)[id])
    decreases |ops|
  {
    if ops == [] {
    } else {
      OpEvolves(t, ops[0], id);
      RunEvolves(After(t, ops[0]), ops[1..], id);
    }
  }

  lemma {:induction false} HistoriesJoin(t: Table, a: seq<Op>, b: seq<Op>)
    ensures Run(t, a + b) == Run(Run(t, a), b)
    decreases |a|
  {
    if a == [] {
      assert a + b == b;
    } else {
      assert (a + b)[1..] == a[1..] + b;
      HistoriesJoin(After(t, a[0]), a[1..], b);
    }
  }

  /** The status changes recorded in a stretch of history, oldest first. */
  function Changes(history: seq<HistoryEntry>): seq<(Status, Status)> {
    if history == [] then []
    else if history[0].Change? then [(history[0].from, history[0].to)] + Changes(history[1..])
    else Changes(history[1..])
  }

  /** Nothing happened, or the one unrecorded step `created` to `delivered`. */
  ghost predicate SilentStep(a: Status, b: Status) {
    a == b || (a.Created? && b.Delivered?)
  }

  /** The changes lead from `a` to `b`, each leaving a non-terminal status for another known one. */
  ghost predicate Path(a: Status, changes: seq<(Status, Status)>, b: Status)
    decreases |changes|
  {
    if changes == [] then SilentStep(a, b)
    else
      var (from, to) := changes[0];
      && SilentStep(a, from) && from != to && !from.IsTerminal() && to.Known()
      && Path(to, changes[1..], b)
  }

  lemma {:induction false} ChangesConcat(h: seq<HistoryEntry>, k: seq<HistoryEntry>)
    ensures Changes(h + k) == Changes(h) + Changes(k)
  {
    if h == [] {
      assert h + k == k;
    } else {
      ChangesConcat(h[1..], k);
      assert (h + k)[1..] == h[1..] + k;
    }
  }

  lemma {:induction false} PathsJoin(a: Status, p: seq<(Status, Status)>, b: Status,
                                     q: seq<(Status, Status)>, c: Status)
    requires Path(a, p, b) && Path(b, q, c)
    ensures Path(a, p + q, c)
    decreases |p|
  {
    if p == [] {
      assert p + q == q;
    } else {
      PathsJoin(p[0].1, p[1..], b, q, c);
      assert (p + q)[1..] == p[1..] + q;
    }
  }

  /** The history added between two versions of a row is a path between their statuses. */
  ghost predicate Recorded(a: Envelope, b: Envelope) {
    a.history <= b.history && Path(a.status, Changes(b.history[|a.history|..]), b.status)
  }

  lemma OpIsRecorded(t: Table, op: Op, id: string)
    requires id in t
    ensures id in After(t, op) && Recorded(t[id], After(t, op)[id])
  {
    var a, b := t[id], After(t, op)[id];
    var added := b.history[|a.history|..];
    if added == [] {
    } else {
      assert added == [added[0]] && added[1..] == [];
    }
  }

  lemma RecordedJoins(a: Envelope, b: Envelope, c: Envelope)
    requires Recorded(a, b) && Recorded(b, c)
    ensures Recorded(a, c)
  {
    var h, k := b.history[|a.history|..], c.history[|b.history|..];
    assert c.history[|a.history|..] == h + k;
    ChangesConcat(h, k);
    PathsJoin(a.status, Changes(h), b.status, Changes(k), c.status);
  }

  /** The recorded changes of any run chain from the starting status to the current one. */
  lemma {:induction false} RunIsRecorded(t: Table, ops: seq<Op>, id: string)
    requires id in t
    ensures id in Run(t, ops) && Recorded(t[id], Run(t, ops)[id])
    decreases |ops|
  {
    if ops == [] {
      assert t[id].history[|t[id].history|..] == [];
    } else {
      OpIsRecorded(t, ops[0], id);
      RunIsRecorded(After(t, ops[0]), ops[1..], id);
      RecordedJoins(t[id], After(t, ops[0])[id], Run(t, ops)[id]);
    }
  }

  ghost predicate DoneMeansProven(e: Envelope) {
    e.status.Done? ==> e.Proven()
  }

  lemma OpKeepsProof(t: Table, op: Op, id: string)
    requires id in t && DoneMeansProven(t[id])
    ensures id in After(t, op) && DoneMeansProven(After(t, op)[id])
  {
  }

  lemma {:induction false} RunKeepsProof(t: Table, ops: seq<Op>, id: string)
    requires id in t && DoneMeansProven(t[id])
    ensures id in Run(t, ops) && DoneMeansProven(Run(t, ops)[id])
    decreases |ops|
  {
    if ops == [] {
    } else {
      OpKeepsProof(t, ops[0], id);
      RunKeepsProof(After(t, ops[0]), ops[1..], id);
    }
  }

  /** `done` means proven in every state after an insertion, with proof merged over any
      number of calls, exactly when the envelope was not inserted as an unproven `done`. */
  lemma DoneProvenExactly(t: Table, e: Envelope, ops: seq<Op>)
    requires Refusal(t, Insert(e)).None?
    ensures var t' := Run(After(t, Insert(e)), ops);
            e.id in t' && (DoneMeansProven(t'[e.id]) <==> (e.status.Done? ==> e.Proven()))
  {
    var t0 := After(t, Insert(e));
    RunEvolves(t0, ops, e.id);
    if DoneMeansProven(e) { RunKeepsProof(t0, ops, e.id); }
  }

  function HandedBy(t: Table, op: Op, id: string): map<string, string> {
    if op.UpdateStatus? && op.id == id && Refusal(t, op).None? then op.proof else map[]
  }

  /** The proof handed in for a row by the calls of a run that were accepted, later entries
      over earlier ones. */
  function HandedIn(t: Table, ops: seq<Op>, id: string): map<string, string>
    decreases |ops|
  {
    if ops == [] then map[]
    else HandedBy(t, ops[0], id) + HandedIn(After(t, ops[0]), ops[1..], id)
  }

  lemma OpMergesProof(t: Table, op: Op, id: string)
    requires id in t
    ensures id in After(t, op) && After(t, op)[id].proof == t[id].proof + HandedBy(t, op, id)
  {
    assert t[id].proof + map[] == t[id].proof;
  }

  /** A row's proof is what it started with and what was handed in: nothing is dropped. */
  lemma {:induction false} ProofIsWhatWasHandedIn(t: Table, ops: seq<Op>, id: string)
    requires id in t
    ensures id in Run(t, ops) && Run(t, ops)[id].proof == t[id].proof + HandedIn(t, ops, id)
    decreases |ops|
  {
    if ops == [] {
      assert t[id].proof + map[] == t[id].proof;
    } else {
      OpMergesProof(t, ops[0], id);
      ProofIsWhatWasHandedIn(After(t, ops[0]), ops[1..], id);
    }
  }

  /** No key ever leaves a row's proof. */
  lemma ProofKeysStay(t: Table, ops: seq<Op>, id: string)
    requires id in t
    ensures id in Run(t, ops) && t[id].proof.Keys <= Run(t, ops)[id].proof.Keys
  {
    ProofIsWhatWasHandedIn(t, ops, id);
  }

  /** After any run, a move to `done` is accepted exactly when the row is not terminal and what
      it was inserted with, what was handed in since and what comes with the move prove it. */
  lemma DoneAcceptedExactly(t: Table, e: Envelope, ops: seq<Op>, proof: map<string, string>, note: string, at: int)
    requires Refusal(t, Insert(e)).None?
    ensures var t' := Run(After(t, Insert(e)), ops);
            var all := e.proof + HandedIn(After(t, Insert(e)), ops, e.id) + proof;
            && e.id in t'
            && (Refusal(t', UpdateStatus(e.id, Done, proof, note, at)).None? <==>
                  && t'[e.id].status !in {Done, Status.Failed, Status.Lost}
                  && (forall k :: k in e.proofRequired ==> k in all) && forall k :: k in all ==> all[k] != "")
  {
    var t0 := After(t, Insert(e));
    ProofIsWhatWasHandedIn(t0, ops, e.id);
    RunEvolves(t0, ops, e.id);
    assert t0[e.id] == e;
  }

  /** A delivery is recorded over this row. */
  predicate Overwrites(t: Table, op: Op, id: string) {
    op.MarkDelivered? && op.id == id && id in t && t[id].status.Created?
  }

  predicate AnyOverwrites(t: Table, ops: seq<Op>, id: string)
    decreases |ops|
  {
    ops != [] && (Overwrites(t, ops[0], id) || AnyOverwrites(After(t, ops[0]), ops[1..], id))
  }

  /** The row carries its read mark at every moment of the run. */
  predicate ReadThroughout(t: Table, ops: seq<Op>, id: string)
    decreases |ops|
  {
    id in t && t[id].delivery.read && (ops == [] || ReadThroughout(After(t, ops[0]), ops[1..], id))
  }

  /** A read envelope stays marked through a run exactly when no delivery is recorded over it,
      for which it must have been moved back to `created`. */
  lemma {:induction false} ReadMarkSurvivesExactly(t: Table, ops: seq<Op>, id: string)
    requires id in t && t[id].delivery.read
    ensures ReadThroughout(t, ops, id) <==> !AnyOverwrites(t, ops, id)
    decreases |ops|
  {
    if ops == [] {
    } else {
      OpEvolves(t, ops[0], id);
      var next := After(t, ops[0]);
      if next[id].delivery.read { ReadMarkSurvivesExactly(next, ops[1..], id); }
    }
  }

  /** The binding of a row comes from its insertion or from a delivery. */
  lemma {:induction false} BindingComesFromDelivery(t: Table, ops: seq<Op>, id: string)
    requires id in t
    ensures id in Run(t, ops)
    ensures Run(t, ops)[id].sessionBinding == t[id].sessionBinding
         || exists i :: 0 <= i < |ops| && ops[i].MarkDelivered? && ops[i].id == id
                        && Run(t, ops)[id].sessionBinding == Some(ops[i].binding)
    decreases |ops|
  {
    if ops == [] {
    } else {
      var t1 := After(t, ops[0]);
      BindingComesFromDelivery(t1, ops[1..], id);
      var b := Run(t, ops)[id].sessionBinding;
      if b == t1[id].sessionBinding {
        assert b != t[id].sessionBinding ==> ops[0].MarkDelivered? && ops[0].id == id && b == Some(ops[0].binding);
      } else {
        var i :| 0 <= i < |ops[1..]| && ops[1..][i].MarkDelivered? && ops[1..][i].id == id
          && b == Some(ops[1..][i].binding);
        assert ops[i + 1] == ops[1..][i];
      }
    }
  }
}
