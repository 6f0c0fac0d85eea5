/** Notification routing by priority, with a capped buffer for quiet hours. */
module NotifyRouter {
  import opened Wrappers

  const BUFFER_CAP := 100

  datatype Payload = Payload(
    envelopeId: string, status: string, taskTitle: string, note: string, proofSummary: string, loopDetected: bool)

  datatype Urgency = Urgent | Normal | Low

  function Priority(status: string): Urgency {
    match status
    case "blocked" => Urgent
    case "failed" => Urgent
    case "loop_detected" => Urgent
    case "done" => Normal
    case "awaiting_confirm" => Normal
    case _ => Low
  }

  /** The loop flag overrides the status. */
  function Normalise(p: Payload): (q: Payload)
    ensures Priority(q.status) == if p.loopDetected then Urgent else Priority(p.status)
  {
    if p.loopDetected && p.status != "loop_detected" then p.(status := "loop_detected") else p
  }

  predicate GoesOut(p: Payload, busy: bool) {
    Priority(p.status).Urgent? || (Priority(p.status).Normal? && !busy)
  }

  /** Which payloads go out at once, status by status. */
  lemma GoesOutExactly(p: Payload, busy: bool)
    ensures GoesOut(p, busy) <==>
              p.status in {"blocked", "failed", "loop_detected"}
              || (p.status in {"done", "awaiting_confirm"} && !busy)
  {
  }

  /** The oldest payloads beyond the cap give way. */
  function Push(buffer: seq<Payload>, p: Payload): seq<Payload> {
    (if |buffer| >= BUFFER_CAP then buffer[1..] else buffer) + [p]
  }

  function Dropped(buffer: seq<Payload>): seq<Payload> {
    if |buffer| >= BUFFER_CAP then [buffer[0]] else []
  }

  function LastOnes(s: seq<Payload>): seq<Payload> {
    if |s| <= BUFFER_CAP then s else s[|s| - BUFFER_CAP..]
  }

  lemma PushKeepsLast(stored: seq<Payload>, p: Payload)
    ensures Push(LastOnes(stored), p) == LastOnes(stored + [p])
    ensures multiset(Push(LastOnes(stored), p)) + multiset(Dropped(LastOnes(stored)))
      == multiset(LastOnes(stored)) + multiset{p}
  {
    var b := LastOnes(stored);
    if |b| >= BUFFER_CAP { assert b == [b[0]] + b[1..]; }
  }

  function Flatten(batches: seq<seq<Payload>>): seq<Payload> {
    if batches == [] then [] else Flatten(batches[..|batches| - 1]) + batches[|batches| - 1]
  }

  /** What became of the routed payloads: `sent` has one entry a message, `stored` is what
      was buffered since the last flush. */
  datatype Ledger = Ledger(routed: multiset<Payload>, sent: seq<seq<Payload>>,
                           evicted: seq<Payload>, stored: seq<Payload>)

  /** Every routed payload is sent once, buffered, evicted or under way. */
  ghost predicate Conserved(l: Ledger, buffer: seq<Payload>, underway: multiset<Payload>) {
    && l.routed == multiset(Flatten(l.sent)) + multiset(buffer) + multiset(l.evicted) + underway
    && buffer == LastOnes(l.stored)
    && (forall p | p in buffer :: !Priority(p.status).Urgent?)
    && forall p | p in l.evicted :: !Priority(p.status).Urgent?
  }

  function Sent(l: Ledger, batch: seq<Payload>): Ledger {
    l.(sent := l.sent + [batch])
  }

  function Stored(l: Ledger, buffer: seq<Payload>, p: Payload): Ledger {
    l.(evicted := l.evicted + Dropped(buffer), stored := l.stored + [p])
  }

  lemma SendConserves(l: Ledger, buffer: seq<Payload>, underway: multiset<Payload>, batch: seq<Payload>)
    requires Conserved(l, buffer, underway + multiset(batch))
    ensures Conserved(Sent(l, batch), buffer, underway)
  {
    assert (l.sent + [batch])[..|l.sent|] == l.sent;
  }

  lemma StoreConserves(l: Ledger, buffer: seq<Payload>, underway: multiset<Payload>, p: Payload)
    requires Conserved(l, buffer, underway + multiset{p}) && !Priority(p.status).Urgent?
    ensures Conserved(Stored(l, buffer, p), Push(buffer, p), underway)
  {
    PushKeepsLast(l.stored, p);
    var dropped := Dropped(buffer);
    assert multiset(l.evicted + dropped) == multiset(l.evicted) + multiset(dropped);
    assert l.routed == multiset(Flatten(l.sent)) + multiset(l.evicted) + underway + (multiset(buffer) + multiset{p});
    forall q | q in Push(buffer, p) ensures !Priority(q.status).Urgent? {
      assert q == p || q in buffer;
    }
    forall q | q in l.evicted + dropped ensures !Priority(q.status).Urgent? {
      assert q in l.evicted || q in buffer;
    }
  }

  lemma ArriveConserves(l: Ledger, buffer: seq<Payload>, underway: multiset<Payload>, p: Payload)
    requires Conserved(l, buffer, underway)
    ensures Conserved(l.(routed := l.routed + multiset{p}), buffer, underway + multiset{p})
  {
  }

  lemma OneArrives(l: Ledger, buffer: seq<Payload>, p: Payload)
    requires Conserved(l, buffer, multiset{})
    ensures Conserved(l.(routed := l.routed + multiset{p}), buffer, multiset{p}) && multiset([p]) == multiset{p}
  {
    ArriveConserves(l, buffer, multiset{}, p);
    assert multiset{} + multiset{p} == multiset{p};
  }

  lemma TakeConserves(l: Ledger, buffer: seq<Payload>, underway: multiset<Payload>)
    requires Conserved(l, buffer, underway)
    ensures Conserved(l.(stored := []), [], underway + multiset(buffer))
  {
  }

  /** The router as one goroutine sees it; `ledger` records what became of every payload. */
  class Router {
    var busy: bool
    var buffer: seq<Payload>

    ghost var ledger: Ledger

    ghost predicate Valid()
      reads this
    {
      Conserved(ledger, buffer, multiset{})
    }

    constructor ()
      ensures Valid() && !busy && buffer == [] && ledger == Ledger(multiset{}, [], [], [])
    {
      busy, buffer, ledger := false, [], Ledger(multiset{}, [], [], []);
    }

    /** A body that does not decode is answered 200 and forgotten. */
    method HandleWebhook(body: Option<Payload>)
      requires Valid()
      modifies this
      ensures Valid() && busy == old(busy)
      ensures body.None? ==> buffer == old(buffer) && ledger == old(ledger)
      ensures body.Some? ==>
                var q := Normalise(body.value);
                && ledger.routed == old(ledger).routed + multiset{q}
                && ledger.sent == old(ledger).sent + (if GoesOut(q, busy) then [[q]] else [])
                && buffer == if GoesOut(q, busy) then old(buffer) else Push(old(buffer), q)
      ensures body.Some? && (body.value.loopDetected || body.value.status in {"blocked", "failed", "loop_detected"}) ==>
                var q := body.value.(status := if body.value.loopDetected then "loop_detected" else body.value.status);
                ledger.sent == old(ledger).sent + [[q]] && buffer == old(buffer)
      ensures body.Some? && !body.value.loopDetected
              && body.value.status !in {"blocked", "failed", "loop_detected", "done", "awaiting_confirm"} ==>
                ledger.sent == old(ledger).sent && |buffer| > 0 && buffer[|buffer| - 1] == body.value
      ensures body.Some? && !body.value.loopDetected && body.value.status in {"done", "awaiting_confirm"} ==>
                if busy then ledger.sent == old(ledger).sent && |buffer| > 0 && buffer[|buffer| - 1] == body.value
                else ledger.sent == old(ledger).sent + [[body.value]] && buffer == old(buffer)
    {
      if body.None? { return; }
      var p := body.value;
      if p.loopDetected && p.status != "loop_detected" {
        p := p.(status := "loop_detected");
      }
      Route(p);
    }

    method Route(p: Payload)
      requires Valid()
      modifies this
      ensures Valid() && busy == old(busy)
      ensures ledger.routed == old(ledger).routed + multiset{p}
      ensures ledger.sent == old(ledger).sent + (if GoesOut(p, busy) then [[p]] else [])
      ensures buffer == if GoesOut(p, busy) then old(buffer) else Push(old(buffer), p)
    {
      var pri := Priority(p.status);
      OneArrives(ledger, buffer, p);
      ledger := ledger.(routed := ledger.routed + multiset{p});
      if pri == Urgent || (pri == Normal && !busy) {
        Send([p]);
      } else {
        AddToBuffer(p);
      }
    }

    /** One message out. */
    method Send(batch: seq<Payload>)
      requires Conserved(ledger, buffer, multiset(batch))
      modifies this`ledger
      ensures Valid() && ledger == Sent(old(ledger), batch)
    {
      assert multiset{} + multiset(batch) == multiset(batch);
      SendConserves(ledger, buffer, multiset{}, batch);
      ledger := Sent(ledger, batch);
    }

    method AddToBuffer(p: Payload)
      requires Conserved(ledger, buffer, multiset{p}) && !Priority(p.status).Urgent?
      modifies this`buffer, this`ledger
      ensures Valid() && buffer == Push(old(buffer), p) && ledger == Stored(old(ledger), old(buffer), p)
      ensures buffer == (if |old(buffer)| < 100 then old(buffer) else old(buffer)[1..]) + [p]
      ensures ledger.evicted == old(ledger).evicted
                                + if |old(buffer)| < BUFFER_CAP then [] else [old(buffer)[0]]
    {
      assert multiset{} + multiset{p} == multiset{p};
      StoreConserves(ledger, buffer, multiset{}, p);
      ledger := Stored(ledger, buffer, p);
      if |buffer| >= BUFFER_CAP { buffer := buffer[1..]; }
      buffer := buffer + [p];
    }

    method SetBusy()
      requires Valid()
      modifies this`busy
      ensures Valid() && busy
    {
      busy := true;
    }

    method SetFree()
      requires Valid()
      modifies this
      ensures Valid() && !busy && buffer == [] && ledger.routed == old(ledger).routed
      ensures ledger.sent == old(ledger).sent + if old(buffer) == [] then [] else [old(buffer)]
    {
      busy := false;
      Flush();
    }

    /** One message for everything buffered, none for an empty buffer. */
    method Flush()
      requires Valid()
      modifies this`buffer, this`ledger
      ensures Valid() && buffer == [] && ledger.routed == old(ledger).routed
      ensures ledger.sent == old(ledger).sent + if old(buffer) == [] then [] else [old(buffer)]
    {
      var items := buffer;
      TakeConserves(ledger, buffer, multiset{});
      buffer, ledger := [], ledger.(stored := []);
      if |items| == 0 { return; }
      Send(items);
    }
  }
}
