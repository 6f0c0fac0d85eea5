/** The delivery worker: one goroutine that drains the `created` queue. */
module Worker {
  import opened Wrappers
  import opened Ordering
  import opened Envelopes
  import opened EnvelopeTable
  import opened EnvelopeStore
  import Laws = EnvelopeLaws

  /** What the HTTP client sees; `body` is the decoded session id, if the ack decodes. */
  datatype Http = TransportError | Response(status: int, body: Option<string>)

  /** The client's verdict: an error for anything but a 200/201 with a session id. */
  function ParseAck(http: Http): Option<string> {
    if http.TransportError? || (http.status != 201 && http.status != 200) then None
    else if http.body.None? || http.body.value == "" then None
    else http.body
  }

  /** What becomes of MarkDelivered; an unconfirmed one took effect and yet reports an error. */
  datatype Flip = Confirmed | Failed | Unconfirmed

  /** Everything outside the worker's control during one tick. */
  datatype Attempt = Attempt(
    readFails: bool,       // the NextCreated query errors
    http: Http,
    cancelled: bool,       // the context ends between the POST and the flip
    flip: Flip,
    now: int,
    stops: bool)           // the context ends after the flip
  {
    /** The row is flipped. */
    predicate Flips() {
      !readFails && ParseAck(http).Some? && !cancelled && !flip.Failed?
    }

    predicate Succeeds() {
      Flips() && flip.Confirmed?
    }
  }

  /** The store operation a flipping tick commits. */
  function Mark(e: Envelope, a: Attempt): Op
    requires a.Flips()
  {
    Op.MarkDelivered(e.id, ParseAck(a.http).value, a.now)
  }

  lemma QueueHead(t: Table)
    requires Keyed(t) && Queue(t) != []
    ensures var e := Queue(t)[0]; e.id in t && t[e.id] == e && e.status.Created?
  {
    NewerOrders(t, CreatedRows(t));
    assert Queue(t)[0] in CreatedRows(t);
  }

  /** The created row that is older than all others is the head of the queue. */
  lemma OldestIsHead(t: Table, id: string)
    requires Keyed(t) && id in t && t[id].status == Status.Created
    requires forall x | x in t && x != id && t[x].status == Status.Created ::
               t[id].createdAt < t[x].createdAt || (t[id].createdAt == t[x].createdAt && Less(id, x))
    ensures Queue(t) != [] && Queue(t)[0] == t[id]
  {
    QueueIsOldestFirst(t);
    assert t[id] in Queue(t);
    var k :| 0 <= k < |Queue(t)| && Queue(t)[k] == t[id];
    if k > 0 {
      QueueHead(t);
      var head := Queue(t)[0].id;
      if Less(id, head) && Less(head, id) {
        LessIsTransitive(id, head, id);
        LessIsIrreflexive(id);
      }
      LessIsIrreflexive(id);
      assert false;
    }
  }

  /** One tick: the row is flipped only after a parsed ack; any earlier failure leaves it. */
  method TickOnce(store: Store, a: Attempt) returns (done: bool, failed: bool)
    requires store.Valid()
    modifies store
    ensures store.Valid()
    ensures Queue(old(store.rows)) == [] ==>
              done && failed == a.readFails && store.rows == old(store.rows)
    ensures Queue(old(store.rows)) != [] ==> done == failed == !a.Succeeds()
    ensures Queue(old(store.rows)) != [] && !a.Flips() ==> store.rows == old(store.rows)
    ensures Queue(old(store.rows)) != [] && a.Flips() ==>
              store.rows == After(old(store.rows), Mark(Queue(old(store.rows))[0], a))
    ensures (forall id :: id in old(store.rows) ==> old(store.rows)[id].status != Status.Created) ==>
              done && failed == a.readFails && store.rows == old(store.rows)
    ensures var t := old(store.rows);
            forall id |
              && id in t && t[id].status == Status.Created
              && (forall x | x in t && x != id && t[x].status == Status.Created ::
                    t[id].createdAt < t[x].createdAt || (t[id].createdAt == t[x].createdAt && Less(id, x)))
            :: if !a.readFails && a.http.Response? && a.http.status in {200, 201} && a.http.body.Some?
                  && a.http.body.value != "" && !a.cancelled && !a.flip.Failed?
               then
                 && done == failed == a.flip.Unconfirmed?
                 && store.rows == t[id := t[id].(status := Status.Delivered, sessionBinding := a.http.body,
                                                 delivery := Delivery.Delivery(true, Some(a.now), false, None))]
               else done && failed && store.rows == t
  {
    ghost var t := store.rows;
    forall id |
      && id in t && t[id].status == Status.Created
      && (forall x | x in t && x != id && t[x].status == Status.Created ::
            t[id].createdAt < t[x].createdAt || (t[id].createdAt == t[x].createdAt && Less(id, x)))
      ensures Queue(t) != [] && Queue(t)[0] == t[id]
    {
      OldestIsHead(t, id);
    }
    if a.readFails { return true, true; }
    var next := store.NextCreated();
    if next.None? { return true, false; }
    var e := next.value;
    var ack := ParseAck(a.http);
    if ack.None? { return true, true; }
    if a.cancelled || a.flip.Failed? { return true, true; }
    QueueHead(store.rows);
    var r := store.MarkDelivered(e.id, ack.value, a.now);
    if r.Err? || a.flip.Unconfirmed? { return true, true; }
    return false, false;
  }

  /** The operations that deliver the first `n` rows of a queue. */
  function Marks(queue: seq<Envelope>, attempts: seq<Attempt>, n: nat): seq<Op>
    requires n <= |queue| && n <= |attempts| && forall k :: 0 <= k < n ==> attempts[k].Flips()
  {
    if n == 0 then [] else Marks(queue, attempts, n - 1) + [Mark(queue[n - 1], attempts[n - 1])]
  }

  /** Delivering the head of the queue removes it and moves nothing else. */
  lemma QueueAdvances(t: Table, a: Attempt)
    requires Keyed(t) && Queue(t) != [] && a.Flips()
    ensures var t' := After(t, Mark(Queue(t)[0], a));
            Keyed(t') && Queue(t') == Queue(t)[1..]
  {
    QueueHead(t);
    var e := Queue(t)[0];
    var t' := After(t, Mark(e, a));
    assert Keyed(t');
    forall x ensures x in CreatedRows(t') <==> x in CreatedRows(t) && x != e {
      if x in CreatedRows(t) && x != e {
        var k :| k in t && t[k] == x;
        assert k in t' && t'[k] == x;
      }
      if x in CreatedRows(t') {
        var k :| k in t' && t'[k] == x;
        assert k != e.id && t[k] == x;
      }
    }
    NewerOrders(t, CreatedRows(t));
    NewerOrders(t', CreatedRows(t'));
    assert CreatedRows(t') == CreatedRows(t) - {e};
    TailArranges(Queue(t), CreatedRows(t), Older);
    ArrangementIsUnique(Queue(t)[1..], Queue(t'), CreatedRows(t'), Older);
  }

  lemma RunExtends(t: Table, ops: seq<Op>, op: Op)
    ensures Run(t, ops + [op]) == After(Run(t, ops), op)
  {
    Laws.HistoriesJoin(t, ops, [op]);
    assert [op][1..] == [] && Run(After(Run(t, ops), op), []) == After(Run(t, ops), op);
  }

  /** `t` is `start` after delivering the first `n` rows of its queue, in order, each once. */
  ghost predicate Drained(start: Table, attempts: seq<Attempt>, n: nat, t: Table) {
    && Keyed(start) && Keyed(t) && n <= |Queue(start)|
    && n <= |attempts| && (forall k :: 0 <= k < n ==> attempts[k].Flips())
    && t == Run(start, Marks(Queue(start), attempts, n))
    && Queue(t) == Queue(start)[n..]
  }

  lemma DrainStarts(start: Table, attempts: seq<Attempt>)
    requires Keyed(start)
    ensures Drained(start, attempts, 0, start)
  {
  }

  lemma DrainAdvances(start: Table, attempts: seq<Attempt>, n: nat, t: Table)
    requires Drained(start, attempts, n, t) && Queue(t) != [] && n < |attempts| && attempts[n].Flips()
    ensures Drained(start, attempts, n + 1, After(t, Mark(Queue(t)[0], attempts[n])))
    ensures |Queue(After(t, Mark(Queue(t)[0], attempts[n])))| < |Queue(t)|
  {
    QueueAdvances(t, attempts[n]);
    assert Queue(t)[0] == Queue(start)[n] && Queue(t)[1..] == Queue(start)[n + 1..];
    RunExtends(start, Marks(Queue(start), attempts, n), Mark(Queue(start)[n], attempts[n]));
  }

  /** The ticks that went through before the drain ended; the last tick may have flipped its
      row and failed to confirm it. */
  function Confirmed(attempts: seq<Attempt>, flipped: nat): nat
    requires flipped <= |attempts|
  {
    if flipped > 0 && attempts[flipped - 1].flip.Unconfirmed? then flipped - 1 else flipped
  }

  /** Why a drain ended after `flipped` rows: a failed tick, an empty queue or a cancellation. */
  ghost predicate Outcome(attempts: seq<Attempt>, before: nat, errors: nat, flipped: nat, rows: Table)
    requires Keyed(rows) && flipped < |attempts|
  {
    var through := Confirmed(attempts, flipped);
    && (forall k :: 0 <= k < through ==> attempts[k].Succeeds())
    && if errors > 0 then errors == (if through == 0 then before + 1 else 1) && !attempts[through].Succeeds()
       else through == flipped && (Queue(rows) == [] || (flipped > 0 && attempts[flipped - 1].stops))
  }

  /** The table after one tick. */
  ghost function AfterTick(t: Table, a: Attempt): Table
    requires Keyed(t)
  {
    if Queue(t) != [] && a.Flips() then After(t, Mark(Queue(t)[0], a)) else t
  }

  ghost function FlippedAfter(t: Table, a: Attempt, n: nat): nat
    requires Keyed(t)
  {
    if Queue(t) != [] && a.Flips() then n + 1 else n
  }

  /** After `n` ticks that all went through. */
  ghost predicate UnderWay(start: Table, attempts: seq<Attempt>, before: nat, n: nat, errors: nat, t: Table) {
    && Drained(start, attempts, n, t) && errors == (if n == 0 then before else 0)
    && forall k :: 0 <= k < n ==> attempts[k].Succeeds()
  }

  /** The row is flipped, but the flip is not confirmed. */
  lemma TickUnconfirmed(start: Table, attempts: seq<Attempt>, before: nat, n: nat, errors: nat, t: Table)
    requires UnderWay(start, attempts, before, n, errors, t) && |attempts| > |Queue(start)|
    requires Queue(t) != [] && attempts[n].Flips() && !attempts[n].Succeeds()
    ensures var rows := After(t, Mark(Queue(t)[0], attempts[n]));
            Drained(start, attempts, n + 1, rows) && Outcome(attempts, before, errors + 1, n + 1, rows)
  {
    DrainAdvances(start, attempts, n, t);
    assert Confirmed(attempts, n + 1) == n;
  }

  lemma TickFails(start: Table, attempts: seq<Attempt>, before: nat, n: nat, errors: nat, t: Table)
    requires UnderWay(start, attempts, before, n, errors, t) && |attempts| > |Queue(start)|
    requires !attempts[n].Succeeds()
    ensures var flipped, rows := FlippedAfter(t, attempts[n], n), AfterTick(t, attempts[n]);
            Drained(start, attempts, flipped, rows) && Outcome(attempts, before, errors + 1, flipped, rows)
  {
    if Queue(t) != [] && attempts[n].Flips() {
      TickUnconfirmed(start, attempts, before, n, errors, t);
    } else {
      assert Confirmed(attempts, n) == n;
    }
  }

  lemma TickIdles(start: Table, attempts: seq<Attempt>, before: nat, n: nat, errors: nat, t: Table)
    requires UnderWay(start, attempts, before, n, errors, t) && |attempts| > |Queue(start)| && Queue(t) == []
    ensures Outcome(attempts, before, 0, n, t)
  {
  }

  lemma TickDelivers(start: Table, attempts: seq<Attempt>, before: nat, n: nat, errors: nat, t: Table)
    requires UnderWay(start, attempts, before, n, errors, t) && |attempts| > |Queue(start)|
    requires Queue(t) != [] && attempts[n].Succeeds()
    ensures UnderWay(start, attempts, before, n + 1, 0, AfterTick(t, attempts[n]))
    ensures |Queue(AfterTick(t, attempts[n]))| < |Queue(t)|
  {
    DrainAdvances(start, attempts, n, t);
  }

  lemma TickStops(start: Table, attempts: seq<Attempt>, before: nat, n: nat, errors: nat, t: Table)
    requires n > 0 && UnderWay(start, attempts, before, n, errors, t) && |attempts| > |Queue(start)|
    requires attempts[n - 1].stops
    ensures Outcome(attempts, before, 0, n, t)
  {
  }

  /** Drains greedily until the queue is empty, a tick fails or the context ends. `attempts`
      lists what each tick meets; a drain makes at most one tick more than there are rows. */
  method DrainOnce(store: Store, attempts: seq<Attempt>, consecutiveErrors: nat)
    returns (errors: nat, ghost flipped: nat)
    requires store.Valid() && |attempts| > |Queue(store.rows)|
    modifies store
    ensures store.Valid() && Drained(old(store.rows), attempts, flipped, store.rows)
    ensures flipped < |attempts| && Outcome(attempts, consecutiveErrors, errors, flipped, store.rows)
  {
    errors, flipped := consecutiveErrors, 0;
    ghost var start, rows := store.rows, store.rows;
    DrainStarts(start, attempts);
    var tick := 0;
    while true
      invariant store.Valid() && store.rows == rows
      invariant UnderWay(start, attempts, consecutiveErrors, tick, errors, rows)
      decreases |Queue(rows)|
    {
      var a := attempts[tick];
      var idle, failed := TickOnce(store, a);
      if failed {
        TickFails(start, attempts, consecutiveErrors, tick, errors, rows);
        return errors + 1, FlippedAfter(rows, a, tick);
      }
      if idle {
        TickIdles(start, attempts, consecutiveErrors, tick, errors, rows);
        return 0, tick;
      }
      TickDelivers(start, attempts, consecutiveErrors, tick, errors, rows);
      errors, rows, tick := 0, AfterTick(rows, a), tick + 1;
      if a.stops {
        TickStops(start, attempts, consecutiveErrors, tick, errors, rows);
        return 0, tick;
      }
    }
  }

  /** Rows outside the delivered part of the queue are untouched. */
  lemma {:induction false} MarksKeepOthers(start: Table, queue: seq<Envelope>, attempts: seq<Attempt>,
                                           n: nat, id: string)
    requires n <= |queue| && n <= |attempts| && id in start
    requires forall k :: 0 <= k < n ==> attempts[k].Flips()
    requires forall k :: 0 <= k < n ==> queue[k].id != id
    ensures var t := Run(start, Marks(queue, attempts, n)); id in t && t[id] == start[id]
  {
    if n == 0 {
    } else {
      MarksKeepOthers(start, queue, attempts, n - 1, id);
      RunExtends(start, Marks(queue, attempts, n - 1), Mark(queue[n - 1], attempts[n - 1]));
    }
  }

  /** Each delivered row was flipped once, by its own tick. */
  lemma {:induction false} MarksFlipQueue(start: Table, queue: seq<Envelope>, attempts: seq<Attempt>, n: nat, k: nat)
    requires k < n <= |queue| && n <= |attempts|
    requires forall i :: 0 <= i < n ==> attempts[i].Flips() && queue[i].id in start && start[queue[i].id] == queue[i]
    requires forall i :: 0 <= i < n ==> queue[i].status.Created?
    requires forall i, j :: 0 <= i < j < n ==> queue[i].id != queue[j].id
    ensures var t := Run(start, Marks(queue, attempts, n));
            queue[k].id in t && t[queue[k].id] == Changed(queue[k], Mark(queue[k], attempts[k]))
  {
    RunExtends(start, Marks(queue, attempts, n - 1), Mark(queue[n - 1], attempts[n - 1]));
    if k == n - 1 {
      MarksKeepOthers(start, queue, attempts, n - 1, queue[k].id);
    } else {
      MarksFlipQueue(start, queue, attempts, n - 1, k);
    }
  }

  /** `queue` holds rows of the table, each once. */
  ghost predicate Takes(start: Table, queue: seq<Envelope>) {
    && (forall i :: 0 <= i < |queue| ==>
          queue[i].id in start && start[queue[i].id] == queue[i] && queue[i].status.Created?)
    && forall i, j :: 0 <= i < j < |queue| ==> queue[i].id != queue[j].id
  }

  lemma QueueIsDistinct(t: Table)
    requires Keyed(t)
    ensures Takes(t, Queue(t))
    ensures forall id :: id in t && t[id].status.Created? ==> t[id] in Queue(t)
  {
    NewerOrders(t, CreatedRows(t));
    forall i | 0 <= i < |Queue(t)|
      ensures Queue(t)[i].id in t && t[Queue(t)[i].id] == Queue(t)[i] && Queue(t)[i].status.Created?
    {
      assert Queue(t)[i] in CreatedRows(t);
    }
    forall i, j | 0 <= i < j < |Queue(t)| ensures Queue(t)[i].id != Queue(t)[j].id {
      assert Older(Queue(t)[i], Queue(t)[j]);
      assert Queue(t)[i] in CreatedRows(t) && Queue(t)[j] in CreatedRows(t);
    }
    forall id | id in t && t[id].status.Created? ensures t[id] in Queue(t) {
      assert t[id] in CreatedRows(t);
    }
  }

  lemma RowAfterMarks(start: Table, queue: seq<Envelope>, attempts: seq<Attempt>, n: nat, id: string)
    requires Takes(start, queue) && n <= |queue| && n <= |attempts| && id in start
    requires forall k :: 0 <= k < n ==> attempts[k].Flips()
    ensures var t := Run(start, Marks(queue, attempts, n));
            && id in t
            && ((forall k | 0 <= k < n :: queue[k].id != id) ==> t[id] == start[id])
            && forall k | 0 <= k < n && queue[k].id == id ::
                 t[id] == start[id].(status := Status.Delivered, sessionBinding := attempts[k].http.body,
                                     delivery := Delivery.Delivery(true, Some(attempts[k].now), false, None))
  {
    if k :| 0 <= k < n && queue[k].id == id {
      MarksFlipQueue(start, queue, attempts, n, k);
    } else {
      MarksKeepOthers(start, queue, attempts, n, id);
    }
  }

  lemma {:induction false} IdsOfPrefix(queue: seq<Envelope>, n: nat) returns (ids: set<string>)
    requires n <= |queue| && forall i, j :: 0 <= i < j < |queue| ==> queue[i].id != queue[j].id
    ensures |ids| == n && forall id :: id in ids <==> exists k | 0 <= k < n :: queue[k].id == id
  {
    if n == 0 {
      ids := {};
    } else {
      var before := IdsOfPrefix(queue, n - 1);
      ids := before + {queue[n - 1].id};
    }
  }

  /** What a drain leaves of a row: it is as it was, or it was created and is now delivered
      under the session id of a 200 or 201 answer. */
  lemma DrainDelivers(start: Table, attempts: seq<Attempt>, n: nat, t: Table, id: string)
    requires Drained(start, attempts, n, t) && id in start
    ensures id in t
    ensures t[id] == start[id] || exists k | 0 <= k < n ::
              && start[id].status == Status.Created && attempts[k].http.Response?
              && attempts[k].http.status in {200, 201} && attempts[k].http.body.Some?
              && t[id] == start[id].(status := Status.Delivered, sessionBinding := attempts[k].http.body,
                                     delivery := Delivery.Delivery(true, Some(attempts[k].now), false, None))
  {
    QueueIsDistinct(start);
    RowAfterMarks(start, Queue(start), attempts, n, id);
    if t[id] != start[id] {
      var k :| 0 <= k < n && Queue(start)[k].id == id;
      assert attempts[k].Flips();
    }
  }

  lemma TakenBefore(start: Table, queue: seq<Envelope>, attempts: seq<Attempt>, n: nat, a: string, b: string)
      returns (i: nat, j: nat)
    requires Takes(start, queue) && n <= |queue| && n <= |attempts| && a in start && b in start
    requires start[b] in queue && start[b].id == b
    requires forall k :: 0 <= k < n ==> attempts[k].Flips()
    requires var t := Run(start, Marks(queue, attempts, n));
             a in t && b in t && t[a] != start[a] && t[b] == start[b]
    ensures i < n <= j < |queue| && queue[i].id == a && queue[j].id == b
  {
    RowAfterMarks(start, queue, attempts, n, a);
    RowAfterMarks(start, queue, attempts, n, b);
    i :| 0 <= i < n && queue[i].id == a;
    j :| 0 <= j < |queue| && queue[j] == start[b];
  }

  /** A drain takes the oldest rows first: none it has left is older than one it has taken. */
  lemma DrainTakesOldest(start: Table, attempts: seq<Attempt>, n: nat, t: Table, a: string, b: string)
    requires Drained(start, attempts, n, t) && a in start && b in start && a in t && b in t
    requires t[a] != start[a] && t[b] == start[b] && start[b].status == Status.Created
    ensures start[a].createdAt < start[b].createdAt || (start[a].createdAt == start[b].createdAt && Less(a, b))
  {
    QueueIsDistinct(start);
    QueueIsOldestFirst(start);
    assert start[b] in Queue(start);
    var i, j := TakenBefore(start, Queue(start), attempts, n, a, b);
  }

  /** Each of the `n` flips hits a row of its own. */
  lemma DrainFlipsEachOnce(start: Table, attempts: seq<Attempt>, n: nat, t: Table)
    requires Drained(start, attempts, n, t)
    ensures start.Keys <= t.Keys && |set id | id in start && t[id] != start[id]| == n
  {
    QueueIsDistinct(start);
    var queue := Queue(start);
    var ids := IdsOfPrefix(queue, n);
    forall id | id in start ensures id in t && (t[id] != start[id] <==> id in ids) {
      RowAfterMarks(start, queue, attempts, n, id);
    }
    assert (set id | id in start && t[id] != start[id]) == ids;
  }

  /** Why a drain ended: nothing is left to deliver, the context ended, or one tick failed after
      `k` that went through, which is the first error or adds one to those counted before. */
  lemma OutcomeMeans(attempts: seq<Attempt>, before: nat, errors: nat, flipped: nat, rows: Table)
    requires Keyed(rows) && flipped < |attempts| && Outcome(attempts, before, errors, flipped, rows)
    ensures errors == 0 ==>
              (forall id :: id in rows ==> rows[id].status != Status.Created)
              || (flipped > 0 && attempts[flipped - 1].stops)
    ensures errors > 0 ==> exists k: nat | k <= flipped <= k + 1 ::
              && errors == (if k == 0 then before + 1 else 1)
              && !(attempts[k].http.Response? && attempts[k].http.status in {200, 201}
                   && attempts[k].http.body.Some? && attempts[k].http.body.value != ""
                   && !attempts[k].readFails && !attempts[k].cancelled && attempts[k].flip.Confirmed?)
              && forall i | 0 <= i < k ::
                   && attempts[i].http.Response? && attempts[i].http.status in {200, 201}
                   && attempts[i].http.body.Some? && attempts[i].http.body.value != ""
                   && !attempts[i].readFails && !attempts[i].cancelled && attempts[i].flip.Confirmed?
  {
    QueueIsDistinct(rows);
    var k := Confirmed(attempts, flipped);
    assert k <= flipped <= k + 1;
  }

  /** With a Forge that always acks, one drain delivers every created envelope, each once,
      and leaves no row in `created`; the rows it did not take are as they were. */
  lemma FullDrainDeliversAll(start: Table, attempts: seq<Attempt>, before: nat, errors: nat,
                             n: nat, t: Table, id: string)
    requires Drained(start, attempts, n, t) && n < |attempts| && Outcome(attempts, before, errors, n, t) && id in start
    requires forall k :: 0 <= k < |attempts| ==> attempts[k].Succeeds() && !attempts[k].stops
    ensures errors == 0 && n == |Queue(start)| && Queue(t) == [] && id in t
    ensures !start[id].status.Created? ==> t[id] == start[id]
    ensures start[id].status.Created? ==>
              exists k :: 0 <= k < n && Queue(start)[k] == start[id]
                && t[id] == Changed(start[id], Mark(start[id], attempts[k]))
  {
    QueueIsDistinct(start);
    if start[id].status.Created? {
      var k :| 0 <= k < |Queue(start)| && Queue(start)[k] == start[id];
      MarksFlipQueue(start, Queue(start), attempts, n, k);
    } else {
      MarksKeepOthers(start, Queue(start), attempts, n, id);
    }
  }
}
