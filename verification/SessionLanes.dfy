/** Session message lanes: order allocation with conflict retry, and cursor reads. */
module SessionLanes {
  import opened Wrappers
  import opened Ordering
  import opened Polling

  const MAX_RETRIES := 5

  datatype Message = Message(id: string, sessionId: string, sender: string, kind: string,
                             text: string, insertOrder: nat)

  datatype StoreError = NotFound | RetriesExceeded

  type Lanes = map<string, seq<Message>>

  predicate ByOrder(a: Message, b: Message) {
    a.insertOrder < b.insertOrder
  }

  function Ids(lane: seq<Message>): (ids: seq<string>)
    ensures |ids| == |lane| && forall k :: 0 <= k < |lane| ==> ids[k] == lane[k].id
  {
    seq(|lane|, k requires 0 <= k < |lane| => lane[k].id)
  }

  function Append(lanes: Lanes, m: Message): Lanes
    requires m.sessionId in lanes
  {
    var lane := lanes[m.sessionId];
    lanes[m.sessionId := lane + [m.(insertOrder := |lane| + 1)]]
  }

  ghost predicate Used(lanes: Lanes, id: string) {
    exists s, k :: s in lanes && 0 <= k < |lanes[s]| && lanes[s][k].id == id
  }

  /** What another connection's inserts make of the lanes. */
  ghost function AfterInserts(lanes: Lanes, ms: seq<Message>): (after: Lanes)
    ensures after.Keys == lanes.Keys
  {
    if ms == [] then lanes
    else
      var before := AfterInserts(lanes, ms[..|ms| - 1]);
      var m := ms[|ms| - 1];
      if m.sessionId in before && !Used(before, m.id) then Append(before, m) else before
  }

  function Rivals(rivals: seq<seq<Message>>, i: nat): seq<Message> {
    if i < |rivals| then rivals[i] else []
  }

  /** An attempt fails: its id is taken, or a rival took its order. */
  ghost predicate Clash(lanes: Lanes, ms: seq<Message>, m: Message)
    requires m.sessionId in lanes
  {
    var after := AfterInserts(lanes, ms);
    Used(after, m.id) || |after[m.sessionId]| > |lanes[m.sessionId]|
  }

  datatype Outcome = Outcome(lanes: Lanes, order: Option<nat>, attempts: nat)

  function OrderOf(r: Result<nat, StoreError>): Option<nat> {
    if r.Ok? then Some(r.value) else None
  }

  /** Attempts from number `i` on, each undone when it clashes with its rivals. */
  ghost function Insertion(lanes: Lanes, m: Message, rivals: seq<seq<Message>>, i: nat): Outcome
    requires m.sessionId in lanes && i <= MAX_RETRIES
    decreases MAX_RETRIES - i
  {
    if i == MAX_RETRIES then Outcome(lanes, None, i)
    else
      var after := AfterInserts(lanes, Rivals(rivals, i));
      if Clash(lanes, Rivals(rivals, i), m) then Insertion(after, m, rivals, i + 1)
      else Outcome(Append(after, m), Some(|after[m.sessionId]| + 1), i + 1)
  }

  /** The k-th message of the lane has order k + 1 and is a row of the table. */
  ghost predicate LaneSound(messages: map<string, Message>, s: string, lane: seq<Message>) {
    forall k :: 0 <= k < |lane| ==>
      var m := lane[k];
      m.sessionId == s && m.insertOrder == k + 1 && m.id in messages && messages[m.id] == m
  }

  /** The row is the message its lane holds at its order. */
  predicate RowSound(lanes: Lanes, id: string, m: Message) {
    && m.id == id && m.sessionId in lanes && 1 <= m.insertOrder <= |lanes[m.sessionId]|
    && lanes[m.sessionId][m.insertOrder - 1] == m
  }

  ghost predicate LanesSound(messages: map<string, Message>, lanes: Lanes) {
    && (forall s :: s in lanes ==> LaneSound(messages, s, lanes[s]))
    && forall id :: id in messages ==> RowSound(lanes, id, messages[id])
  }

  lemma IdsAreUsed(messages: map<string, Message>, lanes: Lanes, id: string)
    requires LanesSound(messages, lanes)
    ensures id in messages <==> Used(lanes, id)
  {
    if id in messages {
      var m := messages[id];
      assert lanes[m.sessionId][m.insertOrder - 1].id == id;
    }
  }

  lemma AppendKeeps(messages: map<string, Message>, lanes: Lanes, m: Message)
    requires LanesSound(messages, lanes) && m.id !in messages && m.sessionId in lanes
    ensures LanesSound(messages[m.id := m.(insertOrder := |lanes[m.sessionId]| + 1)], Append(lanes, m))
  {
  }

  /** Unique ids make every lane fit for cursor polling, unless a message has the empty id. */
  lemma LanesPollExactlyOnce(messages: map<string, Message>, lanes: Lanes, s: string)
    requires LanesSound(messages, lanes) && s in lanes
    ensures ExactlyOnce(Ids(lanes[s])) <==> forall k | 0 <= k < |lanes[s]| :: lanes[s][k].id != ""
  {
    var ids := Ids(lanes[s]);
    ExactlyOnceExactly(ids);
    forall i, j | 0 <= i < j < |ids| ensures ids[i] != ids[j] {
      assert lanes[s][i].insertOrder != lanes[s][j].insertOrder;
    }
  }

  function RowsAfter(messages: map<string, Message>, s: string, after: nat): set<Message> {
    set id | id in messages && messages[id].sessionId == s && messages[id].insertOrder > after :: messages[id]
  }

  lemma RowsAreOrdered(messages: map<string, Message>, lanes: Lanes, s: string, after: nat)
    requires LanesSound(messages, lanes)
    ensures Orders(ByOrder, RowsAfter(messages, s, after))
  {
    var rows := RowsAfter(messages, s, after);
    forall a, b | a in rows && b in rows && a != b ensures ByOrder(a, b) || ByOrder(b, a) {
      assert a == lanes[s][a.insertOrder - 1] && b == lanes[s][b.insertOrder - 1];
    }
  }

  lemma SuffixHoldsRows(messages: map<string, Message>, lanes: Lanes, s: string, after: nat, m: Message)
    requires LanesSound(messages, lanes) && s in lanes && after <= |lanes[s]|
    ensures m in lanes[s][after..] <==> m in RowsAfter(messages, s, after)
  {
    var suffix := lanes[s][after..];
    if m in suffix {
      var k :| 0 <= k < |suffix| && suffix[k] == m;
      assert lanes[s][after + k] == m;
    }
    if m in RowsAfter(messages, s, after) {
      assert lanes[s][m.insertOrder - 1] == m;
      assert suffix[m.insertOrder - 1 - after] == m;
    }
  }

  /** The rows of a session after an order are the matching lane suffix, in lane order. */
  lemma SuffixArranges(messages: map<string, Message>, lanes: Lanes, s: string, after: nat)
    requires LanesSound(messages, lanes) && s in lanes && after <= |lanes[s]|
    ensures Orders(ByOrder, RowsAfter(messages, s, after))
    ensures Arrange(RowsAfter(messages, s, after), ByOrder) == lanes[s][after..]
  {
    var rows, suffix := RowsAfter(messages, s, after), lanes[s][after..];
    RowsAreOrdered(messages, lanes, s, after);
    forall m ensures m in suffix <==> m in rows {
      SuffixHoldsRows(messages, lanes, s, after, m);
    }
    forall i, j | 0 <= i < j < |suffix| ensures ByOrder(suffix[i], suffix[j]) {
      assert suffix[i] == lanes[s][after + i] && suffix[j] == lanes[s][after + j];
    }
    ArrangementIsUnique(suffix, Arrange(rows, ByOrder), rows, ByOrder);
  }

  /** An id of the lane cuts it right after its message; an id of no lane message cuts all. */
  lemma CutIsOrder(messages: map<string, Message>, lanes: Lanes, s: string, since: string)
    requires LanesSound(messages, lanes) && s in lanes && since != ""
    ensures var found := since in messages && messages[since].sessionId == s;
            Cut(Ids(lanes[s]), since) == if found then messages[since].insertOrder else |lanes[s]|
  {
    var ids := Ids(lanes[s]);
    if since in messages && messages[since].sessionId == s {
      assert ids[messages[since].insertOrder - 1] == since;
    }
    if since in ids {
      var k := Cut(ids, since) - 1;
      assert lanes[s][k].id == since && messages[since] == lanes[s][k];
    }
  }

  /** What other connections add to the lanes during one read of messages. */
  ghost function AfterReads(lanes: Lanes, session: string, since: string,
                            first: seq<Message>, second: seq<Message>): Lanes {
    if session !in lanes then lanes
    else
      var seen := AfterInserts(lanes, first);
      if since != "" && since in Ids(seen[session]) then AfterInserts(seen, second) else seen
  }

  lemma UsedStays(lanes: Lanes, m: Message)
    requires m.sessionId in lanes
    ensures Used(Append(lanes, m), m.id)
    ensures forall id | Used(lanes, id) :: Used(Append(lanes, m), id)
  {
    var after: Lanes, lane := Append(lanes, m), lanes[m.sessionId];
    assert after[m.sessionId][|lane|].id == m.id;
    forall id | Used(lanes, id) ensures Used(after, id) {
      var s, k :| s in lanes && 0 <= k < |lanes[s]| && lanes[s][k].id == id;
      assert after[s][k].id == id;
    }
  }

  lemma {:induction false} InsertsExtendLanes(lanes: Lanes, ms: seq<Message>, s: string)
    requires s in lanes
    ensures lanes[s] <= AfterInserts(lanes, ms)[s]
  {
    if ms == [] {
    } else {
      InsertsExtendLanes(lanes, ms[..|ms| - 1], s);
    }
  }

  /** What others insert is in the table afterwards: every id they sent for a known session is
      used, and whatever a lane has gained is one of their messages, at the next order. */
  lemma {:induction false} InsertsAreStored(lanes: Lanes, ms: seq<Message>, s: string, k: nat, i: nat)
    ensures i < |ms| && ms[i].sessionId in lanes ==> Used(AfterInserts(lanes, ms), ms[i].id)
    ensures s in lanes && |lanes[s]| <= k < |AfterInserts(lanes, ms)[s]| ==>
              exists m :: m in ms && m.sessionId == s
                          && AfterInserts(lanes, ms)[s][k] == m.(insertOrder := k + 1)
  {
    if ms == [] {
    } else {
      var init, m := ms[..|ms| - 1], ms[|ms| - 1];
      var before, after := AfterInserts(lanes, init), AfterInserts(lanes, ms);
      InsertsAreStored(lanes, init, s, k, i);
      if m.sessionId in before {
        UsedStays(before, m);
        if i < |init| && ms[i].sessionId in lanes { assert Used(before, init[i].id); }
      }
    }
  }

  /** Messages that arrive after the lookup do not move the cursor's place in the lane. */
  lemma CutStays(lanes: Lanes, ms: seq<Message>, s: string, since: string)
    requires s in lanes && since != "" && since in Ids(lanes[s])
    ensures Cut(Ids(AfterInserts(lanes, ms)[s]), since) == Cut(Ids(lanes[s]), since)
  {
    InsertsExtendLanes(lanes, ms, s);
    var ids, grown := Ids(lanes[s]), Ids(AfterInserts(lanes, ms)[s]);
    var k := Cut(ids, since) - 1;
    forall j | 0 <= j < k ensures grown[j] != since {
      assert ids[j] in ids[..k];
    }
    CutIsFirst(grown, since, k);
  }

  /** Both constraints of the table: the primary key and the unique (session, order) index. */
  predicate Violates(messages: map<string, Message>, m: Message) {
    || m.id in messages
    || exists id :: id in messages && messages[id].sessionId == m.sessionId && messages[id].insertOrder == m.insertOrder
  }

  /** The constraints fail exactly for a used id or an order a rival took meanwhile. */
  lemma ViolatesExactly(messages: map<string, Message>, lanes: Lanes, m: Message)
    requires LanesSound(messages, lanes) && m.sessionId in lanes && 1 <= m.insertOrder <= |lanes[m.sessionId]| + 1
    ensures Violates(messages, m) <==> Used(lanes, m.id) || |lanes[m.sessionId]| >= m.insertOrder
  {
    IdsAreUsed(messages, lanes, m.id);
    if |lanes[m.sessionId]| >= m.insertOrder {
      var taken := lanes[m.sessionId][m.insertOrder - 1];
      assert messages[taken.id] == taken;
    }
  }

  ghost predicate Grown(lanes: Lanes, after: Lanes) {
    forall s :: s in lanes ==> s in after && lanes[s] <= after[s]
  }

  /** Whatever the rivals do, lanes only grow at the end. */
  lemma {:induction false} InsertionGrows(lanes: Lanes, m: Message, rivals: seq<seq<Message>>, i: nat)
    requires m.sessionId in lanes && i <= MAX_RETRIES
    ensures Grown(lanes, Insertion(lanes, m, rivals, i).lanes)
    decreases MAX_RETRIES - i
  {
    if i == MAX_RETRIES {
    } else {
      var ms := Rivals(rivals, i);
      var after := AfterInserts(lanes, ms);
      forall s | s in lanes ensures lanes[s] <= after[s] {
        InsertsExtendLanes(lanes, ms, s);
      }
      if Clash(lanes, ms, m) {
        InsertionGrows(after, m, rivals, i + 1);
      } else {
        assert Grown(after, Append(after, m));
      }
    }
  }

  /** An accepted message is its lane's last, with the lane's length for its order. */
  lemma {:induction false} AcceptedIsLast(lanes: Lanes, m: Message, rivals: seq<seq<Message>>, i: nat)
    requires m.sessionId in lanes && i <= MAX_RETRIES
    ensures var o := Insertion(lanes, m, rivals, i);
            o.order.Some? ==>
              && m.sessionId in o.lanes && o.lanes[m.sessionId] != []
              && o.order.value == |o.lanes[m.sessionId]|
              && o.lanes[m.sessionId][o.order.value - 1] == m.(insertOrder := o.order.value)
    decreases MAX_RETRIES - i
  {
    if i == MAX_RETRIES {
    } else if Clash(lanes, Rivals(rivals, i), m) {
      AcceptedIsLast(AfterInserts(lanes, Rivals(rivals, i)), m, rivals, i + 1);
    }
  }

  /** An id that is used stays so, whatever happens to the insertion. */
  lemma UsedOutlasts(lanes: Lanes, m: Message, rivals: seq<seq<Message>>, i: nat, id: string)
    requires m.sessionId in lanes && i <= MAX_RETRIES
    ensures Used(lanes, id) ==> Used(Insertion(lanes, m, rivals, i).lanes, id)
  {
    InsertionGrows(lanes, m, rivals, i);
    var o := Insertion(lanes, m, rivals, i);
    if s, k :| s in lanes && 0 <= k < |lanes[s]| && lanes[s][k].id == id {
      assert o.lanes[s][k].id == id;
    }
  }

  /** What rivals commit during an attempt stays, whether the attempt is undone or not. */
  lemma {:induction false} RivalsAreStored(
      lanes: Lanes, m: Message, rivals: seq<seq<Message>>, i: nat, j: nat, k: nat)
    requires m.sessionId in lanes && i <= MAX_RETRIES && i <= j < Insertion(lanes, m, rivals, i).attempts
    requires j < |rivals| && k < |rivals[j]| && rivals[j][k].sessionId in lanes
    ensures Used(Insertion(lanes, m, rivals, i).lanes, rivals[j][k].id)
    decreases MAX_RETRIES - i
  {
    if i == MAX_RETRIES {
    } else {
      var ms := Rivals(rivals, i);
      var after := AfterInserts(lanes, ms);
      if i == j {
        InsertsAreStored(lanes, ms, m.sessionId, 0, k);
        UsedStays(after, m);
        if Clash(lanes, ms, m) { UsedOutlasts(after, m, rivals, i + 1, ms[k].id); }
      } else {
        RivalsAreStored(after, m, rivals, i + 1, j, k);
      }
    }
  }

  /** A used id is retried like a taken order, and so fails only after five attempts. */
  lemma {:induction false} UsedIdExhaustsRetries(lanes: Lanes, m: Message, rivals: seq<seq<Message>>, i: nat)
    requires m.sessionId in lanes && i <= MAX_RETRIES && Used(lanes, m.id)
    ensures Insertion(lanes, m, rivals, i).order == None && Insertion(lanes, m, rivals, i).attempts == 5
    decreases MAX_RETRIES - i
  {
    if i == MAX_RETRIES {
    } else {
      var s: string, k: nat :| s in lanes && 0 <= k < |lanes[s]| && lanes[s][k].id == m.id;
      var after: Lanes := AfterInserts(lanes, Rivals(rivals, i));
      InsertsExtendLanes(lanes, Rivals(rivals, i), s);
      assert after[s][k].id == m.id;
      UsedIdExhaustsRetries(after, m, rivals, i + 1);
    }
  }

  /** A message is refused only for a used id or after losing to a rival in its lane at every
      one of its attempts. */
  lemma {:induction false} RefusalMeansRivals(lanes: Lanes, m: Message, rivals: seq<seq<Message>>, i: nat, j: nat)
    requires m.sessionId in lanes && i <= j < MAX_RETRIES
    requires Insertion(lanes, m, rivals, i).order == None && !Used(Insertion(lanes, m, rivals, i).lanes, m.id)
    ensures j < |rivals| && exists r :: r in rivals[j] && r.sessionId == m.sessionId
    decreases MAX_RETRIES - i
  {
    var ms := Rivals(rivals, i);
    var after := AfterInserts(lanes, ms);
    assert Clash(lanes, ms, m);
    if i < j {
      RefusalMeansRivals(after, m, rivals, i + 1, j);
    } else {
      UsedOutlasts(after, m, rivals, i + 1, m.id);
      InsertsAreStored(lanes, ms, m.sessionId, |lanes[m.sessionId]|, 0);
    }
  }

  /** Undisturbed, the first attempt decides: exactly a used id is refused. */
  lemma QuietInsertion(lanes: Lanes, m: Message)
    requires m.sessionId in lanes
    ensures var o := Insertion(lanes, m, [], 0);
            if Used(lanes, m.id) then o.order == None
            else o == Outcome(Append(lanes, m), Some(|lanes[m.sessionId]| + 1), 1)
  {
    if Used(lanes, m.id) { UsedIdExhaustsRetries(lanes, m, [], 0); }
  }

  /** An attempt that succeeds ends the insertion, another one leaves the rest of it to do. */
  lemma AttemptAdvances(lanes: Lanes, m: Message, rivals: seq<seq<Message>>, i: nat, ok: bool, order: nat, next: Lanes)
    requires m.sessionId in lanes && i < MAX_RETRIES && ok == !Clash(lanes, Rivals(rivals, i), m)
    requires var after := AfterInserts(lanes, Rivals(rivals, i));
             && next == (if ok then Append(after, m) else after)
             && (ok ==> order == |after[m.sessionId]| + 1)
    ensures m.sessionId in next
    ensures Insertion(lanes, m, rivals, i) ==
            if ok then Outcome(next, Some(order), i + 1) else Insertion(next, m, rivals, i + 1)
  {
  }

  /** From attempt `i` on, the insertion comes to `o`. */
  ghost predicate Remains(lanes: Lanes, m: Message, rivals: seq<seq<Message>>, i: nat, o: Outcome) {
    m.sessionId in lanes && i <= MAX_RETRIES && Insertion(lanes, m, rivals, i) == o
  }

  lemma RetriesEnd(lanes: Lanes, m: Message, rivals: seq<seq<Message>>, o: Outcome)
    requires Remains(lanes, m, rivals, MAX_RETRIES, o)
    ensures o == Outcome(lanes, None, MAX_RETRIES)
  {
  }

  class Store {
    var sessions: set<string>
    var messages: map<string, Message>   // by primary key

    ghost var lanes: Lanes               // every session's messages in commit order

    ghost predicate Valid()
      reads this
    {
      sessions == lanes.Keys && LanesSound(messages, lanes)
    }

    constructor ()
      ensures Valid() && lanes == map[]
    {
      sessions, messages, lanes := {}, map[], map[];
    }

    method Insert(session: string) returns (ok: bool)
      requires Valid()
      modifies this
      ensures Valid() && ok == (session !in old(lanes))
      ensures lanes == if ok then old(lanes)[session := []] else old(lanes)
    {
      if session in sessions { return false; }
      sessions, lanes := sessions + {session}, lanes[session := []];
      return true;
    }

    /** `COALESCE(MAX(insert_order), 0) + 1` over the session's rows. */
    method NextInsertOrder(session: string) returns (order: nat)
      requires Valid() && session in lanes
      ensures order == |lanes[session]| + 1
    {
      var max: nat := 0;
      var left := messages.Keys;
      while left != {}
        invariant left <= messages.Keys && max <= |lanes[session]|
        invariant forall id :: id in messages.Keys - left && messages[id].sessionId == session ==>
          messages[id].insertOrder <= max
      {
        var id :| id in left;
        left := left - {id};
        if messages[id].sessionId == session && messages[id].insertOrder > max {
          max := messages[id].insertOrder;
        }
      }
      if lanes[session] != [] {
        var last := lanes[session][|lanes[session]| - 1];
        assert messages[last.id] == last && last.id in messages.Keys - left;
      }
      return max + 1;
    }

    /** Inserts of another connection, each an uncontended `InsertMessage`. */
    method CommitRivals(ms: seq<Message>)
      requires Valid()
      modifies this`messages, this`lanes
      ensures Valid() && lanes == AfterInserts(old(lanes), ms)
    {
      for i := 0 to |ms|
        invariant Valid() && lanes == AfterInserts(old(lanes), ms[..i])
      {
        var m := ms[i];
        assert ms[..i + 1][..i] == ms[..i];
        IdsAreUsed(messages, lanes, m.id);
        if m.sessionId in sessions && m.id !in messages {
          var order := NextInsertOrder(m.sessionId);
          AppendKeeps(messages, lanes, m);
          messages := messages[m.id := m.(insertOrder := order)];
          lanes := Append(lanes, m);
        }
      }
      assert ms[..|ms|] == ms;
    }

    /** One transaction: read the maximum, (other connections commit `ms`), insert. */
    method Attempt(msg: Message, ms: seq<Message>) returns (ok: bool, order: nat)
      requires Valid() && msg.sessionId in lanes
      modifies this`messages, this`lanes
      ensures Valid() && ok == !Clash(old(lanes), ms, msg)
      ensures var after := AfterInserts(old(lanes), ms); lanes == if ok then Append(after, msg) else after
      ensures order == |old(lanes)[msg.sessionId]| + 1
      ensures ok ==> order == |AfterInserts(old(lanes), ms)[msg.sessionId]| + 1
    {
      order := NextInsertOrder(msg.sessionId);
      InsertsExtendLanes(lanes, ms, msg.sessionId);
      CommitRivals(ms);
      var row := msg.(insertOrder := order);
      ViolatesExactly(messages, lanes, row);
      if Violates(messages, row) { return false, order; }
      AppendKeeps(messages, lanes, msg);
      messages := messages[row.id := row];
      lanes := Append(lanes, msg);
      return true, order;
    }

    /** `rivals[i]` is what other connections commit between attempt i's read of the
        maximum and its insert; `attempts` is how many attempts were made. */
    method InsertMessage(msg: Message, rivals: seq<seq<Message>>) returns (r: Result<nat, StoreError>, attempts: nat)
      requires Valid()
      modifies this`messages, this`lanes
      ensures Valid()
      ensures msg.sessionId !in old(lanes) ==> r == Err(NotFound) && lanes == old(lanes)
      ensures msg.sessionId in old(lanes) ==>
        Outcome(lanes, OrderOf(r), attempts) == Insertion(old(lanes), msg, rivals, 0)
      ensures msg.sessionId in old(lanes) && r.Err? ==> r.error == RetriesExceeded
    {
      if msg.sessionId !in sessions { return Err(NotFound), 0; }
      r, attempts := InsertMessageWithRetry(msg, rivals);
    }

    method InsertMessageWithRetry(msg: Message, rivals: seq<seq<Message>>)
      returns (r: Result<nat, StoreError>, attempts: nat)
      requires Valid() && msg.sessionId in lanes
      modifies this`messages, this`lanes
      ensures Valid()
      ensures Outcome(lanes, OrderOf(r), attempts) == Insertion(old(lanes), msg, rivals, 0)
      ensures r.Err? ==> r.error == RetriesExceeded
    {
      r, attempts := RetryFrom(0, msg, rivals, Insertion(lanes, msg, rivals, 0));
    }

    /** The retry loop, entered at any attempt. */
    method RetryFrom(first: nat, msg: Message, rivals: seq<seq<Message>>, ghost o: Outcome)
      returns (r: Result<nat, StoreError>, attempts: nat)
      requires Valid() && Remains(lanes, msg, rivals, first, o)
      modifies this`messages, this`lanes
      ensures Valid() && Outcome(lanes, OrderOf(r), attempts) == o
      ensures r.Err? ==> r.error == RetriesExceeded
    {
      attempts := first;
      while attempts < MAX_RETRIES
        invariant Valid() && attempts <= MAX_RETRIES && Remains(lanes, msg, rivals, attempts, o)
      {
        var ok, order := NextAttempt(msg, rivals, attempts, o);
        attempts := attempts + 1;
        if ok { return Ok(order), attempts; }
      }
      RetriesEnd(lanes, msg, rivals, o);
      return Err(RetriesExceeded), attempts;
    }

    /** Attempt number `i`, which ends the insertion or leaves the rest of it to do. */
    method NextAttempt(msg: Message, rivals: seq<seq<Message>>, i: nat, ghost o: Outcome)
      returns (ok: bool, order: nat)
      requires Valid() && i < MAX_RETRIES && Remains(lanes, msg, rivals, i, o)
      modifies this`messages, this`lanes
      ensures Valid() && msg.sessionId in lanes
      ensures if ok then o == Outcome(lanes, Some(order), i + 1) else Remains(lanes, msg, rivals, i + 1, o)
    {
      ghost var was := lanes;
      ok, order := Attempt(msg, Rivals(rivals, i));
      AttemptAdvances(was, msg, rivals, i, ok, order, lanes);
    }

    /** `first` and `second` are what other connections commit before the cursor's lookup and
        between it and the query of the rows: no transaction spans the two. */
    method GetMessages(session: string, since: string, first: seq<Message>, second: seq<Message>)
      returns (r: Result<seq<Message>, StoreError>)
      requires Valid()
      modifies this`messages, this`lanes
      ensures Valid() && lanes == AfterReads(old(lanes), session, since, first, second)
      ensures session !in old(lanes) ==> r == Err(NotFound)
      ensures session in old(lanes) ==> r == Ok(lanes[session][Cut(Ids(lanes[session]), since)..])
    {
      if session !in sessions { return Err(NotFound); }
      CommitRivals(first);
      if since != "" {
        r := GetMessagesAfter(session, since, second);
        return;
      }
      SuffixArranges(messages, lanes, session, 0);
      var out := Select(RowsAfter(messages, session, 0), ByOrder);
      return Ok(out);
    }

    method GetMessagesAfter(session: string, since: string, rivals: seq<Message>)
      returns (r: Result<seq<Message>, StoreError>)
      requires Valid() && session in lanes && since != ""
      modifies this`messages, this`lanes
      ensures Valid() && lanes == if since in Ids(old(lanes)[session]) then AfterInserts(old(lanes), rivals)
        else old(lanes)
      ensures r == Ok(lanes[session][Cut(Ids(lanes[session]), since)..])
    {
      CutIsOrder(messages, lanes, session, since);
      if since !in messages || messages[since].sessionId != session {
        assert lanes[session][|lanes[session]|..] == [];
        return Ok([]);
      }
      var sinceOrder := messages[since].insertOrder;
      CutStays(lanes, rivals, session, since);
      CommitRivals(rivals);
      SuffixArranges(messages, lanes, session, sinceOrder);
      var out := Select(RowsAfter(messages, session, sinceOrder), ByOrder);
      return Ok(out);
    }
  }
}
