/** The SQLite-backed store: an object that owns the table and updates it in place. */
module EnvelopeStore {
  import opened Wrappers
  import opened Ordering
  import opened Polling
  import opened Envelopes
  import opened EnvelopeTable

  /** Rows are stored under their own id. */
  ghost predicate Keyed(t: Table) {
    forall id :: id in t ==> t[id].id == id
  }

  /** `ORDER BY created_at DESC, id DESC`. */
  predicate Newer(a: Envelope, b: Envelope) {
    a.createdAt > b.createdAt || (a.createdAt == b.createdAt && Less(b.id, a.id))
  }

  /** `ORDER BY created_at ASC, id ASC`. */
  predicate Older(a: Envelope, b: Envelope) {
    Newer(b, a)
  }

  predicate Selected(e: Envelope, statuses: set<Status>) {
    statuses == {} || e.status in statuses
  }

  predicate IsActive(s: Status) {
    s.Delivered? || s.InProgress?
  }

  function CreatedRows(t: Table): set<Envelope> {
    set e | e in t.Values && e.status.Created?
  }

  function SelectedRows(t: Table, statuses: set<Status>): set<Envelope> {
    set e | e in t.Values && Selected(e, statuses)
  }

  function ActiveRows(t: Table, project: string): set<Envelope> {
    set e | e in t.Values && e.project == project && IsActive(e.status)
  }

  lemma NewerOrders(t: Table, rows: set<Envelope>)
    requires Keyed(t) && rows <= t.Values
    ensures Orders(Newer, rows) && Orders(Older, rows)
  {
    forall a | a in rows ensures !Newer(a, a) { LessIsIrreflexive(a.id); }
    forall a, b | a in rows && b in rows && a != b ensures Newer(a, b) || Newer(b, a) {
      var i :| i in t && t[i] == a;
      var j :| j in t && t[j] == b;
      LessIsTotal(a.id, b.id);
    }
    forall a, b, c | a in rows && b in rows && c in rows && Newer(a, b) && Newer(b, c) ensures Newer(a, c) {
      if a.createdAt == c.createdAt { LessIsTransitive(c.id, b.id, a.id); }
    }
  }

  /** Rows oldest first: the order in which the worker takes them. */
  ghost function Queue(t: Table): seq<Envelope>
    requires Keyed(t)
  {
    NewerOrders(t, CreatedRows(t));
    Arrange(CreatedRows(t), Older)
  }

  ghost function Listing(t: Table, statuses: set<Status>): seq<Envelope>
    requires Keyed(t)
  {
    NewerOrders(t, SelectedRows(t, statuses));
    Arrange(SelectedRows(t, statuses), Newer)
  }

  ghost function ActiveListing(t: Table, project: string): seq<Envelope>
    requires Keyed(t)
  {
    NewerOrders(t, ActiveRows(t, project));
    Arrange(ActiveRows(t, project), Newer)
  }

  /** The queue holds the created rows, by creation time and, among equals, by id. */
  lemma QueueIsOldestFirst(t: Table)
    requires Keyed(t)
    ensures forall e :: e in Queue(t) <==> e in t.Values && e.status == Status.Created
    ensures forall i, j :: 0 <= i < j < |Queue(t)| ==>
              Queue(t)[i].createdAt < Queue(t)[j].createdAt
              || (Queue(t)[i].createdAt == Queue(t)[j].createdAt && Less(Queue(t)[i].id, Queue(t)[j].id))
  {
    NewerOrders(t, CreatedRows(t));
  }

  lemma ListingIsNewestFirst(t: Table, statuses: set<Status>)
    requires Keyed(t)
    ensures forall e :: e in Listing(t, statuses) <==> e in t.Values && (statuses == {} || e.status in statuses)
    ensures forall i, j :: 0 <= i < j < |Listing(t, statuses)| ==>
              var a, b := Listing(t, statuses)[i], Listing(t, statuses)[j];
              a.createdAt > b.createdAt || (a.createdAt == b.createdAt && Less(b.id, a.id))
  {
    NewerOrders(t, SelectedRows(t, statuses));
  }

  lemma ActiveListingIsNewestFirst(t: Table, project: string)
    requires Keyed(t)
    ensures forall e :: e in ActiveListing(t, project) <==>
              e in t.Values && e.project == project && e.status in {Status.Delivered, Status.InProgress}
    ensures forall i, j :: 0 <= i < j < |ActiveListing(t, project)| ==>
              var a, b := ActiveListing(t, project)[i], ActiveListing(t, project)[j];
              a.createdAt > b.createdAt || (a.createdAt == b.createdAt && Less(b.id, a.id))
  {
    NewerOrders(t, ActiveRows(t, project));
  }

  /** The lightweight projection of an active row. */
  datatype ActiveSession = ActiveSession(envelopeId: string, title: string, status: Status,
                                         executor: string, startedAt: Option<int>, createdAt: int)

  function Project(e: Envelope): ActiveSession {
    ActiveSession(e.id, e.title, e.status, e.targetExecutor, e.metrics.startedAt, e.createdAt)
  }

  function ProjectAll(rows: seq<Envelope>): (out: seq<ActiveSession>)
    ensures |out| == |rows| && forall i :: 0 <= i < |rows| ==> out[i] == Project(rows[i])
  {
    seq(|rows|, i requires 0 <= i < |rows| => Project(rows[i]))
  }

  /** What a project's listing shows: its delivered and in-progress rows, field by field. */
  lemma ActiveSessionsShowRows(t: Table, project: string)
    requires Keyed(t)
    ensures var out := ProjectAll(ActiveListing(t, project));
            && (forall s :: s in out ==>
                  && s.envelopeId in t && t[s.envelopeId].project == project
                  && t[s.envelopeId].status in {Status.Delivered, Status.InProgress}
                  && s == ActiveSession(s.envelopeId, t[s.envelopeId].title, t[s.envelopeId].status,
                                        t[s.envelopeId].targetExecutor, t[s.envelopeId].metrics.startedAt,
                                        t[s.envelopeId].createdAt))
            && (forall id | id in t && t[id].project == project
                            && t[id].status in {Status.Delivered, Status.InProgress} ::
                  exists s :: s in out && s.envelopeId == id)
            && forall i, j :: 0 <= i < j < |out| ==>
                 out[i].createdAt > out[j].createdAt
                 || (out[i].createdAt == out[j].createdAt && Less(out[j].envelopeId, out[i].envelopeId))
  {
    ActiveListingIsNewestFirst(t, project);
    var listing := ActiveListing(t, project);
    var out := ProjectAll(listing);
    forall s | s in out
      ensures s.envelopeId in t && t[s.envelopeId] in listing && s == Project(t[s.envelopeId])
    {
      var i :| 0 <= i < |out| && out[i] == s;
      assert listing[i] in listing;
    }
    forall id | id in t && t[id] in listing ensures exists s :: s in out && s.envelopeId == id {
      var i :| 0 <= i < |listing| && listing[i] == t[id];
      assert out[i] in out;
    }
  }

  function ThreadIds(thread: seq<Message>): (ids: seq<string>)
    ensures |ids| == |thread| && forall k :: 0 <= k < |thread| ==> ids[k] == thread[k].id
  {
    seq(|thread|, k requires 0 <= k < |thread| => thread[k].id)
  }

  /** `ORDER BY project, created_at DESC, id DESC`. */
  predicate ByProject(a: Envelope, b: Envelope) {
    Less(a.project, b.project) || (a.project == b.project && Newer(a, b))
  }

  lemma ByProjectOrders(t: Table, rows: set<Envelope>)
    requires Keyed(t) && rows <= t.Values
    ensures Orders(ByProject, rows)
  {
    NewerOrders(t, rows);
    forall a | a in rows ensures !ByProject(a, a) { LessIsIrreflexive(a.project); }
    forall a, b | a in rows && b in rows && a != b ensures ByProject(a, b) || ByProject(b, a) {
      LessIsTotal(a.project, b.project);
    }
    forall a, b, c | a in rows && b in rows && c in rows && ByProject(a, b) && ByProject(b, c) ensures ByProject(a, c) {
      if Less(a.project, b.project) && Less(b.project, c.project) { LessIsTransitive(a.project, b.project, c.project); }
    }
  }

  function OfProject(rows: seq<Envelope>, project: string): seq<Envelope> {
    if rows == [] then []
    else
      var e := rows[|rows| - 1];
      OfProject(rows[..|rows| - 1], project) + if e.project == project then [e] else []
  }

  lemma {:induction false} GroupHolds(rows: seq<Envelope>, project: string, e: Envelope)
    ensures e in OfProject(rows, project) <==> e in rows && e.project == project
  {
    if rows == [] {
    } else {
      GroupHolds(rows[..|rows| - 1], project, e);
      assert rows == rows[..|rows| - 1] + [rows[|rows| - 1]];
    }
  }

  ghost predicate NewestFirst(rows: seq<Envelope>) {
    forall i, j :: 0 <= i < j < |rows| ==> Newer(rows[i], rows[j])
  }

  lemma AppendOldest(rows: seq<Envelope>, last: Envelope)
    requires NewestFirst(rows) && forall e :: e in rows ==> Newer(e, last)
    ensures NewestFirst(rows + [last])
  {
    var all := rows + [last];
    forall i, j | 0 <= i < j < |all| ensures Newer(all[i], all[j]) {
      assert all[i] == rows[i] && rows[i] in rows;
      if j < |rows| { assert all[j] == rows[j]; }
    }
  }

  lemma {:induction false} GroupIsSorted(rows: seq<Envelope>, project: string)
    requires forall i, j :: 0 <= i < j < |rows| ==> ByProject(rows[i], rows[j])
    ensures NewestFirst(OfProject(rows, project))
  {
    if rows == [] {
    } else {
      var init, last := rows[..|rows| - 1], rows[|rows| - 1];
      GroupIsSorted(init, project);
      if last.project == project {
        forall e | e in OfProject(init, project) ensures Newer(e, last) {
          GroupHolds(init, project, e);
          var k :| 0 <= k < |init| && init[k] == e;
          assert ByProject(rows[k], last);
          LessIsIrreflexive(project);
        }
        AppendOldest(OfProject(init, project), last);
      } else {
        assert OfProject(rows, project) == OfProject(init, project);
      }
    }
  }

  /** Grouping a globally sorted result sorts each group by the rest of the key. */
  lemma GroupArranges(rows: seq<Envelope>, project: string, chosen: set<Envelope>)
    requires forall i, j :: 0 <= i < j < |rows| ==> ByProject(rows[i], rows[j])
    requires forall e :: e in chosen <==> e in rows && e.project == project
    ensures IsArrangement(OfProject(rows, project), chosen, Newer)
  {
    GroupIsSorted(rows, project);
    forall e ensures e in OfProject(rows, project) <==> e in chosen {
      GroupHolds(rows, project, e);
    }
  }

  /** The projects' groups of one sorted result are the projects' own listings. */
  lemma GroupIsListing(t: Table, wanted: set<Envelope>, selected: seq<Envelope>, p: string)
    requires Keyed(t) && wanted <= t.Values && IsArrangement(selected, wanted, ByProject)
    requires forall e :: e in t.Values && e.project == p && IsActive(e.status) ==> e in wanted
    requires forall e :: e in wanted ==> IsActive(e.status)
    ensures OfProject(selected, p) == ActiveListing(t, p)
  {
    GroupArranges(selected, p, ActiveRows(t, p));
    NewerOrders(t, ActiveRows(t, p));
    ArrangementIsUnique(OfProject(selected, p), ActiveListing(t, p), ActiveRows(t, p), Newer);
  }

  /** Every requested project gets an entry; rows are appended to their project's. */
  method GroupByProject(selected: seq<Envelope>, projects: seq<string>)
    returns (result: map<string, seq<ActiveSession>>)
    requires forall e :: e in selected ==> e.project in projects
    ensures result.Keys == set p | p in projects
    ensures forall p :: p in projects ==> result[p] == ProjectAll(OfProject(selected, p))
  {
    result := map p | p in projects :: [];
    var i := 0;
    while i < |selected|
      invariant 0 <= i <= |selected|
      invariant result.Keys == set p | p in projects
      invariant forall p :: p in projects ==> result[p] == ProjectAll(OfProject(selected[..i], p))
    {
      var e := selected[i];
      assert selected[..i + 1][..i] == selected[..i];
      result := result[e.project := result[e.project] + [Project(e)]];
      i := i + 1;
    }
    assert selected[..i] == selected;
  }

  /** The scan of a result set into projections. */
  method ProjectRows(selected: seq<Envelope>) returns (out: seq<ActiveSession>)
    ensures out == ProjectAll(selected)
  {
    out := [];
    for i := 0 to |selected|
      invariant out == ProjectAll(selected[..i])
    {
      assert selected[..i + 1] == selected[..i] + [selected[i]];
      out := out + [Project(selected[i])];
    }
    assert selected[..|selected|] == selected;
  }

  /** Incoming proof entries are written over the stored ones, key by key. */
  method MergeProof(e0: Envelope, proof: map<string, string>) returns (e: Envelope)
    ensures e == e0.(proof := e0.proof + proof)
  {
    e := e0;
    var left := proof.Keys;
    while left != {}
      invariant left <= proof.Keys
      invariant e == e0.(proof := e0.proof + (proof - left))
    {
      var k :| k in left;
      e := e.(proof := e.proof[k := proof[k]]);
      left := left - {k};
      assert e.proof == e0.proof + (proof - left);
    }
    assert proof - left == proof;
  }

  /** The mutations of `applyTransitionSideEffects`, one field at a time. */
  method ApplyTransitionSideEffects(e0: Envelope, next: Status, now: int, note: string) returns (e: Envelope)
    ensures e == Transitioned(e0, next, map[], note, now)
  {
    e := e0;
    var from := e.status;
    e := e.(status := next);
    e := e.(metrics := e.metrics.(updatedAt := Some(now)));
    if from != next {
      e := e.(history := e.history + [Change(now, from, next, note)]);
    }
    if next.IsTerminal() && e.metrics.completedAt == None {
      e := e.(metrics := e.metrics.(completedAt := Some(now)));
    }
    if next == Status.Read && !e.delivery.read {
      e := e.(delivery := e.delivery.(read := true, readAt := Some(now)));
    }
    assert e0.proof + map[] == e0.proof;
  }

  lemma FirstIsHead(rows: set<Envelope>, less: (Envelope, Envelope) -> bool, m: Envelope)
    requires Orders(less, rows) && IsFirst(less, rows, m)
    ensures Arrange(rows, less) != [] && Arrange(rows, less)[0] == m
  {
    var out := Arrange(rows, less);
    assert m in out;
    assert out[0] in rows;
  }

  class Store {
    var rows: Table

    ghost predicate Valid()
      reads this
    {
      Keyed(rows)
    }

    constructor ()
      ensures Valid() && rows == map[]
    {
      rows := map[];
    }

    method Insert(e: Envelope) returns (r: Result<(), StoreError>)
      requires Valid()
      modifies this
      ensures Valid() && rows == After(old(rows), Op.Insert(e))
      ensures match Refusal(old(rows), Op.Insert(e)) case None => r.Ok? case Some(err) => r == Err(err)
      ensures r.Ok? <==> e.id !in old(rows) && "" !in {e.id, e.title, e.taskTitle, e.targetExecutor} && !e.status.Other?
      ensures r.Err? ==> r.error == (if e.Validates() then Duplicate else Invalid)
      ensures rows == if r.Ok? then old(rows)[e.id := e] else old(rows)
    {
      if !e.Validates() { return Err(Invalid); }
      if e.id in rows { return Err(Duplicate); }
      rows := rows[e.id := e];
      return Ok(());
    }

    /** The oldest created envelope, by one scan of the table. */
    method NextCreated() returns (next: Option<Envelope>)
      requires Valid()
      ensures next == if Queue(rows) == [] then None else Some(Queue(rows)[0])
      ensures next.None? <==> forall e :: e in rows.Values ==> e.status != Status.Created
      ensures next.Some? ==> next.value in rows.Values && next.value.status == Status.Created
      ensures next.Some? ==> forall e :: e in rows.Values && e.status == Status.Created && e != next.value ==>
                next.value.createdAt < e.createdAt
                || (next.value.createdAt == e.createdAt && Less(next.value.id, e.id))
    {
      next := None;
      var left := rows.Values;
      NewerOrders(rows, CreatedRows(rows));
      while left != {}
        invariant left <= rows.Values
        invariant next.None? ==> forall e :: e in rows.Values - left ==> !e.status.Created?
        invariant next.Some? ==> IsFirst(Older, CreatedRows(rows) * (rows.Values - left), next.value)
      {
        ghost var seen := CreatedRows(rows) * (rows.Values - left);
        var e :| e in left;
        left := left - {e};
        if e.status.Created? {
          assert CreatedRows(rows) * (rows.Values - left) == seen + {e};
          if next.None? || Newer(next.value, e) {
            next := Some(e);
          }
        } else {
          assert CreatedRows(rows) * (rows.Values - left) == seen;
        }
      }
      assert CreatedRows(rows) * (rows.Values - left) == CreatedRows(rows);
      if next.Some? {
        forall e | e in rows.Values && e.status == Status.Created && e != next.value ensures Older(next.value, e) {
          assert e in CreatedRows(rows);
        }
        FirstIsHead(CreatedRows(rows), Older, next.value);
      } else {
        assert forall e :: e in Queue(rows) ==> e in CreatedRows(rows);
      }
    }

    method List(statuses: set<Status>) returns (out: seq<Envelope>)
      requires Valid()
      ensures out == Listing(rows, statuses)
      ensures forall e :: e in out <==> e in rows.Values && (statuses == {} || e.status in statuses)
      ensures forall i, j :: 0 <= i < j < |out| ==>
                out[i].createdAt > out[j].createdAt
                || (out[i].createdAt == out[j].createdAt && Less(out[j].id, out[i].id))
    {
      NewerOrders(rows, SelectedRows(rows, statuses));
      out := Select(SelectedRows(rows, statuses), Newer);
      ListingIsNewestFirst(rows, statuses);
    }

    method ListActiveSessions(project: string) returns (out: seq<ActiveSession>)
      requires Valid()
      ensures out == ProjectAll(ActiveListing(rows, project))
    {
      NewerOrders(rows, ActiveRows(rows, project));
      var selected := Select(ActiveRows(rows, project), Newer);
      out := ProjectRows(selected);
    }

    /** One query over all projects, then one pass that groups the rows. */
    method ListActiveSessionsForProjects(projects: seq<string>) returns (result: map<string, seq<ActiveSession>>)
      requires Valid()
      ensures result.Keys == set p | p in projects
      ensures forall p :: p in projects ==> result[p] == ProjectAll(ActiveListing(rows, p))
    {
      var wanted := set e | e in rows.Values && e.project in projects && IsActive(e.status);
      ByProjectOrders(rows, wanted);
      var selected := Select(wanted, ByProject);
      assert forall e :: e in selected ==> e in wanted;
      result := GroupByProject(selected, projects);
      forall p | p in projects ensures result[p] == ProjectAll(ActiveListing(rows, p)) {
        GroupIsListing(rows, wanted, selected, p);
      }
    }

    method MarkDelivered(id: string, binding: string, at: int) returns (r: Result<(), StoreError>)
      requires Valid()
      modifies this
      ensures Valid() && rows == After(old(rows), Op.MarkDelivered(id, binding, at))
      ensures match Refusal(old(rows), Op.MarkDelivered(id, binding, at))
              case None => r.Ok? case Some(err) => r == Err(err)
      ensures if id in old(rows) && old(rows)[id].status == Status.Created then
                r == Ok(()) && rows == old(rows)[id := old(rows)[id].(
                  status := Status.Delivered, sessionBinding := Some(binding),
                  delivery := Delivery.Delivery(delivered := true, deliveredAt := Some(at),
                                                read := false, readAt := None))]
              else r == Err(NotFound) && rows == old(rows)
    {
      if id !in rows || rows[id].status != Status.Created { return Err(NotFound); }
      var e := rows[id];
      e := e.(status := Status.Delivered);
      e := e.(delivery := Delivery.Delivery(true, Some(at), false, None));
      e := e.(sessionBinding := Some(binding));
      rows := rows[id := e];
      return Ok(());
    }

    method SetExecutorSessionId(id: string, session: string) returns (r: Result<(), StoreError>)
      requires Valid()
      modifies this
      ensures Valid() && rows == After(old(rows), SetExecutorSession(id, session))
      ensures match Refusal(old(rows), SetExecutorSession(id, session))
              case None => r.Ok? case Some(err) => r == Err(err)
      ensures if id !in old(rows) then r == Err(NotFound) && rows == old(rows)
              else if old(rows)[id].status in {Status.Done, Status.Failed, Status.Lost} then
                r == Err(TerminalEnvelope) && rows == old(rows)
              else r == Ok(()) && rows == old(rows)[id := old(rows)[id].(executorSessionId := session)]
    {
      var affected := 0;
      if id in rows && !rows[id].status.IsTerminal() {
        rows := rows[id := rows[id].(executorSessionId := session)];
        affected := 1;
      }
      if affected == 0 {
        if id !in rows { return Err(NotFound); }
        return Err(TerminalEnvelope);
      }
      return Ok(());
    }

    /** Merge the proof, check the transition, apply the side effects, commit. */
    method UpdateStatus(id: string, next: Status, proof: map<string, string>, note: string, now: int)
      returns (r: Result<Envelope, StoreError>)
      requires Valid()
      modifies this
      ensures Valid() && rows == After(old(rows), Op.UpdateStatus(id, next, proof, note, now))
      ensures match Refusal(old(rows), Op.UpdateStatus(id, next, proof, note, now))
              case None => r == Ok(rows[id]) && id in rows
              case Some(err) => r == Err(err)
      ensures r.Ok? <==>
                && id in old(rows) && old(rows)[id].status !in {Status.Done, Status.Failed, Status.Lost}
                && !next.Other?
                && (next == Status.Done ==>
                      var merged := old(rows)[id].proof + proof;
                      (forall k :: k in old(rows)[id].proofRequired ==> k in merged)
                      && forall k :: k in merged ==> merged[k] != "")
      ensures r.Err? ==> rows == old(rows) && (r.error == NotFound <==> id !in old(rows))
      ensures r.Ok? ==> rows == old(rows)[id := r.value]
      ensures r.Ok? ==>
                var was, row := old(rows)[id], r.value;
                && row == was.(status := next, proof := was.proof + proof, metrics := row.metrics,
                               delivery := row.delivery, history := row.history)
                && row.metrics == was.metrics.(updatedAt := Some(now), completedAt := row.metrics.completedAt)
                && row.metrics.completedAt == (
                     if was.metrics.completedAt.None? && next in {Status.Done, Status.Failed, Status.Lost}
                     then Some(now) else was.metrics.completedAt)
                && row.delivery == (if next == Status.Read && !was.delivery.read
                                     then was.delivery.(read := true, readAt := Some(now)) else was.delivery)
                && row.history == was.history + (if was.status == next then []
                                                  else [Change(now, was.status, next, note)])
    {
      if id !in rows { return Err(NotFound); }
      var e := MergeProof(rows[id], proof);
      var refused := e.CanTransition(next);
      if refused.Some? { return Err(Rejected(refused.value)); }
      assert e.proof + map[] == e.proof;
      e := ApplyTransitionSideEffects(e, next, now, note);
      rows := rows[id := e];
      return Ok(e);
    }

    method AddHistory(id: string, entry: string) returns (r: Result<Envelope, StoreError>)
      requires Valid()
      modifies this
      ensures Valid() && rows == After(old(rows), Op.AddHistory(id, entry))
      ensures if id in old(rows) then id in rows && r == Ok(rows[id]) else r == Err(NotFound)
      ensures rows == if id !in old(rows) then old(rows)
                      else old(rows)[id := old(rows)[id].(history := old(rows)[id].history + [Note(entry)])]
    {
      if id !in rows { return Err(NotFound); }
      var e := rows[id];
      e := e.(history := e.history + [Note(entry)]);
      rows := rows[id := e];
      return Ok(e);
    }

    method AppendMessage(id: string, message: Message) returns (r: Result<(), StoreError>)
      requires Valid()
      modifies this
      ensures Valid() && rows == After(old(rows), Op.AppendMessage(id, message))
      ensures if id in old(rows) then r.Ok? else r == Err(NotFound)
      ensures rows == if id !in old(rows) then old(rows)
                      else old(rows)[id := old(rows)[id].(thread := old(rows)[id].thread + [message])]
    {
      if id !in rows { return Err(NotFound); }
      var messages := rows[id].thread;
      messages := messages + [message];
      rows := rows[id := rows[id].(thread := messages)];
      return Ok(());
    }

    method GetThread(id: string, since: string) returns (r: Result<seq<Message>, StoreError>)
      requires Valid()
      ensures id !in rows ==> r == Err(NotFound)
      ensures id in rows ==> r == Ok(rows[id].thread[Cut(ThreadIds(rows[id].thread), since)..])
    {
      if id !in rows { return Err(NotFound); }
      var thread := rows[id].thread;
      if since == "" { return Ok(thread); }
      var i := 0;
      while i < |thread|
        invariant 0 <= i <= |thread|
        invariant forall j :: 0 <= j < i ==> thread[j].id != since
      {
        if thread[i].id == since {
          CutIsFirst(ThreadIds(thread), since, i);
          return Ok(thread[i + 1..]);
        }
        i := i + 1;
      }
      assert thread[|thread|..] == [];
      return Ok([]);
    }
  }

  /** The worker's queue is the listing of `created` read backwards; in particular the
      next envelope it takes is the last one listed. */
  lemma QueueIsListingReversed(t: Table)
    requires Keyed(t)
    ensures |Queue(t)| == |Listing(t, {Status.Created})|
    ensures forall i :: 0 <= i < |Queue(t)| ==> Queue(t)[i] == Listing(t, {Status.Created})[|Queue(t)| - 1 - i]
  {
    var rows := CreatedRows(t);
    assert SelectedRows(t, {Status.Created}) == rows;
    NewerOrders(t, rows);
    var newest := Listing(t, {Status.Created});
    var reversed := seq(|newest|, i requires 0 <= i < |newest| => newest[|newest| - 1 - i]);
    ReversalArranges(newest, reversed, rows, Newer, Older);
    ArrangementIsUnique(reversed, Queue(t), rows, Older);
  }
}
