/** What snapshots and pruning do to the agent records, record by record. */
module AgentRecords {
  import opened Wrappers

  /** Times are counted from Go's zero time, so 0 is "not set". */
  datatype Agent = Agent(
    id: string, host: string, executor: string, state: string, parentId: string,
    startedAt: nat, lastSeenAt: nat, staleAt: nat, reportedBy: string)

  datatype Snapshot = Snapshot(host: string, takenAt: nat, agents: seq<Agent>)

  type Agents = map<string, Agent>

  function Stamp(snap: Snapshot, now: nat): Snapshot {
    if snap.takenAt == 0 then snap.(takenAt := now) else snap
  }

  function ExistingParentId(agents: Agents, id: string): string {
    if id in agents then agents[id].parentId else ""
  }

  /** A reported record with the snapshot's time and defaults, its parent as reported. */
  function Dress(a: Agent, snap: Snapshot): Agent {
    a.(lastSeenAt := snap.takenAt, staleAt := 0,
       host := if a.host == "" then snap.host else a.host,
       reportedBy := if a.reportedBy == "" then snap.host else a.reportedBy)
  }

  function Prepare(agents: Agents, a: Agent, snap: Snapshot): Agent {
    Dress(a, snap).(parentId := if a.parentId == "" then ExistingParentId(agents, a.id) else a.parentId)
  }

  /** The first `n` records of the snapshot put in, one after the other. */
  function Merge(agents: Agents, snap: Snapshot, n: nat): Agents
    requires n <= |snap.agents|
  {
    if n == 0 then agents
    else
      var before, a := Merge(agents, snap, n - 1), snap.agents[n - 1];
      if a.id == "" then before else before[a.id := Prepare(before, a, snap)]
  }

  function SnapshotIds(snap: Snapshot): set<string> {
    set a | a in snap.agents && a.id != "" :: a.id
  }

  predicate ShouldMarkStale(id: string, a: Agent, host: string, takenAt: nat, ids: set<string>) {
    a.host == host && a.staleAt == 0 && id !in ids && takenAt >= a.lastSeenAt
  }

  function MarkAbsent(agents: Agents, host: string, takenAt: nat, ids: set<string>): Agents {
    map id | id in agents ::
      if ShouldMarkStale(id, agents[id], host, takenAt, ids) then agents[id].(staleAt := takenAt) else agents[id]
  }

  function Applied(agents: Agents, snap: Snapshot): Agents {
    MarkAbsent(Merge(agents, snap, |snap.agents|), snap.host, snap.takenAt, SnapshotIds(snap))
  }

  /** Stale, or past the TTL. */
  predicate Hidden(a: Agent, ttl: nat, now: nat) {
    a.staleAt != 0 || a.lastSeenAt < now - ttl
  }

  function Pruned(agents: Agents, ttl: nat, now: nat): Agents {
    map id | id in agents && !Hidden(agents[id], ttl, now) :: agents[id]
  }

  /** A record without its parent edge. */
  function Bare(a: Agent): Agent {
    a.(parentId := "")
  }

  /** What `Recent` and `Get` show, parent edges aside. */
  function View(agents: Agents, ttl: nat, now: nat): map<string, Agent> {
    map id | id in agents && !Hidden(agents[id], ttl, now) :: Bare(agents[id])
  }

  // ----- records in closed form -----

  /** The last record the snapshot's first `n` entries hold for the id. */
  function Entry(snap: Snapshot, n: nat, id: string): Option<Agent>
    requires n <= |snap.agents|
  {
    if n == 0 || id == "" then None
    else if snap.agents[n - 1].id == id then Some(Dress(snap.agents[n - 1], snap))
    else Entry(snap, n - 1, id)
  }

  function Reported(snap: Snapshot, id: string): Option<Agent> {
    Entry(snap, |snap.agents|, id)
  }

  /** The last parent the entries name for the id, if any names one. */
  function NamedParent(snap: Snapshot, n: nat, id: string): string
    requires n <= |snap.agents|
  {
    if n == 0 then ""
    else if snap.agents[n - 1].id == id && snap.agents[n - 1].parentId != "" then snap.agents[n - 1].parentId
    else NamedParent(snap, n - 1, id)
  }

  lemma {:induction false} MergedRecord(agents: Agents, snap: Snapshot, n: nat, id: string)
    requires n <= |snap.agents|
    ensures var m := Merge(agents, snap, n);
            match Entry(snap, n, id)
            case None => (id in m <==> id in agents) && (id in m ==> m[id] == agents[id])
            case Some(e) =>
              && id in m && Bare(m[id]) == Bare(e)
              && m[id].parentId == if NamedParent(snap, n, id) != "" then NamedParent(snap, n, id)
                                   else ExistingParentId(agents, id)
    ensures Entry(snap, n, id).None? && id != "" ==> NamedParent(snap, n, id) == ""
  {
    if n == 0 {
    } else {
      MergedRecord(agents, snap, n - 1, id);
    }
  }

  lemma {:induction false} EntryIsDressed(snap: Snapshot, n: nat, id: string)
    requires n <= |snap.agents|
    ensures Entry(snap, n, id).Some? <==> exists k | 0 <= k < n :: snap.agents[k].id == id != ""
    ensures var e := Entry(snap, n, id);
            e.Some? ==> e.value.id == id && e.value.lastSeenAt == snap.takenAt && e.value.staleAt == 0
  {
    if n == 0 {
    } else {
      EntryIsDressed(snap, n - 1, id);
    }
  }

  /** Reported ids get the snapshot's record; other records of its host go stale unless newer. */
  lemma AppliedRecord(agents: Agents, snap: Snapshot, id: string)
    ensures var m := Applied(agents, snap);
            match Reported(snap, id)
            case None =>
              && (id in m <==> id in agents)
              && (id in m ==> m[id] == if ShouldMarkStale(id, agents[id], snap.host, snap.takenAt, {})
                                       then agents[id].(staleAt := snap.takenAt) else agents[id])
            case Some(e) =>
              var named := NamedParent(snap, |snap.agents|, id);
              && id in m && Bare(m[id]) == Bare(e)
              && m[id].parentId == if named != "" then named else ExistingParentId(agents, id)
  {
    MergedRecord(agents, snap, |snap.agents|, id);
    EntryIsDressed(snap, |snap.agents|, id);
  }

  lemma {:induction false} EntryIsLast(snap: Snapshot, n: nat, k: nat, id: string)
    requires k < n <= |snap.agents| && snap.agents[k].id == id != ""
    requires forall j | k < j < n :: snap.agents[j].id != id
    ensures Entry(snap, n, id) == Some(Dress(snap.agents[k], snap))
  {
    if k == n - 1 {
    } else {
      EntryIsLast(snap, n - 1, k, id);
    }
  }

  /** The last entry for an id is stored as reported, with the snapshot's time, and with the
      snapshot's host where it names none. */
  lemma LastEntryIsStored(agents: Agents, snap: Snapshot, k: nat, id: string)
    requires k < |snap.agents| && snap.agents[k].id == id != ""
    requires forall j | k < j < |snap.agents| :: snap.agents[j].id != id
    ensures var e, m := snap.agents[k], Applied(agents, snap);
            && id in m
            && m[id] == e.(lastSeenAt := snap.takenAt, staleAt := 0, parentId := m[id].parentId,
                           host := if e.host == "" then snap.host else e.host,
                           reportedBy := if e.reportedBy == "" then snap.host else e.reportedBy)
    ensures Reported(snap, id).Some? && Bare(Reported(snap, id).value) == Bare(Applied(agents, snap)[id])
  {
    AppliedRecord(agents, snap, id);
    EntryIsLast(snap, |snap.agents|, k, id);
  }

  lemma {:induction false} NamedIsLast(snap: Snapshot, n: nat, k: nat, id: string)
    requires k < n <= |snap.agents| && snap.agents[k].id == id && snap.agents[k].parentId != ""
    requires forall j | k < j < n && snap.agents[j].id == id :: snap.agents[j].parentId == ""
    ensures NamedParent(snap, n, id) == snap.agents[k].parentId
  {
    if k == n - 1 {
    } else {
      NamedIsLast(snap, n - 1, k, id);
    }
  }

  /** The last parent an entry names is stored. */
  lemma LastNamedParentIsStored(agents: Agents, snap: Snapshot, k: nat, id: string)
    requires k < |snap.agents| && snap.agents[k].id == id != "" && snap.agents[k].parentId != ""
    requires forall j | k < j < |snap.agents| && snap.agents[j].id == id :: snap.agents[j].parentId == ""
    ensures id in Applied(agents, snap) && Applied(agents, snap)[id].parentId == snap.agents[k].parentId
  {
    AppliedRecord(agents, snap, id);
    EntryIsDressed(snap, |snap.agents|, id);
    NamedIsLast(snap, |snap.agents|, k, id);
  }

  lemma {:induction false} NoneNamed(snap: Snapshot, n: nat, id: string)
    requires n <= |snap.agents| && forall j | 0 <= j < n && snap.agents[j].id == id :: snap.agents[j].parentId == ""
    ensures NamedParent(snap, n, id) == ""
  {
    if n == 0 {
    } else {
      NoneNamed(snap, n - 1, id);
    }
  }

  /** If no entry names a parent, the one known before stays. */
  lemma UnnamedParentStays(agents: Agents, snap: Snapshot, id: string)
    requires id in Applied(agents, snap)
    requires forall j | 0 <= j < |snap.agents| && snap.agents[j].id == id :: snap.agents[j].parentId == ""
    ensures Applied(agents, snap)[id].parentId == if id in agents then agents[id].parentId else ""
  {
    AppliedRecord(agents, snap, id);
    NoneNamed(snap, |snap.agents|, id);
  }

  /** An id without an entry: a record of the snapshot's host goes stale, unless it is stale
      already or was seen after the snapshot was taken; all other records stay. */
  lemma AbsentRecord(agents: Agents, snap: Snapshot, id: string)
    requires forall j | 0 <= j < |snap.agents| :: snap.agents[j].id != id
    ensures var m := Applied(agents, snap);
            && (id in m <==> id in agents)
            && (id in agents ==>
                  if agents[id].host == snap.host && agents[id].staleAt == 0 && agents[id].lastSeenAt <= snap.takenAt
                  then m[id] == agents[id].(staleAt := snap.takenAt) else m[id] == agents[id])
  {
    AppliedRecord(agents, snap, id);
    EntryIsDressed(snap, |snap.agents|, id);
  }

  // ----- pruning -----

  datatype Op = Apply(snap: Snapshot, now: nat) | Prune(now: nat)

  function After(agents: Agents, ttl: nat, op: Op): Agents {
    match op
    case Apply(snap, now) => Applied(agents, Stamp(snap, now))
    case Prune(now) => Pruned(agents, ttl, now)
  }

  function Run(agents: Agents, ttl: nat, ops: seq<Op>): Agents {
    if ops == [] then agents else After(Run(agents, ttl, ops[..|ops| - 1]), ttl, ops[|ops| - 1])
  }

  function Applies(ops: seq<Op>): seq<Op> {
    if ops == [] then []
    else if ops[|ops| - 1].Prune? then Applies(ops[..|ops| - 1])
    else Applies(ops[..|ops| - 1]) + [ops[|ops| - 1]]
  }

  /** The clock is set and never runs backwards, up to `now`. */
  predicate Timely(ops: seq<Op>, now: nat) {
    now > 0 && (ops == [] || (ops[|ops| - 1].now <= now && Timely(ops[..|ops| - 1], ops[|ops| - 1].now)))
  }

  /** The pruned store holds the same records, parents aside, but for some hidden ones. */
  ghost predicate Simulates(pruned: Agents, full: Agents, ttl: nat, now: nat) {
    && (forall id | id in pruned :: id in full && Bare(pruned[id]) == Bare(full[id]))
    && forall id | id in full && id !in pruned :: Hidden(full[id], ttl, now)
  }

  lemma ApplySimulates(pruned: Agents, full: Agents, ttl: nat, now: nat, snap: Snapshot)
    requires Simulates(pruned, full, ttl, now) && snap.takenAt > 0
    ensures Simulates(Applied(pruned, snap), Applied(full, snap), ttl, now)
  {
    forall id | id in Applied(full, snap) || id in Applied(pruned, snap)
      ensures id in Applied(full, snap)
      ensures id in Applied(pruned, snap) ==> Bare(Applied(pruned, snap)[id]) == Bare(Applied(full, snap)[id])
      ensures id !in Applied(pruned, snap) ==> Hidden(Applied(full, snap)[id], ttl, now)
    {
      AppliedRecord(pruned, snap, id);
      AppliedRecord(full, snap, id);
      if id in pruned { assert Bare(pruned[id]) == Bare(full[id]); }
    }
  }

  lemma {:induction false} RunSimulates(agents: Agents, ttl: nat, ops: seq<Op>, now: nat)
    requires Timely(ops, now)
    ensures Simulates(Run(agents, ttl, ops), Run(agents, ttl, Applies(ops)), ttl, now)
  {
    if ops == [] {
    } else {
      var init, op := ops[..|ops| - 1], ops[|ops| - 1];
      RunSimulates(agents, ttl, init, op.now);
      var pruned, full := Run(agents, ttl, init), Run(agents, ttl, Applies(init));
      if op.Apply? {
        ApplySimulates(pruned, full, ttl, op.now, Stamp(op.snap, op.now));
        assert (Applies(init) + [op])[..|Applies(init)|] == Applies(init);
      }
    }
  }

  /** Prunes at any moments show nowhere: with and without them, the views agree ever after. */
  lemma PruneIsUnobservable(agents: Agents, ttl: nat, ops: seq<Op>, now: nat)
    requires Timely(ops, now)
    ensures View(Run(agents, ttl, ops), ttl, now) == View(Run(agents, ttl, Applies(ops)), ttl, now)
  {
    RunSimulates(agents, ttl, ops, now);
    var pruned, full := Run(agents, ttl, ops), Run(agents, ttl, Applies(ops));
    forall id | id in full && !Hidden(full[id], ttl, now) ensures id in pruned && !Hidden(pruned[id], ttl, now) {
      assert Bare(pruned[id]) == Bare(full[id]);
    }
    forall id | id in pruned ensures Hidden(pruned[id], ttl, now) <==> Hidden(full[id], ttl, now) {
      assert Bare(pruned[id]) == Bare(full[id]);
    }
  }

  /** What `Recent` and `Get` show, parent edges included. */
  function FullView(agents: Agents, ttl: nat, now: nat): map<string, Agent> {
    map id | id in agents && !Hidden(agents[id], ttl, now) :: agents[id]
  }

  /** A prune removes the record, and with it a known parent. */
  predicate DropsParent(agents: Agents, ttl: nat, now: nat, id: string) {
    id in agents && Hidden(agents[id], ttl, now) && agents[id].parentId != ""
  }

  /** A prune has cost the id its known parent, and no snapshot since names one. */
  predicate Lost(agents: Agents, ttl: nat, ops: seq<Op>, id: string) {
    if ops == [] then false
    else
      var init, op := ops[..|ops| - 1], ops[|ops| - 1];
      match op
      case Prune(now) => Lost(agents, ttl, init, id) || DropsParent(Run(agents, ttl, init), ttl, now, id)
      case Apply(snap, _) => Lost(agents, ttl, init, id) && NamedParent(snap, |snap.agents|, id) == ""
  }

  /** The parents the two stores know: they differ exactly while the id's is lost. */
  predicate ParentsSound(pruned: Agents, full: Agents, lost: bool, id: string) {
    if lost then id in full && full[id].parentId != "" && (id in pruned ==> id != "" && pruned[id].parentId == "")
    else if id in pruned then id in full && full[id].parentId == pruned[id].parentId
    else id in full && id != "" ==> full[id].parentId == ""
  }

  lemma {:induction false} StampNames(snap: Snapshot, now: nat, n: nat, id: string)
    requires n <= |snap.agents|
    ensures NamedParent(Stamp(snap, now), n, id) == NamedParent(snap, n, id)
  {
    if n == 0 {
    } else {
      StampNames(snap, now, n - 1, id);
    }
  }

  lemma ApplyKeepsParents(pruned: Agents, full: Agents, lost: bool, snap: Snapshot, id: string)
    requires ParentsSound(pruned, full, lost, id)
    ensures ParentsSound(Applied(pruned, snap), Applied(full, snap),
                         lost && NamedParent(snap, |snap.agents|, id) == "", id)
  {
    AppliedRecord(pruned, snap, id);
    AppliedRecord(full, snap, id);
    MergedRecord(full, snap, |snap.agents|, id);
    EntryIsDressed(snap, |snap.agents|, id);
  }

  lemma PruneKeepsParents(pruned: Agents, full: Agents, ttl: nat, now: nat, lost: bool, id: string)
    requires ParentsSound(pruned, full, lost, id)
    ensures ParentsSound(Pruned(pruned, ttl, now), full, lost || DropsParent(pruned, ttl, now, id), id)
  {
  }

  lemma {:induction false} RunKeepsParents(agents: Agents, ttl: nat, ops: seq<Op>, id: string)
    ensures ParentsSound(Run(agents, ttl, ops), Run(agents, ttl, Applies(ops)), Lost(agents, ttl, ops, id), id)
  {
    if ops == [] {
    } else {
      var init, op := ops[..|ops| - 1], ops[|ops| - 1];
      RunKeepsParents(agents, ttl, init, id);
      var pruned, full, lost := Run(agents, ttl, init), Run(agents, ttl, Applies(init)), Lost(agents, ttl, init, id);
      match op
      case Prune(now) => PruneKeepsParents(pruned, full, ttl, now, lost, id);
      case Apply(snap, now) =>
        ApplyKeepsParents(pruned, full, lost, Stamp(snap, now), id);
        StampNames(snap, now, |snap.agents|, id);
        assert (Applies(init) + [op])[..|Applies(init)|] == Applies(init);
    }
  }

  /** With parent edges, prunes at any moments show exactly while some agent that shows has
      lost its parent to one of them. */
  lemma PruneForgetsParentsExactly(agents: Agents, ttl: nat, ops: seq<Op>, now: nat)
    requires Timely(ops, now)
    ensures var pruned, full := Run(agents, ttl, ops), Run(agents, ttl, Applies(ops));
            FullView(pruned, ttl, now) == FullView(full, ttl, now)
            <==> forall id | id in View(pruned, ttl, now) :: !Lost(agents, ttl, ops, id)
  {
    PruneIsUnobservable(agents, ttl, ops, now);
    var pruned, full := Run(agents, ttl, ops), Run(agents, ttl, Applies(ops));
    var a, b := FullView(pruned, ttl, now), FullView(full, ttl, now);
    assert a.Keys == View(pruned, ttl, now).Keys && b.Keys == View(full, ttl, now).Keys;
    forall id | id in a ensures a[id] == b[id] <==> !Lost(agents, ttl, ops, id) {
      assert View(pruned, ttl, now)[id] == View(full, ttl, now)[id];
      RunKeepsParents(agents, ttl, ops, id);
    }
  }

  /** A known parent edge survives a run that names no other, hidden or not, exactly unless a
      prune removes its record; a lost one does not come back by itself. */
  lemma {:induction false} ParentSurvives(agents: Agents, ttl: nat, ops: seq<Op>, id: string)
    requires id in agents && agents[id].parentId != ""
    requires forall op | op in ops && op.Apply? :: NamedParent(op.snap, |op.snap.agents|, id) == ""
    ensures var t := Run(agents, ttl, ops);
            if Lost(agents, ttl, ops, id) then id in t ==> t[id].parentId == ""
            else id in t && t[id].parentId == agents[id].parentId
  {
    if ops == [] {
    } else {
      var init, op := ops[..|ops| - 1], ops[|ops| - 1];
      ParentSurvives(agents, ttl, init, id);
      if op.Apply? {
        AppliedRecord(Run(agents, ttl, init), Stamp(op.snap, op.now), id);
        StampNames(op.snap, op.now, |op.snap.agents|, id);
      }
    }
  }
}
