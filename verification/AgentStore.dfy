/** The in-memory agent store: snapshots are merged and pruned in place. */
module AgentStore {
  import opened Wrappers
  import opened Ordering
  import opened AgentRecords

  const DEFAULT_TTL := 300

  datatype StoreError = NotFound

  function StateRank(state: string): nat {
    match state
    case "active" => 0
    case "idle" => 1
    case "exited" => 2
    case _ => 3
  }

  /** The comparison `Recent` sorts by; agents may tie. */
  predicate Before(a: Agent, b: Agent) {
    if a.host != b.host then Less(a.host, b.host)
    else if StateRank(a.state) != StateRank(b.state) then StateRank(a.state) < StateRank(b.state)
    else a.startedAt > b.startedAt
  }

  ghost predicate Sorted(out: seq<Agent>) {
    forall i, j | 0 <= i < j < |out| :: !Before(out[j], out[i])
  }

  lemma BeforeIsTransitive(a: Agent, b: Agent, c: Agent)
    requires !Before(b, a) && !Before(c, b)
    ensures !Before(c, a)
  {
    LessIsTotal(a.host, b.host);
    LessIsTotal(b.host, c.host);
    LessIsTotal(a.host, c.host);
    LessIsIrreflexive(a.host);
    LessIsIrreflexive(b.host);
    if Less(c.host, a.host) && Less(a.host, b.host) { LessIsTransitive(c.host, a.host, b.host); }
    if Less(b.host, c.host) && Less(c.host, a.host) { LessIsTransitive(b.host, c.host, a.host); }
    if Less(c.host, a.host) && Less(a.host, c.host) { LessIsTransitive(c.host, a.host, c.host); }
    if Less(a.host, b.host) && Less(b.host, a.host) { LessIsTransitive(a.host, b.host, a.host); }
    if Less(b.host, c.host) && Less(c.host, b.host) { LessIsTransitive(b.host, c.host, b.host); }
  }

  lemma BeforeIsAsymmetric(a: Agent, b: Agent)
    requires Before(a, b)
    ensures !Before(b, a)
  {
    LessIsIrreflexive(a.host);
    if Less(a.host, b.host) && Less(b.host, a.host) { LessIsTransitive(a.host, b.host, a.host); }
  }

  lemma InsertKeepsSorted(out: seq<Agent>, k: nat, a: Agent)
    requires Sorted(out) && k <= |out|
    requires k > 0 ==> !Before(a, out[k - 1])
    requires k < |out| ==> Before(a, out[k])
    ensures Sorted(out[..k] + [a] + out[k..])
  {
    var next := out[..k] + [a] + out[k..];
    forall i, j | 0 <= i < j < |next| ensures !Before(next[j], next[i]) {
      if j == k {
        if i < k - 1 { BeforeIsTransitive(out[i], out[k - 1], a); }
      } else if i == k {
        BeforeIsAsymmetric(a, out[k]);
        if j - 1 > k { BeforeIsTransitive(a, out[k], out[j - 1]); }
      } else {
        var x, y := if i < k then i else i - 1, if j < k then j else j - 1;
        assert next[i] == out[x] && next[j] == out[y];
      }
    }
  }

  lemma InsertKeepsAll(out: seq<Agent>, k: nat, a: Agent)
    requires k <= |out|
    ensures multiset(out[..k] + [a] + out[k..]) == multiset(out) + multiset{a}
  {
    assert out == out[..k] + out[k..];
  }

  /** The agents `Recent` may show. */
  function Shown(agents: Agents, ttl: nat, now: nat): set<Agent> {
    set id | id in agents && !Hidden(agents[id], ttl, now) :: agents[id]
  }

  /** The sort order in raw terms: by host, then active, idle, exited and all other states, then
      the latest start first. */
  lemma RecentIsSorted(out: seq<Agent>, shown: set<Agent>)
    requires multiset(out) == multiset(shown) && Sorted(out)
    ensures forall a :: a in out <==> a in shown
    ensures forall i, j | 0 <= i < j < |out| :: out[i] != out[j]
    ensures forall i, j | 0 <= i < j < |out| :: out[i].host == out[j].host || Less(out[i].host, out[j].host)
    ensures forall i, j | 0 <= i < j < |out| && out[i].host == out[j].host ::
              && (out[j].state == "active" ==> out[i].state == "active")
              && (out[j].state == "idle" ==> out[i].state in {"active", "idle"})
              && (out[j].state == "exited" ==> out[i].state in {"active", "idle", "exited"})
              && (out[i].state == out[j].state || {out[i].state, out[j].state} !! {"active", "idle", "exited"} ==>
                    out[i].startedAt >= out[j].startedAt)
  {
    forall a ensures a in out <==> a in shown {
      assert a in out <==> a in multiset(out);
    }
    forall i, j | 0 <= i < j < |out| ensures out[i] != out[j] {
      assert out == out[..j] + [out[j]] + out[j + 1..];
      assert out[i] in out[..j] && multiset(out[..j])[out[i]] >= 1;
      assert multiset(out) == multiset(out[..j]) + multiset{out[j]} + multiset(out[j + 1..]);
      assert multiset(shown)[out[j]] <= 1;
    }
    forall i, j | 0 <= i < j < |out| ensures out[i].host == out[j].host || Less(out[i].host, out[j].host) {
      assert !Before(out[j], out[i]);
      LessIsTotal(out[i].host, out[j].host);
    }
  }

  /** A merged record is the entry with the snapshot's time and defaults; one without a parent
      takes that of the id's previous record. */
  lemma PreparedShowsEntry(agents: Agents, e: Agent, snap: Snapshot)
    ensures Prepare(agents, e, snap) == e.(
              lastSeenAt := snap.takenAt, staleAt := 0,
              host := if e.host == "" then snap.host else e.host,
              reportedBy := if e.reportedBy == "" then snap.host else e.reportedBy,
              parentId := if e.parentId == "" && e.id in agents then agents[e.id].parentId else e.parentId)
  {
  }

  /** The merged records `Apply` returns for fan-out, in snapshot order. */
  function FanOut(agents: Agents, snap: Snapshot, n: nat): seq<Agent>
    requires n <= |snap.agents|
  {
    if n == 0 then []
    else if snap.agents[n - 1].id == "" then FanOut(agents, snap, n - 1)
    else FanOut(agents, snap, n - 1) + [Prepare(Merge(agents, snap, n - 1), snap.agents[n - 1], snap)]
  }

  /** Every entry with an id has its merged record, behind those of the entries before it. */
  lemma {:induction false} FanOutHolds(agents: Agents, snap: Snapshot, n: nat, k: nat)
    requires k < n <= |snap.agents| && snap.agents[k].id != ""
    ensures var at := |FanOut(agents, snap, k)|;
            at < |FanOut(agents, snap, n)|
            && FanOut(agents, snap, n)[at] == Prepare(Merge(agents, snap, k), snap.agents[k], snap)
  {
    if k == n - 1 {
    } else {
      FanOutHolds(agents, snap, n - 1, k);
    }
  }

  function CountEntries(snap: Snapshot, n: nat): nat
    requires n <= |snap.agents|
  {
    if n == 0 then 0 else CountEntries(snap, n - 1) + if snap.agents[n - 1].id == "" then 0 else 1
  }

  lemma {:induction false} EntriesAreCounted(snap: Snapshot, n: nat)
    requires n <= |snap.agents|
    ensures CountEntries(snap, n) == |set k | 0 <= k < n && snap.agents[k].id != ""|
  {
    var now := set k | 0 <= k < n && snap.agents[k].id != "";
    if n == 0 {
      assert now == {};
    } else {
      EntriesAreCounted(snap, n - 1);
      var before := set k | 0 <= k < n - 1 && snap.agents[k].id != "";
      if snap.agents[n - 1].id == "" {
        assert now == before;
      } else {
        assert now == before + {n - 1};
      }
    }
  }

  lemma {:induction false} FanOutLength(agents: Agents, snap: Snapshot, n: nat)
    requires n <= |snap.agents|
    ensures |FanOut(agents, snap, n)| == CountEntries(snap, n)
  {
    if n == 0 {
    } else {
      FanOutLength(agents, snap, n - 1);
    }
  }

  /** And there is no other. */
  lemma FanOutCounts(agents: Agents, snap: Snapshot, n: nat)
    requires n <= |snap.agents|
    ensures |FanOut(agents, snap, n)| == |set k | 0 <= k < n && snap.agents[k].id != ""|
  {
    FanOutLength(agents, snap, n);
    EntriesAreCounted(snap, n);
  }

  class Store {
    const ttl: nat
    var agents: Agents

    /** Records are stored under their own, non-empty id. */
    ghost predicate Valid()
      reads this
    {
      forall id :: id in agents ==> agents[id].id == id != ""
    }

    constructor (seconds: int)
      ensures Valid() && agents == map[] && ttl == if seconds <= 0 then 5 * 60 else seconds
    {
      ttl := if seconds <= 0 then DEFAULT_TTL else seconds;
      agents := map[];
    }

    method Apply(reported: Snapshot, now: nat) returns (applied: seq<Agent>)
      requires Valid()
      modifies this
      ensures Valid() && agents == Applied(old(agents), Stamp(reported, now))
      ensures applied == FanOut(old(agents), Stamp(reported, now), |reported.agents|)
    {
      var snap := reported;
      if snap.takenAt == 0 { snap := snap.(takenAt := now); }
      var snapIds := SnapshotAgentIds(snap);
      applied := [];
      for i := 0 to |snap.agents|
        invariant Valid() && agents == Merge(old(agents), snap, i)
        invariant applied == FanOut(old(agents), snap, i)
      {
        var a := snap.agents[i];
        if a.id == "" { continue; }
        var agent := PrepareSnapshotAgent(a, snap);
        agents := agents[agent.id := agent];
        applied := applied + [agent];
      }
      MarkAbsentAgentsStale(snap.host, snap.takenAt, snapIds);
    }

    method SnapshotAgentIds(snap: Snapshot) returns (ids: set<string>)
      ensures ids == SnapshotIds(snap)
    {
      ids := {};
      for i := 0 to |snap.agents|
        invariant ids == set a | a in snap.agents[..i] && a.id != "" :: a.id
      {
        assert snap.agents[..i + 1] == snap.agents[..i] + [snap.agents[i]];
        if snap.agents[i].id != "" { ids := ids + {snap.agents[i].id}; }
      }
      assert snap.agents[..|snap.agents|] == snap.agents;
    }

    method PrepareSnapshotAgent(reported: Agent, snap: Snapshot) returns (a: Agent)
      ensures a == Prepare(agents, reported, snap)
    {
      a := reported.(lastSeenAt := snap.takenAt, staleAt := 0);
      if a.host == "" { a := a.(host := snap.host); }
      if a.reportedBy == "" { a := a.(reportedBy := snap.host); }
      if a.parentId == "" { a := a.(parentId := ExistingParentId(agents, a.id)); }
    }

    method MarkAbsentAgentsStale(host: string, takenAt: nat, ids: set<string>)
      requires Valid()
      modifies this
      ensures Valid() && agents == MarkAbsent(old(agents), host, takenAt, ids)
      ensures agents.Keys == old(agents).Keys
      ensures forall id | id in agents ::
                agents[id] == if && id !in ids && old(agents)[id].host == host && old(agents)[id].staleAt == 0
                                 && old(agents)[id].lastSeenAt <= takenAt
                              then old(agents)[id].(staleAt := takenAt) else old(agents)[id]
    {
      var left := agents.Keys;
      ghost var marked := MarkAbsent(agents, host, takenAt, ids);
      while left != {}
        invariant left <= agents.Keys == old(agents).Keys
        invariant forall id :: id in agents ==> agents[id] == if id in left then old(agents)[id] else marked[id]
      {
        var id :| id in left;
        left := left - {id};
        if !ShouldMarkStale(id, agents[id], host, takenAt, ids) { continue; }
        agents := agents[id := agents[id].(staleAt := takenAt)];
      }
    }

    /** Every shown agent once, sorted; how ties fall is up to the sort. */
    method Recent(now: nat) returns (out: seq<Agent>)
      requires Valid()
      ensures multiset(out) == multiset(Shown(agents, ttl, now)) && Sorted(out)
      ensures forall a :: a in out <==>
                a.id in agents && agents[a.id] == a && a.staleAt == 0 && a.lastSeenAt >= now - ttl
      ensures forall i, j | 0 <= i < j < |out| :: out[i] != out[j]
      ensures forall i, j | 0 <= i < j < |out| :: out[i].host == out[j].host || Less(out[i].host, out[j].host)
      ensures forall i, j | 0 <= i < j < |out| && out[i].host == out[j].host ::
                && (out[j].state == "active" ==> out[i].state == "active")
                && (out[j].state == "idle" ==> out[i].state in {"active", "idle"})
                && (out[j].state == "exited" ==> out[i].state in {"active", "idle", "exited"})
                && (out[i].state == out[j].state || {out[i].state, out[j].state} !! {"active", "idle", "exited"} ==>
                      out[i].startedAt >= out[j].startedAt)
    {
      out := [];
      var left := agents.Keys;
      ghost var shown: set<Agent> := {};
      while left != {}
        invariant left <= agents.Keys
        invariant shown == set id | id in agents.Keys - left && !Hidden(agents[id], ttl, now) :: agents[id]
        invariant multiset(out) == multiset(shown) && Sorted(out)
      {
        var id :| id in left;
        left := left - {id};
        var a := agents[id];
        if a.staleAt != 0 || a.lastSeenAt < now - ttl { continue; }
        assert a !in shown;
        shown := shown + {a};
        out := InsertSorted(out, a);
      }
      assert agents.Keys - left == agents.Keys;
      RecentIsSorted(out, Shown(agents, ttl, now));
    }

    method InsertSorted(out: seq<Agent>, a: Agent) returns (next: seq<Agent>)
      requires Sorted(out)
      ensures Sorted(next) && multiset(next) == multiset(out) + multiset{a}
    {
      var k := 0;
      while k < |out| && !Before(a, out[k])
        invariant 0 <= k <= |out| && (k > 0 ==> !Before(a, out[k - 1]))
      {
        k := k + 1;
      }
      InsertKeepsSorted(out, k, a);
      InsertKeepsAll(out, k, a);
      next := out[..k] + [a] + out[k..];
    }

    method Get(id: string, now: nat) returns (r: Result<Agent, StoreError>)
      requires Valid()
      ensures r == if id in FullView(agents, ttl, now) then Ok(FullView(agents, ttl, now)[id]) else Err(NotFound)
      ensures r == if id in agents && agents[id].staleAt == 0 && agents[id].lastSeenAt >= now - ttl
                   then Ok(agents[id]) else Err(NotFound)
    {
      if id !in agents || agents[id].staleAt != 0 || agents[id].lastSeenAt < now - ttl { return Err(NotFound); }
      return Ok(agents[id]);
    }

    method Prune(now: nat) returns (n: nat)
      requires Valid()
      modifies this
      ensures Valid() && agents == Pruned(old(agents), ttl, now)
      ensures agents == map id | id in old(agents) && old(agents)[id].staleAt == 0
                                 && old(agents)[id].lastSeenAt >= now - ttl :: old(agents)[id]
      ensures n == |old(agents)| - |agents|
    {
      n := 0;
      var left := agents.Keys;
      while left != {}
        invariant left <= agents.Keys <= old(agents).Keys
        invariant forall id :: id in agents ==> agents[id] == old(agents)[id]
        invariant forall id :: id in old(agents) ==>
          (id in agents <==> id in left || !Hidden(old(agents)[id], ttl, now))
        invariant |agents| + n == |old(agents)|
      {
        var id :| id in left;
        left := left - {id};
        if agents[id].staleAt != 0 || agents[id].lastSeenAt < now - ttl {
          assert agents.Keys == (agents - {id}).Keys + {id};
          assert |agents.Keys| == |(agents - {id}).Keys| + 1;
          agents := agents - {id};
          n := n + 1;
        }
      }
    }
  }
}
