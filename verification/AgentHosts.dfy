/** The agent store as "the latest snapshot of every host". */
module AgentHosts {
  import opened Wrappers
  import opened AgentRecords

  /** The last snapshot a host sent, ignoring prunes. */
  function Latest(ops: seq<Op>, host: string): Option<Snapshot> {
    if ops == [] then None
    else
      var op := ops[|ops| - 1];
      if op.Apply? && op.snap.host == host then Some(Stamp(op.snap, op.now)) else Latest(ops[..|ops| - 1], host)
  }

  /** The reporter only reports agents of its own host. */
  predicate OwnAgents(owner: string -> string, snap: Snapshot) {
    forall a | a in snap.agents && a.id != "" :: owner(a.id) == snap.host && (a.host == "" || a.host == snap.host)
  }

  /** Ids are host-disjoint, and no host's clock runs backwards between its snapshots. */
  predicate Orderly(owner: string -> string, ops: seq<Op>) {
    ops == [] ||
    (var init, op := ops[..|ops| - 1], ops[|ops| - 1];
     && Orderly(owner, init)
     && (op.Apply? ==>
           var last := Latest(init, op.snap.host);
           OwnAgents(owner, op.snap) && (last.Some? ==> last.value.takenAt <= Stamp(op.snap, op.now).takenAt)))
  }

  /** The record an id has, given the last snapshot of its host. */
  predicate RecordSound(agents: Agents, ttl: nat, now: nat, host: string, last: Option<Snapshot>, id: string) {
    && (id in agents ==> last.Some? && agents[id].host == host && agents[id].lastSeenAt <= last.value.takenAt)
    && (last.Some? ==>
          match Reported(last.value, id)
          case Some(e) => if id in agents then Bare(agents[id]) == Bare(e) else last.value.takenAt < now - ttl
          case None => id in agents ==> agents[id].staleAt != 0)
  }

  lemma {:induction false} DressedHost(owner: string -> string, snap: Snapshot, n: nat, id: string)
    requires n <= |snap.agents| && OwnAgents(owner, snap)
    ensures Entry(snap, n, id).Some? ==> owner(id) == snap.host && Entry(snap, n, id).value.host == snap.host
  {
    if n == 0 {
    } else {
      assert snap.agents[n - 1] in snap.agents;
      DressedHost(owner, snap, n - 1, id);
    }
  }

  lemma ApplyKeepsRecord(
      owner: string -> string, agents: Agents, ttl: nat, now: nat, last: Option<Snapshot>, snap: Snapshot, id: string)
    requires RecordSound(agents, ttl, now, owner(id), last, id)
    requires snap.takenAt > 0 && OwnAgents(owner, snap)
    requires owner(id) == snap.host && last.Some? ==> last.value.takenAt <= snap.takenAt
    ensures RecordSound(Applied(agents, snap), ttl, now, owner(id),
      if owner(id) == snap.host then Some(snap) else last, id)
  {
    AppliedRecord(agents, snap, id);
    DressedHost(owner, snap, |snap.agents|, id);
    EntryIsDressed(snap, |snap.agents|, id);
    var m := Applied(agents, snap);
    if Reported(snap, id).Some? {
      assert m[id].host == Bare(m[id]).host && m[id].lastSeenAt == Bare(m[id]).lastSeenAt;
    }
  }

  lemma StampOwn(owner: string -> string, snap: Snapshot, now: nat)
    requires OwnAgents(owner, snap)
    ensures OwnAgents(owner, Stamp(snap, now))
  {
  }

  lemma {:induction false} RunKeepsRecord(owner: string -> string, ttl: nat, ops: seq<Op>, now: nat, id: string)
    requires Timely(ops, now) && Orderly(owner, ops)
    ensures RecordSound(Run(map[], ttl, ops), ttl, now, owner(id), Latest(ops, owner(id)), id)
  {
    if ops == [] {
    } else {
      var init, op := ops[..|ops| - 1], ops[|ops| - 1];
      RunKeepsRecord(owner, ttl, init, op.now, id);
      if op.Apply? {
        StampOwn(owner, op.snap, op.now);
        ApplyKeepsRecord(owner, Run(map[], ttl, init), ttl, op.now,
          Latest(init, owner(id)), Stamp(op.snap, op.now), id);
      } else {
        var last := Latest(init, owner(id));
        if last.Some? { EntryIsDressed(last.value, |last.value.agents|, id); }
      }
    }
  }

  /** An agent shows exactly if the latest snapshot of its host holds it and is within the
      TTL, and it shows as that snapshot reports it. Prunes may happen at any time. */
  lemma LatestSnapshotPerHost(owner: string -> string, ttl: nat, ops: seq<Op>, now: nat, id: string)
    requires Timely(ops, now) && Orderly(owner, ops)
    ensures var view, last := View(Run(map[], ttl, ops), ttl, now), Latest(ops, owner(id));
            && (id in view <==> last.Some? && Reported(last.value, id).Some? && last.value.takenAt >= now - ttl)
            && (id in view ==> view[id] == Bare(Reported(last.value, id).value))
  {
    RunKeepsRecord(owner, ttl, ops, now, id);
    var last := Latest(ops, owner(id));
    if last.Some? { EntryIsDressed(last.value, |last.value.agents|, id); }
  }

  lemma {:induction false} LatestIsLast(ops: seq<Op>, host: string, i: nat)
    requires i < |ops| && ops[i].Apply? && ops[i].snap.host == host
    requires forall j | i < j < |ops| :: !(ops[j].Apply? && ops[j].snap.host == host)
    ensures Latest(ops, host) == Some(Stamp(ops[i].snap, ops[i].now))
  {
    if i == |ops| - 1 {
    } else {
      LatestIsLast(ops[..|ops| - 1], host, i);
    }
  }

  /** The last snapshot of the agent's host shows the agent just as its last entry for it says,
      within the TTL; with no entry for it, or none within the TTL, the agent does not show. */
  lemma LatestEntryShows(owner: string -> string, ttl: nat, ops: seq<Op>, now: nat, id: string, i: nat)
    requires Timely(ops, now) && Orderly(owner, ops)
    requires i < |ops| && ops[i].Apply? && ops[i].snap.host == owner(id)
    requires forall j | i < j < |ops| :: !(ops[j].Apply? && ops[j].snap.host == owner(id))
    ensures var view, snap := View(Run(map[], ttl, ops), ttl, now), ops[i].snap;
            var at := if snap.takenAt == 0 then ops[i].now else snap.takenAt;
            && (id in view ==> at >= now - ttl && exists k | 0 <= k < |snap.agents| :: snap.agents[k].id == id != "")
            && forall k | 0 <= k < |snap.agents| && snap.agents[k].id == id != "" && at >= now - ttl
                 && (forall j | k < j < |snap.agents| :: snap.agents[j].id != id) ::
                 var e := snap.agents[k];
                 id in view && view[id] == e.(lastSeenAt := at, staleAt := 0, parentId := "",
                                              host := if e.host == "" then snap.host else e.host,
                                              reportedBy := if e.reportedBy == "" then snap.host else e.reportedBy)
  {
    LatestSnapshotPerHost(owner, ttl, ops, now, id);
    LatestIsLast(ops, owner(id), i);
    var snap := Stamp(ops[i].snap, ops[i].now);
    EntryIsDressed(snap, |snap.agents|, id);
    forall k | 0 <= k < |snap.agents| && snap.agents[k].id == id != ""
      && (forall j | k < j < |snap.agents| :: snap.agents[j].id != id)
      ensures Reported(snap, id) == Some(Dress(snap.agents[k], snap))
    {
      EntryIsLast(snap, |snap.agents|, k, id);
    }
  }

  lemma {:induction false} NeverReported(ops: seq<Op>, host: string)
    requires forall op | op in ops && op.Apply? :: op.snap.host != host
    ensures Latest(ops, host) == None
  {
    if ops == [] {
    } else {
      NeverReported(ops[..|ops| - 1], host);
    }
  }

  /** Agents of a host that has sent nothing do not show. */
  lemma SilentHostShowsNothing(owner: string -> string, ttl: nat, ops: seq<Op>, now: nat, id: string)
    requires Timely(ops, now) && Orderly(owner, ops)
    requires forall op | op in ops && op.Apply? :: op.snap.host != owner(id)
    ensures id !in View(Run(map[], ttl, ops), ttl, now)
  {
    LatestSnapshotPerHost(owner, ttl, ops, now, id);
    NeverReported(ops, owner(id));
  }

  /** A snapshot leaves the agents of other hosts as they were, parents included. */
  lemma OtherHostsUntouched(owner: string -> string, agents: Agents, snap: Snapshot, id: string)
    requires OwnAgents(owner, snap) && owner(id) != snap.host
    requires id in agents ==> agents[id].host == owner(id)
    ensures id in Applied(agents, snap) <==> id in agents
    ensures id in agents ==> Applied(agents, snap)[id] == agents[id]
  {
    AppliedRecord(agents, snap, id);
    DressedHost(owner, snap, |snap.agents|, id);
  }
}
