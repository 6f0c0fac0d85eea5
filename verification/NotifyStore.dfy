/** Notification acknowledgement: the chunked bulk operation against one ack at a time. */
module NotifyStore {
  import opened Wrappers

  const MAX_IDS_PER_QUERY := 500

  datatype Notification = Notification(envelopeId: string, status: string, apiKey: string, acknowledged: bool)

  type Table = map<int, Notification>

  datatype Tally = Tally(acknowledged: nat, already: nat, missing: nat)

  datatype BulkAckResult = BulkAckResult(requested: nat, counts: Tally)

  datatype StoreError = NotFound | Database

  /** A table and the counters of the acks that led to it. */
  datatype Outcome = Outcome(rows: Table, tally: Tally)

  predicate Owned(rows: Table, id: int, key: string) {
    id in rows && rows[id].apiKey == key
  }

  /** The row a single scoped ack changes, if it changes one. */
  predicate Hit(rows: Table, id: int, key: string) {
    Owned(rows, id, key) && !rows[id].acknowledged
  }

  function Mark(rows: Table, ids: set<int>): Table {
    map id | id in rows :: if id in ids then rows[id].(acknowledged := true) else rows[id]
  }

  /** One scoped ack after another, counted. */
  function AckEach(rows: Table, ids: seq<int>, key: string): Outcome {
    if ids == [] then Outcome(rows, Tally(0, 0, 0))
    else
      var Outcome(before, t) := AckEach(rows, ids[..|ids| - 1], key);
      var id := ids[|ids| - 1];
      if Hit(before, id, key) then Outcome(Mark(before, {id}), Tally(t.acknowledged + 1, t.already, t.missing))
      else if Owned(before, id, key) then Outcome(before, Tally(t.acknowledged, t.already + 1, t.missing))
      else Outcome(before, Tally(t.acknowledged, t.already, t.missing + 1))
  }

  function Add(t: Tally, u: Tally): Tally {
    Tally(t.acknowledged + u.acknowledged, t.already + u.already, t.missing + u.missing)
  }

  function Others(raced: seq<set<int>>, k: nat): set<int> {
    if k < |raced| then raced[k] else {}
  }

  /** Other callers' acks `raced[k]`, then the k-th chunk one ack at a time, for every k. */
  function Interleaved(rows: Table, chunks: seq<seq<int>>, raced: seq<set<int>>, key: string): Outcome {
    if chunks == [] then Outcome(rows, Tally(0, 0, 0))
    else
      var k := |chunks| - 1;
      var before := Interleaved(rows, chunks[..k], raced, key);
      var chunk := AckEach(Mark(before.rows, Others(raced, k)), chunks[k], key);
      Outcome(chunk.rows, Add(before.tally, chunk.tally))
  }

  /** What the other callers' acks alone make of the table. */
  function OthersOnly(rows: Table, raced: seq<set<int>>, n: nat): Table {
    if n == 0 then rows else Mark(OthersOnly(rows, raced, n - 1), Others(raced, n - 1))
  }

  function Flatten(chunks: seq<seq<int>>): seq<int> {
    if chunks == [] then [] else Flatten(chunks[..|chunks| - 1]) + chunks[|chunks| - 1]
  }

  // ----- the closed form of a run of single acks -----

  function Hits(rows: Table, ids: seq<int>, key: string): set<int> {
    set id | id in ids && Hit(rows, id, key)
  }

  function Missing(rows: Table, ids: seq<int>, key: string): (n: nat)
    ensures n <= |ids|
  {
    if ids == [] then 0
    else Missing(rows, ids[..|ids| - 1], key) + if Owned(rows, ids[|ids| - 1], key) then 0 else 1
  }

  lemma HitsGrow(rows: Table, ids: seq<int>, key: string)
    requires ids != []
    ensures var id, before := ids[|ids| - 1], Hits(rows, ids[..|ids| - 1], key);
            Hits(rows, ids, key) == if Hit(rows, id, key) then before + {id} else before
  {
    assert ids == ids[..|ids| - 1] + [ids[|ids| - 1]];
  }

  /** Repeats count once: the acks that succeed are the distinct unacknowledged owned ids. */
  lemma {:induction false} AckEachClosed(rows: Table, ids: seq<int>, key: string)
    ensures var Outcome(after, t) := AckEach(rows, ids, key);
            && after == Mark(rows, Hits(rows, ids, key))
            && t.acknowledged == |Hits(rows, ids, key)|
            && t.missing == Missing(rows, ids, key) && |ids| == t.acknowledged + t.already + t.missing
  {
    if ids == [] {
      assert Mark(rows, {}) == rows;
    } else {
      var init, id := ids[..|ids| - 1], ids[|ids| - 1];
      AckEachClosed(rows, init, key);
      HitsGrow(rows, ids, key);
      var before := Hits(rows, init, key);
      assert Hit(rows, id, key) && id in before ==> before + {id} == before;
      assert Mark(Mark(rows, before), {id}) == Mark(rows, before + {id});
    }
  }

  lemma {:induction false} MissingIgnoresAcks(rows: Table, others: set<int>, ids: seq<int>, key: string)
    ensures Missing(Mark(rows, others), ids, key) == Missing(rows, ids, key)
  {
    if ids == [] {
    } else {
      MissingIgnoresAcks(rows, others, ids[..|ids| - 1], key);
    }
  }

  /** Acks that raced the chunk only take successes away from it. */
  lemma RacedHits(rows: Table, others: set<int>, ids: seq<int>, key: string)
    ensures Hits(Mark(rows, others), ids, key) == Hits(rows, ids, key) - others
  {
  }

  lemma {:induction false} AckEachJoins(rows: Table, a: seq<int>, b: seq<int>, key: string)
    ensures var first := AckEach(rows, a, key);
            var second := AckEach(first.rows, b, key);
            AckEach(rows, a + b, key) == Outcome(second.rows, Add(first.tally, second.tally))
  {
    if b == [] {
      assert a + b == a;
    } else {
      var init := b[..|b| - 1];
      assert (a + b)[..|a + b| - 1] == a + init;
      AckEachJoins(rows, a, init, key);
    }
  }

  lemma MarkNone(rows: Table)
    ensures Mark(rows, {}) == rows
  {
  }

  /** However a list is cut into chunks, without races the result is that of single acks. */
  lemma {:induction false} ChunkingIsInvisible(rows: Table, chunks: seq<seq<int>>, raced: seq<set<int>>, key: string)
    requires forall k | 0 <= k < |raced| :: raced[k] == {}
    ensures Interleaved(rows, chunks, raced, key) == AckEach(rows, Flatten(chunks), key)
  {
    if chunks == [] {
    } else {
      var k := |chunks| - 1;
      ChunkingIsInvisible(rows, chunks[..k], raced, key);
      assert Others(raced, k) == {};
      MarkNone(AckEach(rows, Flatten(chunks[..k]), key).rows);
      AckEachJoins(rows, Flatten(chunks[..k]), chunks[k], key);
    }
  }

  /** Every requested id is accounted for, races or not. */
  lemma {:induction false} TallyAddsUp(rows: Table, chunks: seq<seq<int>>, raced: seq<set<int>>, key: string)
    ensures var t := Interleaved(rows, chunks, raced, key).tally;
            |Flatten(chunks)| == t.acknowledged + t.already + t.missing
  {
    if chunks == [] {
    } else {
      var k := |chunks| - 1;
      TallyAddsUp(rows, chunks[..k], raced, key);
      AckEachClosed(Mark(Interleaved(rows, chunks[..k], raced, key).rows, Others(raced, k)), chunks[k], key);
    }
  }

  // ----- what the acks come to, in terms of the rows alone -----

  /** The table with further acknowledged rows, and no other change. */
  ghost predicate OnlyAcks(rows: Table, after: Table) {
    after.Keys == rows.Keys && forall id | id in rows :: after[id] == rows[id].(acknowledged := after[id].acknowledged)
  }

  lemma {:induction false} MissingPositions(rows: Table, ids: seq<int>, key: string)
    ensures Missing(rows, ids, key) == |set i | 0 <= i < |ids| && !(ids[i] in rows && rows[ids[i]].apiKey == key)|
  {
    var now := set i | 0 <= i < |ids| && !(ids[i] in rows && rows[ids[i]].apiKey == key);
    if ids == [] {
      assert now == {};
    } else {
      var init, last := ids[..|ids| - 1], |ids| - 1;
      MissingPositions(rows, init, key);
      var before := set i | 0 <= i < |init| && !(init[i] in rows && rows[init[i]].apiKey == key);
      if ids[last] in rows && rows[ids[last]].apiKey == key {
        assert now == before;
      } else {
        assert now == before + {last};
      }
    }
  }

  lemma {:induction false} MissingJoins(rows: Table, a: seq<int>, b: seq<int>, key: string)
    ensures Missing(rows, a + b, key) == Missing(rows, a, key) + Missing(rows, b, key)
  {
    if b == [] {
      assert a + b == a;
    } else {
      assert (a + b)[..|a + b| - 1] == a + b[..|b| - 1];
      MissingJoins(rows, a, b[..|b| - 1], key);
    }
  }

  lemma {:induction false} MissingIsLasting(rows: Table, after: Table, ids: seq<int>, key: string)
    requires OnlyAcks(rows, after)
    ensures Missing(after, ids, key) == Missing(rows, ids, key)
  {
    if ids == [] {
    } else {
      MissingIsLasting(rows, after, ids[..|ids| - 1], key);
    }
  }

  /** Single acks, in raw terms: the requested rows of this key are acknowledged, all others
      stay; each row that changes is counted once, and each requested id that is absent or of
      another key counts as missing as often as it was requested. */
  lemma AcksInScope(rows: Table, ids: seq<int>, key: string)
    ensures var Outcome(after, t) := AckEach(rows, ids, key);
            && after.Keys == rows.Keys
            && (forall id | id in rows :: after[id] == rows[id].(acknowledged :=
                  rows[id].acknowledged || (id in ids && rows[id].apiKey == key)))
            && t.acknowledged == |set id | id in ids && id in rows && rows[id].apiKey == key && !rows[id].acknowledged|
            && t.missing == |set i | 0 <= i < |ids| && !(ids[i] in rows && rows[ids[i]].apiKey == key)|
  {
    AckEachClosed(rows, ids, key);
    MissingPositions(rows, ids, key);
    assert Hits(rows, ids, key) == set id | id in ids && id in rows && rows[id].apiKey == key && !rows[id].acknowledged;
  }

  lemma {:induction false} OthersAcks(rows: Table, raced: seq<set<int>>, n: nat, id: int)
    ensures var after := OthersOnly(rows, raced, n);
            && (id in after <==> id in rows)
            && (id in rows ==> after[id] == rows[id].(acknowledged :=
                  rows[id].acknowledged || exists k | 0 <= k < n && k < |raced| :: id in raced[k]))
  {
    if n == 0 {
    } else {
      OthersAcks(rows, raced, n - 1, id);
    }
  }

  /** With other callers' acks in between: the requested rows of this key and the others' rows
      are acknowledged, and nothing else changes. */
  lemma {:induction false} RacedAcksInScope(
      rows: Table, chunks: seq<seq<int>>, raced: seq<set<int>>, key: string, id: int)
    ensures var after := Interleaved(rows, chunks, raced, key).rows;
            && (id in after <==> id in rows)
            && (id in rows ==> after[id] == rows[id].(acknowledged :=
                  rows[id].acknowledged || (id in Flatten(chunks) && rows[id].apiKey == key)
                  || exists k | 0 <= k < |chunks| && k < |raced| :: id in raced[k]))
  {
    if chunks == [] {
    } else {
      var k := |chunks| - 1;
      RacedAcksInScope(rows, chunks[..k], raced, key, id);
      var before := Mark(Interleaved(rows, chunks[..k], raced, key).rows, Others(raced, k));
      AcksInScope(before, chunks[k], key);
      assert id in before ==> before[id].apiKey == rows[id].apiKey;
    }
  }

  lemma {:induction false} RacedMissing(rows: Table, chunks: seq<seq<int>>, raced: seq<set<int>>, key: string)
    ensures Interleaved(rows, chunks, raced, key).tally.missing == Missing(rows, Flatten(chunks), key)
  {
    if chunks == [] {
    } else {
      var k := |chunks| - 1;
      RacedMissing(rows, chunks[..k], raced, key);
      var before := Mark(Interleaved(rows, chunks[..k], raced, key).rows, Others(raced, k));
      forall id ensures id in before <==> id in rows
        ensures id in rows ==> before[id] == rows[id].(acknowledged := before[id].acknowledged)
      {
        RacedAcksInScope(rows, chunks[..k], raced, key, id);
      }
      AckEachClosed(before, chunks[k], key);
      MissingIsLasting(rows, before, chunks[k], key);
      MissingJoins(rows, Flatten(chunks[..k]), chunks[k], key);
    }
  }

  /** The rows this call acknowledges: requested, of this key, unacknowledged, and not taken by
      others up to the update of the first chunk that holds them. */
  function Won(rows: Table, chunks: seq<seq<int>>, raced: seq<set<int>>, key: string): set<int> {
    set id | id in Flatten(chunks) && id in rows && rows[id].apiKey == key && !rows[id].acknowledged
      && forall k | 0 <= k < |chunks| && k < |raced| && id in raced[k] :: id in Flatten(chunks[..k])
  }

  lemma {:induction false} FlattenGrows(chunks: seq<seq<int>>, j: nat, k: nat, id: int)
    requires j <= k <= |chunks| && id in Flatten(chunks[..j])
    ensures id in Flatten(chunks[..k])
  {
    if j == k {
    } else {
      FlattenGrows(chunks, j, k - 1, id);
      assert chunks[..k][..k - 1] == chunks[..k - 1];
    }
  }

  /** One more chunk: what was won stays won, and the chunk wins what is still to be had. */
  lemma WonGrows(rows: Table, chunks: seq<seq<int>>, raced: seq<set<int>>, key: string, id: int)
    requires chunks != []
    ensures var k := |chunks| - 1;
            var before := Mark(Interleaved(rows, chunks[..k], raced, key).rows, Others(raced, k));
            && (id in Won(rows, chunks, raced, key) <==>
                  id in Won(rows, chunks[..k], raced, key) || id in Hits(before, chunks[k], key))
            && !(id in Won(rows, chunks[..k], raced, key) && id in Hits(before, chunks[k], key))
  {
    var k := |chunks| - 1;
    RacedAcksInScope(rows, chunks[..k], raced, key, id);
    assert forall j | 0 <= j <= k :: chunks[..k][..j] == chunks[..j];
    forall j | 0 <= j <= k && id in Flatten(chunks[..j]) ensures id in Flatten(chunks[..k]) {
      FlattenGrows(chunks, j, k, id);
    }
  }

  /** Each row is counted by the caller who acknowledged it first. */
  lemma {:induction false} RacedCount(rows: Table, chunks: seq<seq<int>>, raced: seq<set<int>>, key: string)
    ensures Interleaved(rows, chunks, raced, key).tally.acknowledged == |Won(rows, chunks, raced, key)|
  {
    if chunks == [] {
      assert forall id :: id !in Flatten(chunks) && id !in Won(rows, chunks, raced, key);
      assert Won(rows, chunks, raced, key) == {};
    } else {
      var k := |chunks| - 1;
      RacedCount(rows, chunks[..k], raced, key);
      var before := Mark(Interleaved(rows, chunks[..k], raced, key).rows, Others(raced, k));
      AckEachClosed(before, chunks[k], key);
      forall id
        ensures id in Won(rows, chunks, raced, key) <==>
                  id in Won(rows, chunks[..k], raced, key) || id in Hits(before, chunks[k], key)
        ensures !(id in Won(rows, chunks[..k], raced, key) && id in Hits(before, chunks[k], key))
      {
        WonGrows(rows, chunks, raced, key, id);
      }
      assert Won(rows, chunks, raced, key) == Won(rows, chunks[..k], raced, key) + Hits(before, chunks[k], key);
    }
  }

  /** The interleaved acks in raw terms. */
  lemma BulkInScope(rows: Table, ids: seq<int>, chunks: seq<seq<int>>, raced: seq<set<int>>, key: string)
    returns (won: set<int>)
    requires Flatten(chunks) == ids
    ensures var Outcome(after, t) := Interleaved(rows, chunks, raced, key);
            && after.Keys == rows.Keys
            && (forall id | id in rows :: after[id] == rows[id].(acknowledged :=
                  rows[id].acknowledged || (id in ids && rows[id].apiKey == key)
                  || exists k | 0 <= k < |chunks| && k < |raced| :: id in raced[k]))
            && t.missing == |set i | 0 <= i < |ids| && !(ids[i] in rows && rows[ids[i]].apiKey == key)|
    ensures Interleaved(rows, chunks, raced, key).tally.acknowledged == |won|
    ensures forall id :: id in won <==>
              && id in ids && id in rows && rows[id].apiKey == key && !rows[id].acknowledged
              && forall k | 0 <= k < |chunks| && k < |raced| && id in raced[k] :: id in Flatten(chunks[..k])
  {
    forall id
      ensures id in Interleaved(rows, chunks, raced, key).rows <==> id in rows
      ensures id in rows ==> Interleaved(rows, chunks, raced, key).rows[id] == rows[id].(acknowledged :=
                rows[id].acknowledged || (id in ids && rows[id].apiKey == key)
                || exists k | 0 <= k < |chunks| && k < |raced| :: id in raced[k])
    {
      RacedAcksInScope(rows, chunks, raced, key, id);
    }
    RacedMissing(rows, chunks, raced, key);
    MissingPositions(rows, ids, key);
    RacedCount(rows, chunks, raced, key);
    won := Won(rows, chunks, raced, key);
  }

  /** What a failed call leaves behind, in raw terms. */
  lemma OthersInScope(rows: Table, raced: seq<set<int>>, n: nat)
    ensures var after := OthersOnly(rows, raced, n);
            && after.Keys == rows.Keys
            && forall id | id in rows :: after[id] == rows[id].(acknowledged :=
                 rows[id].acknowledged || exists k | 0 <= k < n && k < |raced| :: id in raced[k])
  {
    forall id
      ensures id in OthersOnly(rows, raced, n) <==> id in rows
      ensures id in rows ==> OthersOnly(rows, raced, n)[id] == rows[id].(acknowledged :=
                rows[id].acknowledged || exists k | 0 <= k < n && k < |raced| :: id in raced[k])
    {
      OthersAcks(rows, raced, n, id);
    }
  }

  method ChunkIds(ids: seq<int>, size: nat) returns (chunks: seq<seq<int>>)
    requires size > 0
    ensures Flatten(chunks) == ids
    ensures forall k | 0 <= k < |chunks| :: 0 < |chunks[k]| <= size && (k < |chunks| - 1 ==> |chunks[k]| == size)
  {
    chunks := [];
    var start := 0;
    while start < |ids|
      invariant start <= |ids| ==> Flatten(chunks) == ids[..start]
      invariant start >= |ids| ==> Flatten(chunks) == ids
      invariant start == |chunks| * size
      invariant forall k | 0 <= k < |chunks| :: 0 < |chunks[k]| <= size
      invariant forall k | 0 <= k < |chunks| && (k < |chunks| - 1 || start < |ids|) :: |chunks[k]| == size
      decreases |ids| - start
    {
      var end := start + size;
      if end > |ids| { end := |ids|; }
      assert (chunks + [ids[start..end]])[..|chunks|] == chunks;
      assert ids[..end] == ids[..start] + ids[start..end] && ids[..|ids|] == ids;
      chunks := chunks + [ids[start..end]];
      start := start + size;
    }
  }

  /** How many of the ids, repeats included, the lookup returned. */
  function Known(ids: seq<int>, states: map<int, bool>): (n: nat)
    ensures n <= |ids|
  {
    if ids == [] then 0
    else Known(ids[..|ids| - 1], states) + if ids[|ids| - 1] in states then 1 else 0
  }

  /** Sorts the chunk's ids into missing, already acknowledged and to be acknowledged. */
  method ClassifyBulkAck(ids: seq<int>, states: map<int, bool>, seenToAck: set<int>, tally: Tally)
    returns (toAck: set<int>, seen: set<int>, result: Tally)
    ensures toAck == set id | id in ids && id in states && !states[id] && id !in seenToAck
    ensures seen == seenToAck + toAck
    ensures result.acknowledged == tally.acknowledged
    ensures result.missing - tally.missing == |ids| - Known(ids, states)
    ensures result.already - tally.already == Known(ids, states) - |toAck|
  {
    toAck, seen, result := {}, seenToAck, tally;
    for i := 0 to |ids|
      invariant toAck == set id | id in ids[..i] && id in states && !states[id] && id !in seenToAck
      invariant seen == seenToAck + toAck
      invariant result.acknowledged == tally.acknowledged
      invariant result.missing - tally.missing == i - Known(ids[..i], states)
      invariant result.already - tally.already == Known(ids[..i], states) - |toAck|
    {
      var id := ids[i];
      assert ids[..i + 1] == ids[..i] + [id] && ids[..i + 1][..i] == ids[..i];
      if id !in states {
        result := result.(missing := result.missing + 1);
      } else if states[id] || id in seen {
        result := result.(already := result.already + 1);
      } else {
        toAck, seen := toAck + {id}, seen + {id};
      }
    }
    assert ids[..|ids|] == ids;
  }

  function AckStates(rows: Table, ids: seq<int>, key: string): map<int, bool> {
    map id | id in ids && Owned(rows, id, key) :: rows[id].acknowledged
  }

  lemma {:induction false} KnownIsNotMissing(rows: Table, ids: seq<int>, all: seq<int>, key: string)
    requires forall id | id in ids :: id in all
    ensures Known(ids, AckStates(rows, all, key)) + Missing(rows, ids, key) == |ids|
  {
    if ids == [] {
    } else {
      KnownIsNotMissing(rows, ids[..|ids| - 1], all, key);
    }
  }

  /** Ids already handled in this transaction are acknowledged by now. */
  ghost predicate SeenSound(rows: Table, seen: set<int>, key: string) {
    forall id | id in seen :: !Hit(rows, id, key)
  }

  /** The UPDATE guarded by `acknowledged = 0`, with its affected-row count. */
  method MarkBulkAcknowledged(rows: Table, ids: set<int>, key: string) returns (after: Table, n: nat)
    ensures after == Mark(rows, set id | id in ids && Hit(rows, id, key))
    ensures n == |set id | id in ids && Hit(rows, id, key)|
  {
    if ids == {} {
      assert Mark(rows, {}) == rows;
      return rows, 0;
    }
    var affected := set id | id in ids && Hit(rows, id, key);
    return Mark(rows, affected), |affected|;
  }

  lemma ToAckIsHits(rows: Table, ids: seq<int>, key: string, seen: set<int>)
    requires SeenSound(rows, seen, key)
    ensures var states := AckStates(rows, ids, key);
            (set id | id in ids && id in states && !states[id] && id !in seen) == Hits(rows, ids, key)
  {
  }

  lemma AffectedIsHits(rows: Table, others: set<int>, ids: seq<int>, key: string)
    ensures var raced := Mark(rows, others);
            (set id | id in Hits(rows, ids, key) && Hit(raced, id, key)) == Hits(raced, ids, key)
  {
  }

  /** What the update affects and the classification leaves over are the single acks' counts. */
  lemma ChunkTally(rows: Table, others: set<int>, chunk: seq<int>, key: string)
    ensures var raced := Mark(rows, others);
            var known := Known(chunk, AckStates(rows, chunk, key));
            var n := |Hits(raced, chunk, key)|;
            && AckEach(raced, chunk, key).rows == Mark(raced, Hits(raced, chunk, key))
            && n <= known && AckEach(raced, chunk, key).tally == Tally(n, known - n, |chunk| - known)
  {
    AckEachClosed(Mark(rows, others), chunk, key);
    MissingIgnoresAcks(rows, others, chunk, key);
    KnownIsNotMissing(rows, chunk, chunk, key);
  }

  lemma SeenStaysSound(rows: Table, others: set<int>, chunk: seq<int>, key: string, seen: set<int>)
    requires SeenSound(rows, seen, key)
    ensures SeenSound(Mark(Mark(rows, others), Hits(Mark(rows, others), chunk, key)),
      seen + Hits(rows, chunk, key), key)
  {
  }

  lemma HitsShrink(rows: Table, others: set<int>, ids: seq<int>, key: string)
    ensures |Hits(Mark(rows, others), ids, key)| <= |Hits(rows, ids, key)|
  {
    RacedHits(rows, others, ids, key);
    var gone := Hits(rows, ids, key) * others;
    assert Hits(rows, ids, key) == (Hits(rows, ids, key) - others) + gone;
  }

  /** One chunk: lookup, then (other callers ack `others`), then the guarded update. */
  method ProcessAckChunk(rows: Table, others: set<int>, chunk: seq<int>, key: string,
                         seenToAck: set<int>, counts: Tally)
    returns (after: Table, seen: set<int>, result: Tally)
    requires SeenSound(rows, seenToAck, key)
    ensures after == AckEach(Mark(rows, others), chunk, key).rows
    ensures result == Add(counts, AckEach(Mark(rows, others), chunk, key).tally)
    ensures SeenSound(after, seen, key)
  {
    var states := AckStates(rows, chunk, key);
    var toAck: set<int>;
    toAck, seen, result := ClassifyBulkAck(chunk, states, seenToAck, counts);
    ToAckIsHits(rows, chunk, key, seenToAck);
    var n: nat;
    after, n := MarkBulkAcknowledged(Mark(rows, others), toAck, key);
    AffectedIsHits(rows, others, chunk, key);
    HitsShrink(rows, others, chunk, key);
    ChunkTally(rows, others, chunk, key);
    SeenStaysSound(rows, others, chunk, key, seenToAck);
    result := result.(acknowledged := result.acknowledged + n, already := result.already + |toAck| - n);
  }

  datatype Fault = NoFault | BeginFails | ChunkFails(chunk: nat) | CommitFails

  /** How many of the `n` chunks are through when the fault strikes. */
  function Reached(fault: Fault, n: nat): nat {
    match fault
    case ChunkFails(k) => k
    case CommitFails => n
    case _ => 0
  }

  class Store {
    var rows: Table

    constructor ()
      ensures rows == map[]
    {
      rows := map[];
    }

    method AcknowledgeForKey(id: int, key: string) returns (r: Result<(), StoreError>)
      modifies this
      ensures rows == AckEach(old(rows), [id], key).rows
      ensures r == if AckEach(old(rows), [id], key).tally.acknowledged == 1 then Ok(()) else Err(NotFound)
      ensures if id in old(rows) && old(rows)[id].apiKey == key && !old(rows)[id].acknowledged then
                r == Ok(()) && rows == old(rows)[id := old(rows)[id].(acknowledged := true)]
              else r == Err(NotFound) && rows == old(rows)
    {
      assert [id][..0] == [];
      assert AckEach(old(rows), [], key) == Outcome(old(rows), Tally(0, 0, 0));
      var n := if Hit(rows, id, key) then 1 else 0;
      rows := if n == 1 then Mark(rows, {id}) else rows;
      return if n == 0 then Err(NotFound) else Ok(());
    }

    /** `raced[k]` is what other callers acknowledge between chunk k's lookup and update;
        `fault` is the database call that errors. `chunks` is how the ids were cut, `won` what
        this call acknowledges if it commits. */
    method BulkAcknowledge(ids: seq<int>, key: string, raced: seq<set<int>>, fault: Fault)
      returns (r: Result<BulkAckResult, StoreError>, ghost chunks: seq<seq<int>>, ghost won: set<int>)
      modifies this
      ensures Flatten(chunks) == ids && forall k | 0 <= k < |chunks| :: 0 < |chunks[k]| <= 500
      ensures r.Err? <==>
                ids != [] && (fault.BeginFails? || fault.CommitFails? || (fault.ChunkFails? && fault.chunk < |chunks|))
      ensures r.Ok? ==> rows == Interleaved(old(rows), chunks, raced, key).rows
      ensures r.Ok? ==> r.value == BulkAckResult(|ids|, Interleaved(old(rows), chunks, raced, key).tally)
      ensures r.Ok? ==>
                r.value.requested == r.value.counts.acknowledged + r.value.counts.already + r.value.counts.missing
      ensures r.Ok? && (forall k | 0 <= k < |raced| :: raced[k] == {}) ==> rows == AckEach(old(rows), ids, key).rows
      ensures r.Ok? && (forall k | 0 <= k < |raced| :: raced[k] == {}) ==>
                r.value.counts == AckEach(old(rows), ids, key).tally
      ensures rows.Keys == old(rows).Keys
      ensures r.Ok? ==> forall id | id in rows :: rows[id] == old(rows)[id].(acknowledged :=
                old(rows)[id].acknowledged || (id in ids && old(rows)[id].apiKey == key)
                || exists k | 0 <= k < |chunks| && k < |raced| :: id in raced[k])
      ensures r.Ok? ==>
                var missing := set i | 0 <= i < |ids| && !(ids[i] in old(rows) && old(rows)[ids[i]].apiKey == key);
                r.value.counts.missing == |missing|
      ensures r.Ok? ==> r.value.counts.acknowledged == |won|
      ensures forall id :: id in won <==>
                && id in ids && id in old(rows) && old(rows)[id].apiKey == key && !old(rows)[id].acknowledged
                && forall k | 0 <= k < |chunks| && k < |raced| && id in raced[k] :: id in Flatten(chunks[..k])
      ensures r.Err? ==> forall id | id in rows :: rows[id] == old(rows)[id].(acknowledged :=
                old(rows)[id].acknowledged || exists k | 0 <= k < |raced| && id in raced[k] ::
                  (fault.CommitFails? && k < |chunks|) || (fault.ChunkFails? && k < fault.chunk))
    {
      var cut := ChunkIds(ids, MAX_IDS_PER_QUERY);
      chunks := cut;
      won := BulkInScope(rows, ids, cut, raced, key);
      if ids == [] {
        return Ok(BulkAckResult(0, Tally(0, 0, 0))), chunks, won;
      }
      OthersInScope(rows, raced, Reached(fault, |chunks|));
      TallyAddsUp(rows, cut, raced, key);
      if forall k | 0 <= k < |raced| :: raced[k] == {} {
        ChunkingIsInvisible(rows, cut, raced, key);
      }
      var counts := Transaction(cut, key, raced, fault);
      if counts.Err? { return Err(counts.error), chunks, won; }
      return Ok(BulkAckResult(|ids|, counts.value)), chunks, won;
    }

    /** All chunks in one transaction: a fault rolls this call's own acks back. */
    method Transaction(cut: seq<seq<int>>, key: string, raced: seq<set<int>>, fault: Fault)
      returns (r: Result<Tally, StoreError>)
      modifies this
      ensures r.Err? <==> fault.BeginFails? || fault.CommitFails? || (fault.ChunkFails? && fault.chunk < |cut|)
      ensures r.Ok? ==> Outcome(rows, r.value) == Interleaved(old(rows), cut, raced, key)
      ensures r.Err? ==> rows == OthersOnly(old(rows), raced, Reached(fault, |cut|))
    {
      assert OthersOnly(old(rows), raced, 0) == rows;
      if fault.BeginFails? { return Err(Database); }
      var work, seen, counts := rows, {}, Tally(0, 0, 0);
      for k := 0 to |cut|
        invariant rows == OthersOnly(old(rows), raced, k)
        invariant Outcome(work, counts) == Interleaved(old(rows), cut[..k], raced, key)
        invariant SeenSound(work, seen, key)
        invariant fault.ChunkFails? ==> k <= fault.chunk
      {
        if fault == ChunkFails(k) { return Err(Database); }
        assert cut[..k + 1][..k] == cut[..k];
        work, seen, counts := ProcessAckChunk(work, Others(raced, k), cut[k], key, seen, counts);
        rows := Mark(rows, Others(raced, k));
      }
      assert cut[..|cut|] == cut;
      if fault.CommitFails? { return Err(Database); }
      rows := work;
      return Ok(counts);
    }
  }
}
