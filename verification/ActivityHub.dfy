/** The activity hub: a ring of the last 1024 events and fan-out to bounded subscriber queues. */
module ActivityHub {
  import opened Wrappers

  const RING_SIZE := 1024
  const QUEUE_SIZE := 64

  /** `timestamp` 0 is Go's zero time. */
  datatype Event = Event(apiKey: string, envelopeId: string, kind: string, summary: string, timestamp: nat)

  datatype Subscriber = Subscriber(key: string, ch: seq<Event>)

  /** Public events and the empty (admin) key match everything. */
  predicate Matches(key: string, apiKey: string) {
    key == "" || apiKey == "" || apiKey == key
  }

  function Min(a: int, b: int): int {
    if a < b then a else b
  }

  /** Where the k-th published event is written. */
  function Slot(k: nat): (i: nat)
    ensures i < RING_SIZE
  {
    k % RING_SIZE
  }

  /** The ring holds the last `len` events of the log, each in its slot. */
  ghost predicate RingSound(ring: seq<Event>, head: nat, len: nat, log: seq<Event>) {
    && |ring| == RING_SIZE && len == Min(|log|, RING_SIZE) && head == Slot(|log|)
    && forall k: nat {:trigger Slot(k)} :: |log| - len <= k < |log| ==> ring[Slot(k)] == log[k]
  }

  /** The slot `i` places behind the newest event. */
  function Back(head: nat, i: nat): (s: nat)
    requires head < RING_SIZE && i < RING_SIZE
    ensures s < RING_SIZE
  {
    (head + RING_SIZE - 1 - i) % RING_SIZE
  }

  /** A queue after a non-blocking send: a full queue drops the event. */
  function Offer(sub: Subscriber, e: Event): Subscriber {
    if Matches(sub.key, e.apiKey) && |sub.ch| < QUEUE_SIZE then sub.(ch := sub.ch + [e]) else sub
  }

  /** Every subscriber, and no one else, was offered the event. */
  ghost predicate Offered(subs: map<nat, Subscriber>, subs': map<nat, Subscriber>, e: Event) {
    subs'.Keys == subs.Keys && forall s :: s in subs ==> subs'[s] == Offer(subs[s], e)
  }

  function Stamp(e: Event, now: nat): Event {
    if e.timestamp == 0 then e.(timestamp := now) else e
  }

  /** Fewer than 1024 positions apart, two positions never share a slot. */
  lemma DistinctSlots(k: nat, m: nat)
    requires m - RING_SIZE < k < m
    ensures Slot(k) != Slot(m)
  {
  }

  lemma RingAdvances(ring: seq<Event>, head: nat, len: nat, log: seq<Event>, e: Event)
    requires RingSound(ring, head, len, log)
    ensures RingSound(ring[head := e], (head + 1) % RING_SIZE, if len < RING_SIZE then len + 1 else len, log + [e])
  {
    var log' := log + [e];
    var len' := if len < RING_SIZE then len + 1 else len;
    forall k: nat | |log'| - len' <= k < |log'| ensures ring[head := e][Slot(k)] == log'[k] {
      if k < |log| { DistinctSlots(k, |log|); }
    }
  }

  lemma SlotBehind(n: nat, i: nat)
    requires i < RING_SIZE && i < n
    ensures Back(Slot(n), i) == Slot(n - 1 - i)
  {
    var q, h := n / RING_SIZE, Slot(n);
    if i < h {
      assert n - 1 - i == RING_SIZE * q + (h - 1 - i);
    } else {
      assert n - 1 - i == RING_SIZE * (q - 1) + (h + RING_SIZE - 1 - i);
    }
  }

  /** Counting back from the write position visits the log from its newest event. */
  lemma SlotOf(ring: seq<Event>, head: nat, len: nat, log: seq<Event>, i: nat)
    requires RingSound(ring, head, len, log) && i < len
    ensures ring[Back(head, i)] == log[|log| - 1 - i]
  {
    SlotBehind(|log|, i);
  }

  /** The position of the oldest event the ring still holds. */
  function Oldest(log: seq<Event>): nat {
    |log| - Min(|log|, RING_SIZE)
  }

  /** Where in the log's first `n` events those for the key and the public ones are, newest
      first, down to position `from`. */
  ghost function Visible(log: seq<Event>, from: nat, n: nat, key: string): seq<nat>
    requires n <= |log|
  {
    if n <= from then []
    else
      var rest, e := Visible(log, from, n - 1, key), log[n - 1];
      if key == "" || e.apiKey == "" || e.apiKey == key then [n - 1] + rest else rest
  }

  predicate Descending(at: seq<nat>) {
    forall i, j | 0 <= i < j < |at| :: at[i] > at[j]
  }

  lemma ConsDescends(p: nat, rest: seq<nat>)
    requires Descending(rest) && forall q | q in rest :: q < p
    ensures Descending([p] + rest)
  {
    var at := [p] + rest;
    forall i, j | 0 <= i < j < |at| ensures at[i] > at[j] {
      assert at[j] == rest[j - 1] && rest[j - 1] in rest;
      if i > 0 { assert at[i] == rest[i - 1]; }
    }
  }

  lemma {:induction false} VisibleIsInRange(log: seq<Event>, from: nat, n: nat, key: string)
    requires n <= |log|
    ensures forall p | p in Visible(log, from, n, key) ::
              from <= p < n && (key == "" || log[p].apiKey == "" || log[p].apiKey == key)
    ensures Descending(Visible(log, from, n, key))
  {
    if n <= from {
    } else {
      VisibleIsInRange(log, from, n - 1, key);
      ConsDescends(n - 1, Visible(log, from, n - 1, key));
    }
  }

  lemma {:induction false} VisibleIsFew(log: seq<Event>, from: nat, n: nat, key: string)
    requires from <= n <= |log|
    ensures |Visible(log, from, n, key)| <= n - from
  {
    if n == from {
    } else {
      VisibleIsFew(log, from, n - 1, key);
    }
  }

  lemma {:induction false} VisibleIsComplete(log: seq<Event>, from: nat, n: nat, key: string, p: nat)
    requires from <= p < n <= |log| && (key == "" || log[p].apiKey == "" || log[p].apiKey == key)
    ensures p in Visible(log, from, n, key)
  {
    var at, rest := Visible(log, from, n, key), Visible(log, from, n - 1, key);
    if p == n - 1 {
      assert at[0] == p;
    } else {
      VisibleIsComplete(log, from, n - 1, key, p);
      assert at == rest || at == [n - 1] + rest;
    }
  }

  /** Readers see the events for their key and the public ones, and miss none of them. */
  lemma VisibleExactly(log: seq<Event>, from: nat, n: nat, key: string)
    requires n <= |log|
    ensures forall p | p in Visible(log, from, n, key) :: p < n
    ensures Descending(Visible(log, from, n, key))
    ensures forall p: nat | p < n :: p in Visible(log, from, n, key) <==>
              p >= from && (key == "" || log[p].apiKey == "" || log[p].apiKey == key)
  {
    VisibleIsInRange(log, from, n, key);
    forall p: nat | from <= p < n && (key == "" || log[p].apiKey == "" || log[p].apiKey == key)
      ensures p in Visible(log, from, n, key)
    {
      VisibleIsComplete(log, from, n, key, p);
    }
  }

  class Hub {
    var ring: array<Event>
    var head: nat
    var len: nat
    var subs: map<nat, Subscriber>
    var nextId: nat                // stands for the address of the next subscriber

    ghost var log: seq<Event>      // everything published, oldest first

    ghost predicate Valid()
      reads this, ring
    {
      && RingSound(ring[..], head, len, log)
      && forall s :: s in subs ==> s < nextId && |subs[s].ch| <= QUEUE_SIZE
    }

    constructor ()
      ensures Valid() && log == [] && subs == map[] && fresh(ring)
    {
      ring := new Event[RING_SIZE](_ => Event("", "", "", "", 0));
      head, len, subs, nextId := 0, 0, map[], 0;
      log := [];
    }

    method Publish(event: Event, now: nat)
      requires Valid()
      modifies this`head, this`len, this`log, this`subs, ring
      ensures Valid() && log == old(log) + [Stamp(event, now)]
      ensures Offered(old(subs), subs, Stamp(event, now))
      ensures var e := event.(timestamp := if event.timestamp == 0 then now else event.timestamp);
              && log == old(log) + [e] && subs.Keys == old(subs).Keys
              && forall s | s in subs ::
                   var key, ch := old(subs)[s].key, old(subs)[s].ch;
                   subs[s] == Subscriber(key, if (key == "" || e.apiKey == "" || e.apiKey == key) && |ch| < QUEUE_SIZE
                                              then ch + [e] else ch)
    {
      var e := event;
      if e.timestamp == 0 { e := e.(timestamp := now); }
      Record(e);
      log := log + [e];
      FanOut(e);
    }

    /** Writes the event over the oldest slot. */
    method Record(e: Event)
      requires RingSound(ring[..], head, len, log)
      modifies this`head, this`len, ring
      ensures RingSound(ring[..], head, len, log + [e])
    {
      ghost var before := ring[..];
      ring[head] := e;
      RingAdvances(before, head, len, log, e);
      assert ring[..] == before[head := e];
      head := (head + 1) % RING_SIZE;
      if len < RING_SIZE { len := len + 1; }
    }

    /** Offers the event to every subscriber, in any order. */
    method FanOut(e: Event)
      modifies this`subs
      ensures Offered(old(subs), subs, e)
    {
      var left := subs.Keys;
      while left != {}
        invariant left <= subs.Keys == old(subs).Keys
        invariant forall s :: s in subs ==> subs[s] == if s in left then old(subs)[s] else Offer(old(subs)[s], e)
      {
        var s :| s in left;
        left := left - {s};
        var sub := subs[s];
        if sub.key != "" && e.apiKey != "" && sub.key != e.apiKey { continue; }
        if |sub.ch| < QUEUE_SIZE {
          subs := subs[s := sub.(ch := sub.ch + [e])];
        }
      }
    }

    /** The first `n` matching events, newest first, among the last 1024 published. A
        negative `n` makes Go's `make` panic, so callers pass none. */
    method Recent(key: string, n: nat) returns (result: seq<Event>)
      requires Valid()
      ensures var at := Visible(log, Oldest(log), |log|, key);
              && |result| == (if n < |at| then n else |at|)
              && (forall i, j | 0 <= i < j < |at| :: at[i] > at[j])
              && (forall i | 0 <= i < |at| :: at[i] < |log|)
              && (forall i | 0 <= i < |result| :: result[i] == log[at[i]])
              && forall p: nat | p < |log| :: p in at <==>
                   |log| - p <= 1024 && (key == "" || log[p].apiKey == "" || log[p].apiKey == key)
    {
      ghost var at := Visible(log, Oldest(log), |log|, key);
      VisibleExactly(log, Oldest(log), |log|, key);
      assert forall i | 0 <= i < |at| :: at[i] in at;
      forall i: nat | i < len ensures ring[Back(head, i)] == log[|log| - 1 - i] {
        SlotOf(ring[..], head, len, log, i);
      }
      result := Scan(key, n);
    }

    /** The index loop of `Recent`, over a ring that holds the log's end newest first. */
    method Scan(key: string, n: nat) returns (result: seq<Event>)
      requires ring.Length == RING_SIZE && head < RING_SIZE && len <= RING_SIZE && len <= |log|
      requires forall i: nat {:trigger Back(head, i)} :: i < len ==> ring[Back(head, i)] == log[|log| - 1 - i]
      ensures var at := Visible(log, |log| - len, |log|, key);
              && |result| == (if n < |at| then n else |at|)
              && forall i | 0 <= i < |result| :: at[i] < |log| && result[i] == log[at[i]]
    {
      var limit := if n > len then len else n;
      result := [];
      var i := 0;
      ghost var from: nat := |log| - len;
      ghost var at, seen: seq<nat> := Visible(log, from, |log|, key), [];
      VisibleIsFew(log, from, |log|, key);
      while i < len && |result| < limit
        invariant 0 <= i <= len && |result| == |seen| <= limit
        invariant at == seen + Visible(log, from, |log| - i, key)
        invariant forall k | 0 <= k < |seen| :: seen[k] < |log| && result[k] == log[seen[k]]
      {
        var e := ring[Back(head, i)];
        i := i + 1;
        if key != "" && e.apiKey != "" && e.apiKey != key { continue; }
        result := result + [e];
        seen := seen + [|log| - i];
      }
    }

    method Subscribe(key: string) returns (s: nat)
      requires Valid()
      modifies this`subs, this`nextId
      ensures Valid() && s !in old(subs) && subs == old(subs)[s := Subscriber(key, [])]
    {
      s := nextId;
      nextId := nextId + 1;
      subs := subs[s := Subscriber(key, [])];
    }

    /** The subscriber reads the oldest pending event of its channel, if there is one. */
    method Receive(s: nat) returns (e: Option<Event>)
      requires Valid() && s in subs
      modifies this`subs
      ensures Valid()
      ensures old(subs)[s].ch == [] ==> e == None && subs == old(subs)
      ensures old(subs)[s].ch != [] ==>
                var ch := old(subs)[s].ch;
                e == Some(ch[0]) && subs == old(subs)[s := old(subs)[s].(ch := ch[1..])]
    {
      var ch := subs[s].ch;
      if ch == [] { return None; }
      e := Some(ch[0]);
      subs := subs[s := subs[s].(ch := ch[1..])];
    }

    method Close(s: nat)
      requires Valid()
      modifies this`subs
      ensures Valid() && subs == old(subs) - {s}
    {
      subs := subs - {s};
    }
  }
}
