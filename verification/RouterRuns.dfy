/** The notification router under concurrency: webhooks, mode changes and flushes interleave
    between their critical sections. */
module RouterRuns {
  import opened Wrappers
  import opened NotifyRouter
  import opened Runs

  datatype Call =
    | Routing(p: Payload)            // before the busy flag is read
    | Sending(p: Payload)
    | Buffering(p: Payload)
    | Freeing                        // SetFree before the flag is cleared
    | Flushing(free: bool)           // before the buffer is taken; `free` within SetFree
    | Carrying(items: seq<Payload>)
    | Over

  predicate IsRoute(c: Call) { c.Routing? || c.Sending? || c.Buffering? }

  predicate IsFree(c: Call) { c.Freeing? || (c.Flushing? && c.free) }

  datatype State = State(busy: bool, buffer: seq<Payload>, calls: seq<Call>, ledger: Ledger)

  const INIT := State(false, [], [], Ledger(multiset{}, [], [], []))

  datatype Action =
    | Webhook(p: Payload)
    | Decide(call: nat)
    | Act(call: nat)       // send, or add to the buffer
    | SetBusy
    | BeginFree
    | TurnFree(call: nat)
    | BeginFlush
    | Take(call: nat)
    | SendBatch(call: nat)

  /** Whether a webhook may be under way while `SetFree` runs. */
  datatype Usage = Usage(overlaps: bool)

  function Begin(s: State, c: Call): State {
    s.(calls := s.calls + [c])
  }

  function Move(s: State, i: nat, c: Call): State
    requires i < |s.calls|
  {
    s.(calls := s.calls[i := c])
  }

  function WebhookStep(u: Usage, s: State, p: Payload): Option<State> {
    if !u.overlaps && exists i :: 0 <= i < |s.calls| && IsFree(s.calls[i]) then None
    else
      var q := Normalise(p);
      Some(Begin(s, Routing(q)).(ledger := s.ledger.(routed := s.ledger.routed + multiset{q})))
  }

  function DecideStep(s: State, i: nat): Option<State> {
    if i >= |s.calls| || !s.calls[i].Routing? then None
    else Some(Move(s, i, if GoesOut(s.calls[i].p, s.busy) then Sending(s.calls[i].p) else Buffering(s.calls[i].p)))
  }

  function ActStep(s: State, i: nat): Option<State> {
    if i >= |s.calls| then None
    else if s.calls[i].Sending? then Some(Move(s, i, Over).(ledger := Sent(s.ledger, [s.calls[i].p])))
    else if s.calls[i].Buffering? then
      Some(Move(s, i, Over).(buffer := Push(s.buffer, s.calls[i].p),
        ledger := Stored(s.ledger, s.buffer, s.calls[i].p)))
    else None
  }

  function BeginFreeStep(u: Usage, s: State): Option<State> {
    if !u.overlaps && exists i :: 0 <= i < |s.calls| && IsRoute(s.calls[i]) then None else Some(Begin(s, Freeing))
  }

  function TurnFreeStep(s: State, i: nat): Option<State> {
    if i >= |s.calls| || !s.calls[i].Freeing? then None else Some(Move(s, i, Flushing(true)).(busy := false))
  }

  /** An empty buffer ends the flush without a message. */
  function Taken(buffer: seq<Payload>): Call {
    if buffer == [] then Over else Carrying(buffer)
  }

  function TakeStep(s: State, i: nat): Option<State> {
    if i >= |s.calls| || !s.calls[i].Flushing? then None
    else Some(Move(s, i, Taken(s.buffer)).(buffer := [], ledger := s.ledger.(stored := [])))
  }

  function SendBatchStep(s: State, i: nat): Option<State> {
    if i >= |s.calls| || !s.calls[i].Carrying? then None
    else Some(Move(s, i, Over).(ledger := Sent(s.ledger, s.calls[i].items)))
  }

  function Step(u: Usage, s: State, a: Action): Option<State> {
    match a
    case Webhook(p) => WebhookStep(u, s, p)
    case Decide(i) => DecideStep(s, i)
    case Act(i) => ActStep(s, i)
    case SetBusy => Some(s.(busy := true))
    case BeginFree => BeginFreeStep(u, s)
    case TurnFree(i) => TurnFreeStep(s, i)
    case BeginFlush => Some(Begin(s, Flushing(false)))
    case Take(i) => TakeStep(s, i)
    case SendBatch(i) => SendBatchStep(s, i)
  }

  function Steps(u: Usage): StepSystem<State, Action> {
    (s, a) => Step(u, s, a)
  }

  ghost predicate Reachable(u: Usage, s: State) {
    Reaches(Steps(u), INIT, s)
  }

  /** The payloads a call has in its hands. */
  function Held(c: Call): multiset<Payload> {
    match c
    case Routing(p) => multiset([p])
    case Sending(p) => multiset([p])
    case Buffering(p) => multiset([p])
    case Carrying(items) => multiset(items)
    case _ => multiset{}
  }

  function Underway(calls: seq<Call>): multiset<Payload> {
    if calls == [] then multiset{} else Underway(calls[..|calls| - 1]) + Held(calls[|calls| - 1])
  }

  /** No urgent payload is headed for the buffer. */
  predicate Headed(c: Call) {
    c.Buffering? ==> !Priority(c.p.status).Urgent?
  }

  ghost predicate Inv(s: State) {
    && Conserved(s.ledger, s.buffer, Underway(s.calls))
    && forall i | 0 <= i < |s.calls| :: Headed(s.calls[i])
  }

  /** What the other calls hold. */
  function Rest(calls: seq<Call>, i: nat): multiset<Payload>
    requires i < |calls|
  {
    Underway(calls[i := Over])
  }

  lemma SwapLast(a: multiset<Payload>, b: multiset<Payload>, c: multiset<Payload>)
    ensures a + b + c == a + c + b
  {
  }

  /** Calls that differ in one place, where one of them has empty hands. */
  lemma {:induction false} UnderwayDiffers(a: seq<Call>, b: seq<Call>, i: nat)
    requires i < |a| == |b| && Held(b[i]) == multiset{}
    requires forall j | 0 <= j < |a| && j != i :: a[j] == b[j]
    ensures Underway(a) == Underway(b) + Held(a[i])
  {
    var n := |a| - 1;
    if i < n {
      UnderwayDiffers(a[..n], b[..n], i);
      SwapLast(Underway(b[..n]), Held(a[i]), Held(a[n]));
    } else {
      assert a[..n] == b[..n];
    }
  }

  lemma UnderwaySplits(calls: seq<Call>, i: nat, c: Call)
    requires i < |calls|
    ensures Underway(calls[i := c]) == Rest(calls, i) + Held(c)
  {
    UnderwayDiffers(calls[i := c], calls[i := Over], i);
  }

  lemma CallsSplit(calls: seq<Call>, i: nat)
    requires i < |calls|
    ensures Underway(calls) == Rest(calls, i) + Held(calls[i])
  {
    assert calls[i := calls[i]] == calls;
    UnderwaySplits(calls, i, calls[i]);
  }

  lemma BeginUnderway(calls: seq<Call>, c: Call)
    ensures Underway(calls + [c]) == Underway(calls) + Held(c)
  {
    assert (calls + [c])[..|calls|] == calls;
  }

  /** Moving one call keeps the invariant when the books balance with what it now holds. */
  lemma MoveKeeps(s: State, i: nat, c: Call, t: State)
    requires Inv(s) && i < |s.calls| && t.calls == s.calls[i := c] && Headed(c)
    requires Conserved(t.ledger, t.buffer, Rest(s.calls, i) + Held(c))
    ensures Inv(t)
  {
    UnderwaySplits(s.calls, i, c);
  }

  /** A call with empty hands accounts for nothing. */
  lemma RestIsAll(calls: seq<Call>, i: nat)
    requires i < |calls| && Held(calls[i]) == multiset{}
    ensures Underway(calls) == Rest(calls, i) == Rest(calls, i) + Held(Over)
  {
    CallsSplit(calls, i);
  }

  lemma ActKeeps(s: State, i: nat, t: State)
    requires Inv(s) && ActStep(s, i) == Some(t)
    ensures Inv(t)
  {
    var p, rest := s.calls[i].p, Rest(s.calls, i);
    CallsSplit(s.calls, i);
    assert rest + multiset([p]) == rest + multiset{p} && rest + Held(Over) == rest;
    if s.calls[i].Sending? {
      SendConserves(s.ledger, s.buffer, rest, [p]);
    } else {
      assert Headed(s.calls[i]);
      StoreConserves(s.ledger, s.buffer, rest, p);
    }
    MoveKeeps(s, i, Over, t);
  }

  lemma TakenHolds(buffer: seq<Payload>)
    ensures Held(Taken(buffer)) == multiset(buffer)
  {
  }

  lemma TakeKeeps(s: State, i: nat, t: State)
    requires Inv(s) && TakeStep(s, i) == Some(t)
    ensures Inv(t)
  {
    var rest := Rest(s.calls, i);
    RestIsAll(s.calls, i);
    TakeConserves(s.ledger, s.buffer, rest);
    TakenHolds(s.buffer);
    assert Conserved(t.ledger, t.buffer, rest + Held(Taken(s.buffer)));
    MoveKeeps(s, i, Taken(s.buffer), t);
  }

  lemma EmptyHanded(rest: multiset<Payload>)
    ensures rest + Held(Over) == rest
  {
  }

  lemma SendBatchConserves(l: Ledger, buffer: seq<Payload>, calls: seq<Call>, i: nat)
    requires i < |calls| && calls[i].Carrying? && Conserved(l, buffer, Underway(calls))
    ensures Conserved(Sent(l, calls[i].items), buffer, Rest(calls, i) + Held(Over))
  {
    CallsSplit(calls, i);
    EmptyHanded(Rest(calls, i));
    SendConserves(l, buffer, Rest(calls, i), calls[i].items);
  }

  lemma SendBatchKeeps(s: State, i: nat, t: State)
    requires Inv(s) && SendBatchStep(s, i) == Some(t)
    ensures Inv(t)
  {
    SendBatchConserves(s.ledger, s.buffer, s.calls, i);
    MoveKeeps(s, i, Over, t);
  }

  lemma WebhookKeeps(u: Usage, s: State, p: Payload, t: State)
    requires Inv(s) && WebhookStep(u, s, p) == Some(t)
    ensures Inv(t)
  {
    var q := Normalise(p);
    BeginUnderway(s.calls, Routing(q));
    assert multiset([q]) == multiset{q};
    ArriveConserves(s.ledger, s.buffer, Underway(s.calls), q);
  }

  lemma BeginKeeps(s: State, c: Call, t: State)
    requires Inv(s) && Held(c) == multiset{} && Headed(c) && t == Begin(s, c)
    ensures Inv(t)
  {
    BeginUnderway(s.calls, c);
    assert Underway(s.calls) + multiset{} == Underway(s.calls);
  }

  lemma DecideKeeps(s: State, i: nat, t: State)
    requires Inv(s) && DecideStep(s, i) == Some(t)
    ensures Inv(t)
  {
    CallsSplit(s.calls, i);
    MoveKeeps(s, i, t.calls[i], t);
  }

  lemma SetBusyKeeps(s: State, t: State)
    requires Inv(s) && t == s.(busy := true)
    ensures Inv(t)
  {
  }

  lemma TurnFreeKeeps(s: State, i: nat, t: State)
    requires Inv(s) && TurnFreeStep(s, i) == Some(t)
    ensures Inv(t)
  {
    CallsSplit(s.calls, i);
    MoveKeeps(s, i, Flushing(true), t);
  }

  lemma StepKeeps(u: Usage, s: State, a: Action, t: State)
    requires Inv(s) && Step(u, s, a) == Some(t)
    ensures Inv(t)
  {
    match a
    case Webhook(p) => WebhookKeeps(u, s, p, t);
    case Decide(i) => DecideKeeps(s, i, t);
    case Act(i) => ActKeeps(s, i, t);
    case SetBusy => SetBusyKeeps(s, t);
    case BeginFree => BeginKeeps(s, Freeing, t);
    case TurnFree(i) => TurnFreeKeeps(s, i, t);
    case BeginFlush => BeginKeeps(s, Flushing(false), t);
    case Take(i) => TakeKeeps(s, i, t);
    case SendBatch(i) => SendBatchKeeps(s, i, t);
  }

  lemma {:induction false} RunKeeps(u: Usage, s: State, run: seq<Action>, t: State)
    requires Inv(s) && RunFrom(Steps(u), s, run) == Some(t)
    ensures Inv(t)
    decreases |run|
  {
    if run == [] {
    } else {
      var next := Step(u, s, run[0]).value;
      StepKeeps(u, s, run[0], next);
      RunKeeps(u, next, run[1..], t);
    }
  }

  /** Conservation over every interleaving. */
  lemma PayloadsAreConserved(u: Usage, s: State)
    requires Reachable(u, s)
    ensures s.ledger.routed ==
            multiset(Flatten(s.ledger.sent)) + multiset(s.buffer) + multiset(s.ledger.evicted) + Underway(s.calls)
    ensures s.buffer == LastOnes(s.ledger.stored) && |s.buffer| <= BUFFER_CAP
    ensures forall p | p in s.buffer || p in s.ledger.evicted :: !Priority(p.status).Urgent?
  {
    var run :| RunFrom(Steps(u), INIT, run) == Some(s);
    RunKeeps(u, INIT, run, s);
  }

  // ----- payloads left behind -----

  /** A free router with nothing under way holds only low-priority payloads back. */
  ghost predicate NothingLeftBehind(s: State) {
    !s.busy && (forall i | 0 <= i < |s.calls| :: s.calls[i] == Over) ==>
      forall p | p in s.buffer :: Priority(p.status).Low?
  }

  ghost predicate FlushAhead(calls: seq<Call>) {
    exists i :: 0 <= i < |calls| && calls[i] == Flushing(true)
  }

  ghost predicate Settled(s: State) {
    && (forall i | 0 <= i < |s.calls| && s.calls[i].Buffering? :: s.busy || Priority(s.calls[i].p.status).Low?)
    && (forall i, j | 0 <= i < |s.calls| && 0 <= j < |s.calls| :: !(IsRoute(s.calls[i]) && IsFree(s.calls[j])))
    && (s.busy || FlushAhead(s.calls) || forall p | p in s.buffer :: Priority(p.status).Low?)
  }

  /** A flush ahead stays ahead unless its own call moves. */
  lemma FlushStaysAhead(calls: seq<Call>, next: seq<Call>, i: nat)
    requires FlushAhead(calls) && |next| >= |calls|
    requires forall j | 0 <= j < |calls| && j != i :: next[j] == calls[j]
    requires i < |calls| ==> calls[i] != Flushing(true)
    ensures FlushAhead(next)
  {
    var j :| 0 <= j < |calls| && calls[j] == Flushing(true);
    assert next[j] == Flushing(true);
  }

  lemma RouteSettles(u: Usage, s: State, a: Action, t: State)
    requires !u.overlaps && Settled(s) && (a.Decide? || a.Act?) && Step(u, s, a) == Some(t)
    ensures Settled(t)
  {
    assert IsRoute(s.calls[a.call]);
  }

  lemma FlushSettles(u: Usage, s: State, a: Action, t: State)
    requires !u.overlaps && Settled(s) && (a.Take? || a.SendBatch?) && Step(u, s, a) == Some(t)
    ensures Settled(t)
  {
    if a.SendBatch? && FlushAhead(s.calls) { FlushStaysAhead(s.calls, t.calls, a.call); }
  }

  lemma TurnFreeSettles(u: Usage, s: State, i: nat, t: State)
    requires !u.overlaps && Settled(s) && Step(u, s, TurnFree(i)) == Some(t)
    ensures Settled(t)
  {
    assert t.calls[i] == Flushing(true);
    assert IsFree(s.calls[i]);
  }

  lemma BeginSettles(u: Usage, s: State, a: Action, t: State)
    requires !u.overlaps && Settled(s) && Step(u, s, a) == Some(t)
    requires a.Webhook? || a.BeginFree? || a.BeginFlush? || a.SetBusy?
    ensures Settled(t)
  {
    if FlushAhead(s.calls) { FlushStaysAhead(s.calls, t.calls, |s.calls|); }
  }

  lemma {:induction false} RunSettles(u: Usage, s: State, run: seq<Action>, t: State)
    requires !u.overlaps && Settled(s) && RunFrom(Steps(u), s, run) == Some(t)
    ensures Settled(t)
    decreases |run|
  {
    if run == [] {
    } else {
      var a := run[0];
      var next := Step(u, s, a).value;
      if a.Decide? || a.Act? { RouteSettles(u, s, a, next); }
      else if a.Take? || a.SendBatch? { FlushSettles(u, s, a, next); }
      else if a.TurnFree? { TurnFreeSettles(u, s, a.call, next); }
      else { BeginSettles(u, s, a, next); }
      RunSettles(u, next, run[1..], t);
    }
  }

  // ----- one call after the other -----

  /** The webhook's payload arrives and is found to go out or not. */
  lemma WebhookDecides(u: Usage, s: State, p: Payload) returns (t: State)
    requires WebhookStep(u, s, p).Some?
    ensures Reaches(Steps(u), s, t) && t.busy == s.busy && t.buffer == s.buffer
    ensures var q := Normalise(p);
            && t.calls == s.calls + [if GoesOut(q, s.busy) then Sending(q) else Buffering(q)]
            && t.ledger == s.ledger.(routed := s.ledger.routed + multiset{q})
  {
    var n, q := |s.calls|, Normalise(p);
    Stays(Steps(u), s);
    var s1 := WebhookStep(u, s, p).value;
    ReachNext(Steps(u), s, s, Webhook(p), s1);
    t := DecideStep(s1, n).value;
    ReachNext(Steps(u), s, s1, Decide(n), t);
  }

  /** A webhook on its own does what the handler does: blocked, failed and looping payloads go
      out, finished ones and those that wait for confirmation when free, and the rest is buffered. */
  lemma WebhookAlone(u: Usage, s: State, p: Payload) returns (t: State)
    requires u.overlaps || forall c | c in s.calls :: !IsFree(c)
    ensures Reaches(Steps(u), s, t) && t.busy == s.busy && t.calls == s.calls + [Over]
    ensures var q := p.(status := if p.loopDetected then "loop_detected" else p.status);
            var out := q.status in {"blocked", "failed", "loop_detected"}
                       || (q.status in {"done", "awaiting_confirm"} && !s.busy);
            && t.ledger.routed == s.ledger.routed + multiset{q}
            && t.ledger.sent == s.ledger.sent + (if out then [[q]] else [])
            && t.buffer == if out then s.buffer else Push(s.buffer, q)
  {
    var n := |s.calls|;
    var s1 := WebhookDecides(u, s, p);
    GoesOutExactly(Normalise(p), s.busy);
    t := ActStep(s1, n).value;
    ReachNext(Steps(u), s, s1, Act(n), t);
    assert t.calls == s.calls + [Over];
  }

  /** `SetFree` on its own: the router is free and one message carries what was buffered. */
  lemma SetFreeAlone(u: Usage, s: State) returns (t: State)
    requires u.overlaps || forall c | c in s.calls :: !IsRoute(c)
    ensures Reaches(Steps(u), s, t) && !t.busy && t.buffer == [] && t.calls == s.calls + [Over]
    ensures t.ledger.sent == s.ledger.sent + (if s.buffer == [] then [] else [s.buffer])
    ensures t.ledger.routed == s.ledger.routed && t.ledger.evicted == s.ledger.evicted
  {
    var n := |s.calls|;
    Stays(Steps(u), s);
    var s1 := BeginFreeStep(u, s).value;
    ReachNext(Steps(u), s, s, BeginFree, s1);
    var s2 := TurnFreeStep(s1, n).value;
    ReachNext(Steps(u), s, s1, TurnFree(n), s2);
    t := TakeStep(s2, n).value;
    ReachNext(Steps(u), s, s2, Take(n), t);
    if s.buffer != [] {
      var s3 := t;
      t := SendBatchStep(s3, n).value;
      ReachNext(Steps(u), s, s3, SendBatch(n), t);
    }
    assert t.calls == s.calls + [Over];
  }

  /** Busy, and one webhook has decided to buffer its payload. */
  lemma AboutToBuffer(u: Usage, p: Payload) returns (t: State)
    requires Normalise(p) == p && Priority(p.status).Normal?
    ensures Reachable(u, t) && t.busy && t.calls == [Buffering(p)] && t.buffer == []
  {
    Stays(Steps(u), INIT);
    var s1 := INIT.(busy := true);
    ReachNext(Steps(u), INIT, INIT, SetBusy, s1);
    var s2 := Begin(s1, Routing(p)).(ledger := s1.ledger.(routed := s1.ledger.routed + multiset{p}));
    ReachNext(Steps(u), INIT, s1, Webhook(p), s2);
    t := Move(s2, 0, Buffering(p));
    ReachNext(Steps(u), INIT, s2, Decide(0), t);
  }

  /** A whole `SetFree` on an empty buffer. */
  lemma Freed(u: Usage, s: State) returns (t: State)
    requires u.overlaps && Reachable(u, s) && s.buffer == []
    ensures Reachable(u, t)
    ensures t == s.(busy := false, calls := s.calls + [Over], ledger := s.ledger.(stored := []))
  {
    var n := |s.calls|;
    var s1 := Begin(s, Freeing);
    ReachNext(Steps(u), INIT, s, BeginFree, s1);
    var s2 := Move(s1, n, Flushing(true)).(busy := false);
    ReachNext(Steps(u), INIT, s1, TurnFree(n), s2);
    t := Move(s2, n, Over).(ledger := s2.ledger.(stored := []));
    ReachNext(Steps(u), INIT, s2, Take(n), t);
    assert t.calls == s.calls + [Over];
  }

  /** A webhook that read the busy flag just before `SetFree` buffers after its flush. */
  lemma OverlapLeavesBehind(u: Usage) returns (t: State)
    requires u.overlaps
    ensures Reachable(u, t) && !NothingLeftBehind(t)
  {
    var p := Payload("e", "done", "", "", "", false);
    var s := AboutToBuffer(u, p);
    var s1 := Freed(u, s);
    t := Move(s1, 0, Over).(buffer := Push(s1.buffer, p), ledger := Stored(s1.ledger, s1.buffer, p));
    ReachNext(Steps(u), INIT, s1, Act(0), t);
    assert p in t.buffer;
  }

  /** Only low-priority payloads stay behind in all runs exactly when no webhook overlaps `SetFree`. */
  lemma NothingLeftBehindExactly(u: Usage)
    ensures (forall s | Reachable(u, s) :: NothingLeftBehind(s)) <==> !u.overlaps
  {
    if u.overlaps {
      var s := OverlapLeavesBehind(u);
    } else {
      forall s | Reachable(u, s) ensures NothingLeftBehind(s) {
        var run :| RunFrom(Steps(u), INIT, run) == Some(s);
        RunSettles(u, INIT, run, s);
      }
    }
  }
}
