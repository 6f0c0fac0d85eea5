/** Cursor polling of an append-only lane: the poller passes the id of the last message
    it saw and gets what follows. */
module Polling {

  /** Where the answer to a poll starts: after the first message with the cursor's id, at
      the beginning for the empty cursor, at the end for an id the lane does not hold. */
  function Cut(ids: seq<string>, since: string): (k: nat)
    ensures k <= |ids|
    ensures since == "" ==> k == 0
    ensures since != "" && since !in ids ==> k == |ids|
    ensures since != "" && since in ids ==> k > 0 && ids[k - 1] == since && since !in ids[..k - 1]
  {
    if since == "" || ids == [] then 0
    else if ids[0] == since then 1
    else
      assert ids == [ids[0]] + ids[1..];
      var k := Cut(ids[1..], since);
      assert k > 0 ==> ids[..k] == [ids[0]] + ids[1..][..k - 1];
      1 + k
  }

  lemma CutIsEarly(ids: seq<string>, since: string, i: nat)
    requires i < |ids| && ids[i] == since != ""
    ensures Cut(ids, since) <= i + 1
  {
  }

  lemma CutIsFirst(ids: seq<string>, since: string, i: nat)
    requires i < |ids| && ids[i] == since != "" && forall j | 0 <= j < i :: ids[j] != since
    ensures Cut(ids, since) == i + 1
  {
  }

  /** `seen` holds the positions delivered so far, in order. */
  datatype Poller = Poller(cursor: string, seen: seq<nat>)

  const FRESH := Poller("", [])

  function Positions(from: nat, to: nat): seq<nat>
    requires from <= to
  {
    seq(to - from, i requires 0 <= i < to - from => from + i)
  }

  /** One poll while the lane holds its first `n` messages. */
  function Poll(ids: seq<string>, n: nat, p: Poller): Poller
    requires n <= |ids|
  {
    var k := Cut(ids[..n], p.cursor);
    if k == n then p else Poller(ids[n - 1], p.seen + Positions(k, n))
  }

  /** Lanes only grow, so a run polls at non-decreasing lengths. */
  ghost predicate IsSchedule(ids: seq<string>, ns: seq<nat>) {
    && (forall i | 0 <= i < |ns| :: ns[i] <= |ids|)
    && forall i, j | 0 <= i < j < |ns| :: ns[i] <= ns[j]
  }

  /** Polls at the lane lengths `ns`, with inserts in between. */
  function PollAll(ids: seq<string>, ns: seq<nat>): Poller
    requires IsSchedule(ids, ns)
  {
    if ns == [] then FRESH else Poll(ids, ns[|ns| - 1], PollAll(ids, ns[..|ns| - 1]))
  }

  function LastLength(ns: seq<nat>): nat {
    if ns == [] then 0 else ns[|ns| - 1]
  }

  /** After any polls the poller has had every message so far once, in lane order. */
  ghost predicate ExactlyOnce(ids: seq<string>) {
    forall ns | IsSchedule(ids, ns) :: PollAll(ids, ns).seen == Positions(0, LastLength(ns))
  }

  /** What a caller can check: no message has an empty id and no two share one. */
  ghost predicate Distinguishable(ids: seq<string>) {
    && (forall i | 0 <= i < |ids| :: ids[i] != "")
    && forall i, j | 0 <= i < j < |ids| :: ids[i] != ids[j]
  }

  /** A poll by the id of message m - 1 starts at message m. */
  lemma CutAfter(ids: seq<string>, m: nat, n: nat)
    requires Distinguishable(ids) && 0 < m <= n <= |ids|
    ensures Cut(ids[..n], ids[m - 1]) == m
  {
    assert ids[..n][m - 1] == ids[m - 1];
  }

  lemma {:induction false} PollsFollow(ids: seq<string>, ns: seq<nat>)
    requires Distinguishable(ids) && IsSchedule(ids, ns)
    ensures var n, p := LastLength(ns), PollAll(ids, ns);
            p.seen == Positions(0, n) && p.cursor == if n == 0 then "" else ids[n - 1]
  {
    if ns == [] {
    } else {
      var init := ns[..|ns| - 1];
      PollsFollow(ids, init);
      var m, n := LastLength(init), LastLength(ns);
      assert init != [] ==> m == ns[|ns| - 2];
      if m > 0 { CutAfter(ids, m, n); }
      assert Positions(0, n) == Positions(0, m) + Positions(m, n);
    }
  }

  lemma PolledTwice(ids: seq<string>, n: nat)
    requires 0 < n <= |ids|
    ensures PollAll(ids, [n, n]) == Poll(ids, n, Poller(ids[n - 1], Positions(0, n)))
  {
    assert [n][..0] == [] && [n, n][..1] == [n];
    assert PollAll(ids, []) == FRESH && FRESH.seen + Positions(0, n) == Positions(0, n);
    assert PollAll(ids, [n]) == Poll(ids, n, FRESH);
  }

  /** An empty id resets the cursor: the next poll delivers everything again. */
  lemma EmptyIdRepeats(ids: seq<string>, i: nat)
    requires i < |ids| && ids[i] == ""
    ensures !ExactlyOnce(ids)
  {
    var n := i + 1;
    PolledTwice(ids, n);
    assert |PollAll(ids, [n, n]).seen| == 2 * n;
    assert IsSchedule(ids, [n, n]);
  }

  /** A repeated id moves the cursor back to its first message. */
  lemma RepeatedIdRepeats(ids: seq<string>, i: nat, j: nat)
    requires i < j < |ids| && ids[i] == ids[j] != ""
    ensures !ExactlyOnce(ids)
  {
    var n := j + 1;
    PolledTwice(ids, n);
    assert ids[..n][i] == ids[j];
    var k := Cut(ids[..n], ids[j]);
    CutIsEarly(ids[..n], ids[j], i);
    assert |PollAll(ids, [n, n]).seen| == n + (n - k);
    assert IsSchedule(ids, [n, n]);
  }

  /** Polling is exactly-once under every interleaving exactly for distinct, non-empty ids. */
  lemma ExactlyOnceExactly(ids: seq<string>)
    ensures ExactlyOnce(ids) <==> Distinguishable(ids)
  {
    if Distinguishable(ids) {
      forall ns | IsSchedule(ids, ns) ensures PollAll(ids, ns).seen == Positions(0, LastLength(ns)) {
        PollsFollow(ids, ns);
      }
    } else if i :| 0 <= i < |ids| && ids[i] == "" {
      EmptyIdRepeats(ids, i);
    } else {
      var i, j :| 0 <= i < j < |ids| && ids[i] == ids[j];
      RepeatedIdRepeats(ids, i, j);
    }
  }
}
