/** The activity hub under concurrency: publishers, subscribers and closers interleave at
    every lock operation, map change, channel send and channel close. */
module HubProtocol {
  import opened Wrappers
  import opened ActivityHub
  import opened Runs

  type SubId = nat
  type TaskId = nat

  /** `queue` is what the subscriber has not read yet, `sent` all that was ever put in the
      channel, `dropped` what was not, with the queue that left no room for it. Events are
      named by their position in the log. */
  datatype Channel = Channel(
    key: string, closed: bool, queue: seq<nat>, sent: seq<nat>, dropped: map<nat, seq<nat>>)

  datatype Publisher =
    | Recording(apiKey: string)
    | Recorded(pos: nat)                     // in the ring, read lock wanted
    | Sending(pos: nat, left: set<SubId>, audience: set<SubId>)  // read lock held
    | Published(pos: nat, audience: set<SubId>)

  datatype Job = Subscribe(sub: SubId) | Close(sub: SubId)

  datatype WriterPc = Blocked | Locked | Changed | Unlocked | Gone

  datatype Writer = Writer(job: Job, pc: WriterPc)

  datatype Crash = SendOnClosed | CloseOfClosed

  /** `log` holds the api keys of the recorded events, `handles` the subscriptions that
      `Subscribe` has returned, `writer` the holder of the write lock. */
  datatype State = State(
    publishers: map<TaskId, Publisher>,
    writers: map<TaskId, Writer>,
    writer: Option<TaskId>,
    subs: set<SubId>,
    handles: set<SubId>,
    channels: map<SubId, Channel>,
    log: seq<string>,
    crash: Option<Crash>)

  const INIT := State(map[], map[], None, {}, {}, map[], [], None)

  /** What callers may do: publish concurrently, close one subscription repeatedly. */
  datatype Usage = Usage(overlaps: bool, recloses: bool)

  datatype Action =
    | BeginPublish(p: TaskId, apiKey: string)
    | Record(p: TaskId)
    | ReadLock(p: TaskId)
    | Send(p: TaskId, sub: SubId)
    | ReadUnlock(p: TaskId)
    | BeginSubscribe(w: TaskId, sub: SubId, key: string)
    | BeginClose(w: TaskId, sub: SubId)
    | Lock(w: TaskId)
    | Change(w: TaskId)
    | Unlock(w: TaskId)
    | CloseChannel(w: TaskId)
    | Receive(sub: SubId)

  predicate Idle(s: State) {
    forall p | p in s.publishers :: s.publishers[p].Published?
  }

  predicate Unread(s: State) {
    forall p | p in s.publishers :: !s.publishers[p].Sending?
  }

  predicate NotClosing(s: State, sub: SubId) {
    forall w | w in s.writers :: s.writers[w].job != Close(sub)
  }

  function BeginPublishStep(u: Usage, s: State, p: TaskId, apiKey: string): Option<State> {
    if p in s.publishers || (!u.overlaps && !Idle(s)) then None
    else Some(s.(publishers := s.publishers[p := Recording(apiKey)]))
  }

  function RecordStep(s: State, p: TaskId): Option<State> {
    if p !in s.publishers || !s.publishers[p].Recording? then None
    else Some(s.(publishers := s.publishers[p := Recorded(|s.log|)], log := s.log + [s.publishers[p].apiKey]))
  }

  function ReadLockStep(s: State, p: TaskId): Option<State> {
    if p !in s.publishers || !s.publishers[p].Recorded? || s.writer.Some? then None
    else Some(s.(publishers := s.publishers[p := Sending(s.publishers[p].pos, s.subs, s.subs)]))
  }

  /** A non-blocking send: dropped when the queue is full, a panic when the channel is closed. */
  function Offered(c: Channel, pos: nat): Channel {
    if |c.queue| < QUEUE_SIZE then c.(queue := c.queue + [pos], sent := c.sent + [pos])
    else c.(dropped := c.dropped[pos := c.queue])
  }

  function SendStep(s: State, p: TaskId, sub: SubId): Option<State> {
    if p !in s.publishers || !s.publishers[p].Sending? || sub !in s.publishers[p].left then None
    else if sub !in s.channels || s.publishers[p].pos >= |s.log| then None
    else
      var Sending(pos, left, audience) := s.publishers[p];
      var t := s.(publishers := s.publishers[p := Sending(pos, left - {sub}, audience)]);
      var c := s.channels[sub];
      Some(if !Matches(c.key, s.log[pos]) then t
           else if c.closed then t.(crash := Some(SendOnClosed))
           else t.(channels := s.channels[sub := Offered(c, pos)]))
  }

  function ReadUnlockStep(s: State, p: TaskId): Option<State> {
    if p !in s.publishers || !s.publishers[p].Sending? || s.publishers[p].left != {} then None
    else Some(s.(publishers := s.publishers[p := Published(s.publishers[p].pos, s.publishers[p].audience)]))
  }

  function BeginSubscribeStep(s: State, w: TaskId, sub: SubId, key: string): Option<State> {
    if w in s.writers || sub in s.channels then None
    else Some(s.(writers := s.writers[w := Writer(Subscribe(sub), Blocked)],
                 channels := s.channels[sub := Channel(key, false, [], [], map[])]))
  }

  function BeginCloseStep(u: Usage, s: State, w: TaskId, sub: SubId): Option<State> {
    if w in s.writers || sub !in s.handles || (!u.recloses && !NotClosing(s, sub)) then None
    else Some(s.(writers := s.writers[w := Writer(Close(sub), Blocked)]))
  }

  function Advance(s: State, w: TaskId, pc: WriterPc): State
    requires w in s.writers
  {
    s.(writers := s.writers[w := s.writers[w].(pc := pc)])
  }

  function LockStep(s: State, w: TaskId): Option<State> {
    if w !in s.writers || s.writers[w].pc != Blocked || s.writer.Some? || !Unread(s) then None
    else Some(Advance(s, w, Locked).(writer := Some(w)))
  }

  function ChangeStep(s: State, w: TaskId): Option<State> {
    if w !in s.writers || s.writers[w].pc != Locked then None
    else match s.writers[w].job
      case Subscribe(sub) => Some(Advance(s, w, Changed).(subs := s.subs + {sub}))
      case Close(sub) => Some(Advance(s, w, Changed).(subs := s.subs - {sub}))
  }

  function UnlockStep(s: State, w: TaskId): Option<State> {
    if w !in s.writers || s.writers[w].pc != Changed then None
    else match s.writers[w].job
      case Subscribe(sub) => Some(Advance(s, w, Gone).(writer := None, handles := s.handles + {sub}))
      case Close(_) => Some(Advance(s, w, Unlocked).(writer := None))
  }

  function CloseChannelStep(s: State, w: TaskId): Option<State> {
    if w !in s.writers || s.writers[w].pc != Unlocked || s.writers[w].job.sub !in s.channels then None
    else
      var sub := s.writers[w].job.sub;
      if s.channels[sub].closed then Some(Advance(s, w, Gone).(crash := Some(CloseOfClosed)))
      else Some(Advance(s, w, Gone).(channels := s.channels[sub := s.channels[sub].(closed := true)]))
  }

  function ReceiveStep(s: State, sub: SubId): Option<State> {
    if sub !in s.channels || s.channels[sub].queue == [] then None
    else Some(s.(channels := s.channels[sub := s.channels[sub].(queue := s.channels[sub].queue[1..])]))
  }

  /** A panic ends the program: nothing is enabled after a crash. */
  function Step(u: Usage, s: State, a: Action): Option<State> {
    if s.crash.Some? then None
    else match a
      case BeginPublish(p, apiKey) => BeginPublishStep(u, s, p, apiKey)
      case Record(p) => RecordStep(s, p)
      case ReadLock(p) => ReadLockStep(s, p)
      case Send(p, sub) => SendStep(s, p, sub)
      case ReadUnlock(p) => ReadUnlockStep(s, p)
      case BeginSubscribe(w, sub, key) => BeginSubscribeStep(s, w, sub, key)
      case BeginClose(w, sub) => BeginCloseStep(u, s, w, sub)
      case Lock(w) => LockStep(s, w)
      case Change(w) => ChangeStep(s, w)
      case Unlock(w) => UnlockStep(s, w)
      case CloseChannel(w) => CloseChannelStep(s, w)
      case Receive(sub) => ReceiveStep(s, sub)
  }

  function Steps(u: Usage): StepSystem<State, Action> {
    (s, a) => Step(u, s, a)
  }

  ghost predicate Reachable(u: Usage, s: State) {
    Reaches(Steps(u), INIT, s)
  }

  // ----- the locking discipline -----

  predicate InLock(pc: WriterPc) {
    pc.Locked? || pc.Changed?
  }

  /** Readers and the one writer exclude each other, and readers see only live subscribers. */
  ghost predicate LockHeld(s: State) {
    && (s.writer.Some? ==> s.writer.value in s.writers)
    && (forall w | w in s.writers :: InLock(s.writers[w].pc) <==> s.writer == Some(w))
    && (forall p | p in s.publishers && s.publishers[p].Sending? ::
          s.writer == None && s.publishers[p].left <= s.subs && s.publishers[p].pos < |s.log|)
    && (forall p | p in s.publishers && s.publishers[p].Recorded? :: s.publishers[p].pos < |s.log|)
  }

  /** A subscription is inserted before its handle exists and closed only through the handle. */
  predicate JobSound(s: State, w: Writer) {
    && w.job.sub in s.channels
    && (w.job.Close? ==> w.job.sub in s.handles && (w.pc.Blocked? || w.pc.Locked? || w.job.sub !in s.subs))
    && (w.job.Subscribe? ==> !w.pc.Unlocked? && (w.pc.Gone? <==> w.job.sub in s.handles))
  }

  ghost predicate JobsSound(s: State) {
    forall w | w in s.writers :: JobSound(s, s.writers[w])
  }

  ghost predicate ClosedBy(s: State, x: SubId) {
    exists w :: w in s.writers && s.writers[w] == Writer(Close(x), Gone)
  }

  ghost predicate ChannelsSound(s: State) {
    && s.subs <= s.channels.Keys && s.handles <= s.channels.Keys
    && forall x | x in s.channels && s.channels[x].closed ::
         x in s.handles && x !in s.subs && ClosedBy(s, x)
  }

  /** No subscription is inserted twice, nor closed twice unless callers do so. */
  ghost predicate JobsUnique(u: Usage, s: State) {
    forall v, w | v in s.writers && w in s.writers && s.writers[v].job == s.writers[w].job ::
      v == w || (u.recloses && s.writers[v].job.Close?)
  }

  ghost predicate Inv(u: Usage, s: State) {
    && s.crash != Some(SendOnClosed) && (u.recloses || s.crash == None)
    && LockHeld(s) && JobsSound(s) && ChannelsSound(s) && JobsUnique(u, s)
  }

  lemma NewSubscriberJobs(u: Usage, s: State, w: TaskId, x: SubId, key: string, t: State)
    requires Inv(u, s) && BeginSubscribeStep(s, w, x, key) == Some(t)
    ensures JobsSound(t) && JobsUnique(u, t)
  {
  }

  lemma NewSubscriberChannels(u: Usage, s: State, w: TaskId, x: SubId, key: string, t: State)
    requires Inv(u, s) && BeginSubscribeStep(s, w, x, key) == Some(t)
    ensures ChannelsSound(t)
  {
    forall y | y in t.channels && t.channels[y].closed ensures ClosedBy(t, y) {
      var v :| v in s.writers && s.writers[v] == Writer(Close(y), Gone);
      assert t.writers[v] == s.writers[v];
    }
  }

  lemma BeginSubscribeKeeps(u: Usage, s: State, w: TaskId, x: SubId, key: string, t: State)
    requires Inv(u, s) && BeginSubscribeStep(s, w, x, key) == Some(t)
    ensures Inv(u, t)
  {
    NewSubscriberJobs(u, s, w, x, key, t);
    NewSubscriberChannels(u, s, w, x, key, t);
  }

  lemma BeginCloseKeeps(u: Usage, s: State, w: TaskId, x: SubId, t: State)
    requires Inv(u, s) && BeginCloseStep(u, s, w, x) == Some(t)
    ensures Inv(u, t)
  {
  }

  lemma LockKeeps(u: Usage, s: State, w: TaskId, t: State)
    requires Inv(u, s) && LockStep(s, w) == Some(t)
    ensures Inv(u, t)
  {
  }

  lemma ChangeKeeps(u: Usage, s: State, w: TaskId, t: State)
    requires Inv(u, s) && ChangeStep(s, w) == Some(t)
    ensures Inv(u, t)
  {
    forall v | v in t.writers ensures JobSound(t, t.writers[v]) {
      assert JobSound(s, s.writers[v]) && JobSound(s, s.writers[w]);
    }
  }

  lemma UnlockKeeps(u: Usage, s: State, w: TaskId, t: State)
    requires Inv(u, s) && UnlockStep(s, w) == Some(t)
    ensures Inv(u, t)
  {
    forall v | v in t.writers ensures JobSound(t, t.writers[v]) {
      assert JobSound(s, s.writers[v]) && JobSound(s, s.writers[w]);
    }
  }

  lemma ChannelCloses(u: Usage, s: State, w: TaskId, x: SubId, t: State)
    requires Inv(u, s) && w in s.writers && s.writers[w] == Writer(Close(x), Unlocked)
    requires x in s.channels && t == Advance(s, w, Gone).(channels := s.channels[x := s.channels[x].(closed := true)])
    ensures Inv(u, t)
  {
    assert JobSound(s, s.writers[w]);
    assert t.writers[w] == Writer(Close(x), Gone) && ClosedBy(t, x);
  }

  /** A channel found closed was closed by another writer, so its handle was closed twice. */
  lemma SecondClose(u: Usage, s: State, w: TaskId, x: SubId, t: State)
    requires Inv(u, s) && w in s.writers && s.writers[w] == Writer(Close(x), Unlocked)
    requires x in s.channels && s.channels[x].closed && t == Advance(s, w, Gone).(crash := Some(CloseOfClosed))
    ensures Inv(u, t)
  {
    var v :| v in s.writers && s.writers[v] == Writer(Close(x), Gone);
    assert v != w && u.recloses;
    assert JobSound(s, s.writers[w]);
  }

  lemma CloseChannelKeeps(u: Usage, s: State, w: TaskId, t: State)
    requires Inv(u, s) && CloseChannelStep(s, w) == Some(t)
    ensures Inv(u, t)
  {
    assert JobSound(s, s.writers[w]);
    var x := s.writers[w].job.sub;
    if s.channels[x].closed { SecondClose(u, s, w, x, t); } else { ChannelCloses(u, s, w, x, t); }
  }

  lemma SendKeeps(u: Usage, s: State, p: TaskId, x: SubId, t: State)
    requires Inv(u, s) && SendStep(s, p, x) == Some(t)
    ensures Inv(u, t)
  {
  }

  lemma PublisherKeeps(u: Usage, s: State, a: Action, t: State)
    requires Inv(u, s) && Step(u, s, a) == Some(t)
    requires a.BeginPublish? || a.Record? || a.ReadLock? || a.ReadUnlock? || a.Receive?
    ensures Inv(u, t)
  {
  }

  lemma StepKeeps(u: Usage, s: State, a: Action, t: State)
    requires Inv(u, s) && Step(u, s, a) == Some(t)
    ensures Inv(u, t)
  {
    match a
    case Send(p, x) => SendKeeps(u, s, p, x, t);
    case BeginSubscribe(w, x, key) => BeginSubscribeKeeps(u, s, w, x, key, t);
    case BeginClose(w, x) => BeginCloseKeeps(u, s, w, x, t);
    case Lock(w) => LockKeeps(u, s, w, t);
    case Change(w) => ChangeKeeps(u, s, w, t);
    case Unlock(w) => UnlockKeeps(u, s, w, t);
    case CloseChannel(w) => CloseChannelKeeps(u, s, w, t);
    case _ => PublisherKeeps(u, s, a, t);
  }

  lemma {:induction false} RunKeeps(u: Usage, s: State, run: seq<Action>, t: State)
    requires Inv(u, s) && RunFrom(Steps(u), s, run) == Some(t)
    ensures Inv(u, t)
    decreases |run|
  {
    if run == [] {
    } else {
      var next := Step(u, s, run[0]).value;
      StepKeeps(u, s, run[0], next);
      RunKeeps(u, next, run[1..], t);
    }
  }

  lemma ReachableIsSound(u: Usage, s: State)
    requires Reachable(u, s)
    ensures Inv(u, s)
  {
    var run :| RunFrom(Steps(u), INIT, run) == Some(s);
    RunKeeps(u, INIT, run, s);
  }

  // ----- what subscribers see -----

  ghost predicate Increasing(ps: seq<nat>) {
    forall i, j | 0 <= i < j < |ps| :: ps[i] < ps[j]
  }

  /** Unread events are the newest ones sent, at most 64, and all sent events match the key. */
  ghost predicate StreamSound(c: Channel, log: seq<string>) {
    && |c.queue| <= QUEUE_SIZE && |c.queue| <= |c.sent| && c.queue == c.sent[|c.sent| - |c.queue|..]
    && forall i | 0 <= i < |c.sent| :: c.sent[i] < |log| && Matches(c.key, log[c.sent[i]])
  }

  ghost predicate StreamsSound(s: State) {
    forall x | x in s.channels :: StreamSound(s.channels[x], s.log)
  }

  /** Every subscriber gets its events in the order of the ring, none twice. */
  ghost predicate InOrder(s: State) {
    forall x | x in s.channels :: Increasing(s.channels[x].sent)
  }

  ghost predicate AllBefore(ps: seq<nat>, pos: nat) {
    forall i | 0 <= i < |ps| :: ps[i] < pos
  }

  ghost predicate AtMostOne(s: State) {
    forall p, q | p in s.publishers && q in s.publishers ::
      s.publishers[p].Published? || s.publishers[q].Published? || p == q
  }

  /** A publisher under way holds the newest event, and those it has yet to serve lack it. */
  ghost predicate Newest(p: Publisher, channels: map<SubId, Channel>, log: seq<string>) {
    match p
    case Recorded(pos) => pos == |log| - 1 && forall x | x in channels :: AllBefore(channels[x].sent, pos)
    case Sending(pos, left, _) =>
      pos == |log| - 1 && forall x | x in channels && x in left :: AllBefore(channels[x].sent, pos)
    case _ => true
  }

  ghost predicate OnePublisher(s: State) {
    AtMostOne(s) && forall p | p in s.publishers :: Newest(s.publishers[p], s.channels, s.log)
  }

  lemma OfferAppends(c: Channel, pos: nat)
    requires |c.queue| <= |c.sent| && c.queue == c.sent[|c.sent| - |c.queue|..]
    ensures var d := Offered(c, pos);
            |d.queue| <= |d.sent| && d.queue == d.sent[|d.sent| - |d.queue|..]
  {
    var d := Offered(c, pos);
    if |c.queue| < QUEUE_SIZE {
      assert d.sent[|d.sent| - |d.queue|..] == c.sent[|c.sent| - |c.queue|..] + [pos];
    }
  }

  lemma OfferKeeps(c: Channel, log: seq<string>, pos: nat)
    requires StreamSound(c, log) && pos < |log| && Matches(c.key, log[pos])
    ensures StreamSound(Offered(c, pos), log)
    ensures Increasing(c.sent) && AllBefore(c.sent, pos) ==> Increasing(Offered(c, pos).sent)
  {
    OfferAppends(c, pos);
  }

  lemma StreamKept(u: Usage, s: State, a: Action, t: State, x: SubId)
    requires Step(u, s, a) == Some(t) && x in t.channels && (x in s.channels ==> StreamSound(s.channels[x], s.log))
    ensures StreamSound(t.channels[x], t.log)
  {
    if a.Send? && x in s.channels && t.channels[x] != s.channels[x] {
      OfferKeeps(s.channels[x], s.log, s.publishers[a.p].pos);
    }
  }

  lemma StreamsKept(u: Usage, s: State, a: Action, t: State)
    requires StreamsSound(s) && Step(u, s, a) == Some(t)
    ensures StreamsSound(t)
  {
    forall x | x in t.channels ensures StreamSound(t.channels[x], t.log) {
      StreamKept(u, s, a, t, x);
    }
  }

  lemma SendKeepsOrder(s: State, p: TaskId, x: SubId, t: State)
    requires StreamsSound(s) && InOrder(s) && OnePublisher(s) && SendStep(s, p, x) == Some(t)
    ensures InOrder(t)
  {
    var c, pos := s.channels[x], s.publishers[p].pos;
    assert Newest(s.publishers[p], s.channels, s.log) && Increasing(c.sent);
    if Matches(c.key, s.log[pos]) {
      assert StreamSound(c, s.log);
      OfferKeeps(c, s.log, pos);
    }
  }

  lemma OrderKept(u: Usage, s: State, a: Action, t: State)
    requires StreamsSound(s) && OnePublisher(s) && InOrder(s) && Step(u, s, a) == Some(t)
    ensures InOrder(t)
  {
    match a
    case Send(p, x) => SendKeepsOrder(s, p, x, t);
    case _ =>
  }

  lemma AtMostOneKept(u: Usage, s: State, a: Action, t: State)
    requires !u.overlaps && AtMostOne(s) && Step(u, s, a) == Some(t)
    ensures AtMostOne(t)
  {
  }

  /** A publisher that stays put, while channels keep what was sent or start empty. */
  lemma NewestUnmoved(p: Publisher, s: State, t: State)
    requires Newest(p, s.channels, s.log) && t.log == s.log
    requires forall x | x in t.channels ::
               (x in s.channels && t.channels[x].sent == s.channels[x].sent) || t.channels[x].sent == []
    ensures Newest(p, t.channels, t.log)
  {
  }

  /** Steps of writers and readers of channels send nothing. */
  lemma NothingSent(u: Usage, s: State, a: Action, t: State)
    requires Step(u, s, a) == Some(t)
    requires !a.BeginPublish? && !a.Record? && !a.ReadLock? && !a.Send? && !a.ReadUnlock?
    ensures t.log == s.log && t.publishers == s.publishers
    ensures forall x | x in t.channels ::
              (x in s.channels && t.channels[x].sent == s.channels[x].sent) || t.channels[x].sent == []
  {
  }

  lemma NewestOfPublisher(u: Usage, s: State, a: Action, t: State, p: TaskId)
    requires AtMostOne(s) && Step(u, s, a) == Some(t) && (a.BeginPublish? || a.ReadLock? || a.ReadUnlock?)
    requires p in t.publishers && (p in s.publishers ==> Newest(s.publishers[p], s.channels, s.log))
    ensures Newest(t.publishers[p], t.channels, t.log)
  {
  }

  lemma NewestRecorded(s: State, p: TaskId, q: TaskId, t: State)
    requires StreamsSound(s) && AtMostOne(s) && RecordStep(s, q) == Some(t)
    requires p in s.publishers && Newest(s.publishers[p], s.channels, s.log)
    ensures Newest(t.publishers[p], t.channels, t.log)
  {
    forall x | x in t.channels ensures AllBefore(t.channels[x].sent, |s.log|) {
      assert StreamSound(s.channels[x], s.log);
    }
  }

  lemma NewestSending(s: State, p: TaskId, q: TaskId, x: SubId, t: State)
    requires AtMostOne(s) && SendStep(s, q, x) == Some(t)
    requires p in s.publishers && Newest(s.publishers[p], s.channels, s.log)
    ensures Newest(t.publishers[p], t.channels, t.log)
  {
  }

  /** Other publishers are past their sends, so only the one itself can change its standing. */
  lemma NewestKept(u: Usage, s: State, a: Action, t: State, p: TaskId)
    requires StreamsSound(s) && AtMostOne(s) && Step(u, s, a) == Some(t)
    requires p in t.publishers && (p in s.publishers ==> Newest(s.publishers[p], s.channels, s.log))
    ensures Newest(t.publishers[p], t.channels, t.log)
  {
    if a.Record? {
      NewestRecorded(s, p, a.p, t);
    } else if a.Send? {
      NewestSending(s, p, a.p, a.sub, t);
    } else if a.BeginPublish? || a.ReadLock? || a.ReadUnlock? {
      NewestOfPublisher(u, s, a, t, p);
    } else {
      NothingSent(u, s, a, t);
      NewestUnmoved(s.publishers[p], s, t);
    }
  }

  lemma OnePublisherKept(u: Usage, s: State, a: Action, t: State)
    requires !u.overlaps && StreamsSound(s) && OnePublisher(s) && Step(u, s, a) == Some(t)
    ensures OnePublisher(t)
  {
    AtMostOneKept(u, s, a, t);
    forall p | p in t.publishers ensures Newest(t.publishers[p], t.channels, t.log) {
      NewestKept(u, s, a, t, p);
    }
  }

  /** The channel has the event, or had 64 pending, or the event is none of its business. */
  ghost predicate Served(c: Channel, log: seq<string>, pos: nat) {
    pos < |log| && (!Matches(c.key, log[pos]) || pos in c.sent || (pos in c.dropped && |c.dropped[pos]| == QUEUE_SIZE))
  }

  /** Everyone a publisher has dealt with is served. */
  ghost predicate AudienceServed(p: Publisher, channels: map<SubId, Channel>, log: seq<string>) {
    match p
    case Sending(pos, left, audience) =>
      forall x | x in audience && x !in left :: x in channels && Served(channels[x], log, pos)
    case Published(pos, audience) => forall x | x in audience :: x in channels && Served(channels[x], log, pos)
    case _ => true
  }

  lemma ServedStays(u: Usage, s: State, a: Action, t: State, x: SubId, pos: nat)
    requires StreamsSound(s) && Step(u, s, a) == Some(t) && x in s.channels && Served(s.channels[x], s.log, pos)
    ensures x in t.channels && Served(t.channels[x], t.log, pos)
  {
    assert StreamSound(s.channels[x], s.log);
  }

  /** A send serves its subscriber: the channel is open, for its reader is in the lock. */
  lemma SendServes(u: Usage, s: State, p: TaskId, x: SubId, t: State)
    requires Inv(u, s) && s.crash == None && StreamsSound(s) && SendStep(s, p, x) == Some(t)
    ensures x in t.channels && Served(t.channels[x], t.log, s.publishers[p].pos)
  {
    assert StreamSound(s.channels[x], s.log);
  }

  /** The publisher has dealt with the subscriber. */
  predicate Offers(p: Publisher, x: SubId) {
    (p.Sending? && x in p.audience && x !in p.left) || (p.Published? && x in p.audience)
  }

  /** A subscriber is dealt with by its own send, and stays so. */
  lemma OffersBefore(u: Usage, s: State, a: Action, t: State, p: TaskId, x: SubId)
    requires Step(u, s, a) == Some(t) && p in t.publishers && Offers(t.publishers[p], x)
    ensures p in s.publishers
    ensures if a == Send(p, x) then s.publishers[p].Sending? && s.publishers[p].pos == t.publishers[p].pos
            else Offers(s.publishers[p], x) && s.publishers[p].pos == t.publishers[p].pos
  {
  }

  lemma SubscriberKept(u: Usage, s: State, a: Action, t: State, p: TaskId, x: SubId)
    requires Inv(u, s) && StreamsSound(s) && Step(u, s, a) == Some(t) && p in t.publishers
    requires p in s.publishers ==> AudienceServed(s.publishers[p], s.channels, s.log)
    requires Offers(t.publishers[p], x)
    ensures x in t.channels && Served(t.channels[x], t.log, t.publishers[p].pos)
  {
    OffersBefore(u, s, a, t, p, x);
    if a == Send(p, x) {
      SendServes(u, s, p, x, t);
    } else {
      ServedStays(u, s, a, t, x, t.publishers[p].pos);
    }
  }

  lemma AudienceKept(u: Usage, s: State, a: Action, t: State, p: TaskId)
    requires Inv(u, s) && StreamsSound(s) && Step(u, s, a) == Some(t) && p in t.publishers
    requires p in s.publishers ==> AudienceServed(s.publishers[p], s.channels, s.log)
    ensures AudienceServed(t.publishers[p], t.channels, t.log)
  {
    var q := t.publishers[p];
    if q.Sending? || q.Published? {
      forall x | x in q.audience && (q.Sending? ==> x !in q.left)
        ensures x in t.channels && Served(t.channels[x], t.log, q.pos)
      {
        SubscriberKept(u, s, a, t, p, x);
      }
    }
  }

  lemma {:induction false} AudiencesStay(u: Usage, s: State, run: seq<Action>, t: State)
    requires Inv(u, s) && StreamsSound(s) && RunFrom(Steps(u), s, run) == Some(t)
    requires forall p | p in s.publishers :: AudienceServed(s.publishers[p], s.channels, s.log)
    ensures forall p | p in t.publishers :: AudienceServed(t.publishers[p], t.channels, t.log)
    decreases |run|
  {
    if run == [] {
    } else {
      var next := Step(u, s, run[0]).value;
      StepKeeps(u, s, run[0], next);
      StreamsKept(u, s, run[0], next);
      forall p | p in next.publishers ensures AudienceServed(next.publishers[p], next.channels, next.log) {
        AudienceKept(u, s, run[0], next, p);
      }
      AudiencesStay(u, next, run[1..], t);
    }
  }

  lemma {:induction false} StreamsStay(u: Usage, s: State, run: seq<Action>, t: State)
    requires Inv(u, s) && StreamsSound(s) && RunFrom(Steps(u), s, run) == Some(t)
    requires u.overlaps || (OnePublisher(s) && InOrder(s))
    ensures StreamsSound(t) && (u.overlaps || InOrder(t))
    decreases |run|
  {
    if run == [] {
    } else {
      var next := Step(u, s, run[0]).value;
      StepKeeps(u, s, run[0], next);
      StreamsKept(u, s, run[0], next);
      if !u.overlaps {
        OrderKept(u, s, run[0], next);
        OnePublisherKept(u, s, run[0], next);
      }
      StreamsStay(u, next, run[1..], t);
    }
  }

  // ----- theorems -----

  /** No interleaving, however often handles are closed, sends on a closed channel. */
  lemma NeverSendsOnClosed(u: Usage, s: State)
    requires Reachable(u, s)
    ensures s.crash != Some(SendOnClosed)
    ensures forall p, x | p in s.publishers && s.publishers[p].Sending? && x in s.publishers[p].left ::
              x in s.channels && !s.channels[x].closed
  {
    ReachableIsSound(u, s);
  }

  /** Pending events are the unread tail of those sent, at most 64, and all match the key. */
  lemma StreamsAreSound(u: Usage, s: State)
    requires Reachable(u, s)
    ensures StreamsSound(s)
    ensures forall x | x in s.channels ::
              var c := s.channels[x];
              && |c.queue| <= 64 && (exists k | 0 <= k <= |c.sent| :: c.queue == c.sent[k..])
              && forall i | 0 <= i < |c.sent| ::
                   c.sent[i] < |s.log| && (c.key == "" || s.log[c.sent[i]] == "" || s.log[c.sent[i]] == c.key)
  {
    var run :| RunFrom(Steps(u), INIT, run) == Some(s);
    StreamsStay(u, INIT, run, s);
  }

  lemma AudienceIsServed(u: Usage, s: State, p: TaskId, x: SubId)
    requires Reachable(u, s) && p in s.publishers && s.publishers[p].Published? && x in s.publishers[p].audience
    ensures x in s.channels && Served(s.channels[x], s.log, s.publishers[p].pos)
  {
    var run :| RunFrom(Steps(u), INIT, run) == Some(s);
    AudiencesStay(u, INIT, run, s);
    assert AudienceServed(s.publishers[p], s.channels, s.log);
  }

  /** A publish past its read lock keeps its event and its audience. */
  predicate OnItsWay(p: Publisher, pos: nat, audience: set<SubId>) {
    (p.Sending? || p.Published?) && p.pos == pos && p.audience == audience
  }

  lemma {:induction false} AudienceStays(
      u: Usage, s: State, run: seq<Action>, t: State, p: TaskId, pos: nat, audience: set<SubId>)
    requires RunFrom(Steps(u), s, run) == Some(t) && p in s.publishers && OnItsWay(s.publishers[p], pos, audience)
    ensures p in t.publishers && OnItsWay(t.publishers[p], pos, audience)
    decreases |run|
  {
    if run == [] {
    } else {
      AudienceStays(u, Step(u, s, run[0]).value, run[1..], t, p, pos, audience);
    }
  }

  /** Channels keep their key, and the log only grows. */
  ghost predicate Remembers(s: State, t: State) {
    s.log <= t.log && forall x | x in s.channels :: x in t.channels && t.channels[x].key == s.channels[x].key
  }

  lemma StepRemembers(u: Usage, s: State, a: Action, t: State)
    requires Step(u, s, a) == Some(t)
    ensures Remembers(s, t)
  {
  }

  lemma {:induction false} RunRemembers(u: Usage, s: State, run: seq<Action>, t: State)
    requires RunFrom(Steps(u), s, run) == Some(t)
    ensures Remembers(s, t)
    decreases |run|
  {
    if run == [] {
    } else {
      var next := Step(u, s, run[0]).value;
      StepRemembers(u, s, run[0], next);
      RunRemembers(u, next, run[1..], t);
    }
  }

  /** The whole of a publish: every subscriber present when it takes the read lock whose key
      matches has been sent the event when it is over, or had 64 pending when its turn came. */
  lemma NothingIsMissed(u: Usage, s: State, p: TaskId, locked: State, run: seq<Action>, t: State, x: SubId)
    requires Reachable(u, s) && Step(u, s, ReadLock(p)) == Some(locked) && RunFrom(Steps(u), locked, run) == Some(t)
    requires p in t.publishers && t.publishers[p].Published? && x in s.subs
    ensures var pos := s.publishers[p].pos;
            && x in t.channels && pos < |t.log|
            && (t.channels[x].key == "" || t.log[pos] == "" || t.log[pos] == t.channels[x].key ==>
                  pos in t.channels[x].sent
                  || (pos in t.channels[x].dropped && |t.channels[x].dropped[pos]| == 64))
  {
    AudienceStays(u, locked, run, t, p, s.publishers[p].pos, s.subs);
    ReachNext(Steps(u), INIT, s, ReadLock(p), locked);
    RunsJoin(Steps(u), INIT, locked, t);
    AudienceIsServed(u, t, p, x);
  }

  /** Whatever happens after a `Subscribe` began, its channel gets no other key's event. */
  lemma SubscribersAreScoped(u: Usage, s: State, w: TaskId, x: SubId, key: string,
                             begun: State, run: seq<Action>, t: State)
    requires Reachable(u, s) && Step(u, s, BeginSubscribe(w, x, key)) == Some(begun)
    requires RunFrom(Steps(u), begun, run) == Some(t)
    ensures x in t.channels
    ensures forall i | 0 <= i < |t.channels[x].sent| ::
              var pos := t.channels[x].sent[i];
              pos < |t.log| && (key == "" || t.log[pos] == "" || t.log[pos] == key)
    ensures t.channels[x].key == key
  {
    RunRemembers(u, begun, run, t);
    ReachNext(Steps(u), INIT, s, BeginSubscribe(w, x, key), begun);
    RunsJoin(Steps(u), INIT, begun, t);
    StreamsAreSound(u, t);
  }

  /** The publisher's event is, or will be, recorded under this key. */
  predicate Carries(p: Publisher, log: seq<string>, apiKey: string) {
    if p.Recording? then p.apiKey == apiKey else p.pos < |log| && log[p.pos] == apiKey
  }

  lemma CarriesStays(u: Usage, s: State, a: Action, t: State, p: TaskId, apiKey: string)
    requires Step(u, s, a) == Some(t) && p in s.publishers && Carries(s.publishers[p], s.log, apiKey)
    ensures p in t.publishers && Carries(t.publishers[p], t.log, apiKey)
  {
  }

  /** Once recorded, an event stays in the log under the key it was published with. */
  lemma {:induction false} EventsKeepTheirKey(
      u: Usage, s: State, run: seq<Action>, t: State, p: TaskId, apiKey: string)
    requires RunFrom(Steps(u), s, run) == Some(t) && p in s.publishers && Carries(s.publishers[p], s.log, apiKey)
    ensures p in t.publishers && Carries(t.publishers[p], t.log, apiKey)
    decreases |run|
  {
    if run == [] {
    } else {
      var next := Step(u, s, run[0]).value;
      CarriesStays(u, s, run[0], next, p, apiKey);
      EventsKeepTheirKey(u, next, run[1..], t, p, apiKey);
    }
  }

  /** What is published under a key is in the log under that key once it is recorded. */
  lemma PublishedUnderItsKey(u: Usage, s: State, p: TaskId, apiKey: string, begun: State, run: seq<Action>, t: State)
    requires Step(u, s, BeginPublish(p, apiKey)) == Some(begun) && RunFrom(Steps(u), begun, run) == Some(t)
    ensures p in t.publishers
    ensures !t.publishers[p].Recording? ==> t.publishers[p].pos < |t.log| && t.log[t.publishers[p].pos] == apiKey
  {
    EventsKeepTheirKey(u, begun, run, t, p, apiKey);
  }

  /** A handle given out is subscribed until somebody sets about closing it. */
  ghost predicate HandlesSubscribed(s: State) {
    && (forall w | w in s.writers && s.writers[w].job.Subscribe? && s.writers[w].pc.Changed? ::
          s.writers[w].job.sub in s.subs)
    && forall x | x in s.handles :: x in s.subs || !NotClosing(s, x)
  }

  lemma JobsStay(u: Usage, s: State, a: Action, t: State, w: TaskId)
    requires Step(u, s, a) == Some(t) && w in s.writers
    ensures w in t.writers && t.writers[w].job == s.writers[w].job
  {
  }

  lemma HandlesKept(u: Usage, s: State, a: Action, t: State)
    requires Inv(u, s) && HandlesSubscribed(s) && Step(u, s, a) == Some(t)
    ensures HandlesSubscribed(t)
  {
    forall x | !NotClosing(s, x) ensures !NotClosing(t, x) {
      var w :| w in s.writers && s.writers[w].job == Close(x);
      JobsStay(u, s, a, t, w);
    }
    if a.Change? {
      JobsStay(u, s, a, t, a.w);
      assert s.writers[a.w].job.Close? ==> !NotClosing(t, s.writers[a.w].job.sub);
    }
  }

  lemma {:induction false} HandlesStay(u: Usage, s: State, run: seq<Action>, t: State)
    requires Inv(u, s) && HandlesSubscribed(s) && RunFrom(Steps(u), s, run) == Some(t)
    ensures HandlesSubscribed(t)
    decreases |run|
  {
    if run == [] {
    } else {
      var next := Step(u, s, run[0]).value;
      StepKeeps(u, s, run[0], next);
      HandlesKept(u, s, run[0], next);
      HandlesStay(u, next, run[1..], t);
    }
  }

  /** A subscription that `Subscribe` has returned is in the set publishers serve, unless a close
      of it has begun. */
  lemma OpenHandlesAreSubscribed(u: Usage, s: State, x: SubId)
    requires Reachable(u, s) && x in s.handles
    requires forall w | w in s.writers :: s.writers[w].job != Close(x)
    ensures x in s.subs
  {
    var run :| RunFrom(Steps(u), INIT, run) == Some(s);
    HandlesStay(u, INIT, run, s);
  }

  /** No reader can hold a publisher up: it serves its audience one by one, full queues or not,
      and gives the read lock back. */
  lemma {:induction false} PublisherCanFinish(u: Usage, s: State, p: TaskId) returns (t: State)
    requires Reachable(u, s) && s.crash == None && p in s.publishers && s.publishers[p].Sending?
    ensures Reaches(Steps(u), s, t) && t.crash == None && p in t.publishers && t.publishers[p].Published?
    decreases s.publishers[p].left
  {
    Stays(Steps(u), s);
    ReachableIsSound(u, s);
    if s.publishers[p].left == {} {
      t := ReadUnlockStep(s, p).value;
      ReachNext(Steps(u), s, s, ReadUnlock(p), t);
    } else {
      var x :| x in s.publishers[p].left;
      assert x in s.channels && !s.channels[x].closed;
      var next := SendStep(s, p, x).value;
      ReachNext(Steps(u), s, s, Send(p, x), next);
      ReachNext(Steps(u), INIT, s, Send(p, x), next);
      t := PublisherCanFinish(u, next, p);
      RunsJoin(Steps(u), s, next, t);
    }
  }

  /** A subscriber can read everything pending, the oldest event first. */
  lemma {:induction false} QueueCanBeRead(u: Usage, s: State, x: SubId, n: nat) returns (t: State)
    requires s.crash == None && x in s.channels && n <= |s.channels[x].queue|
    ensures Reaches(Steps(u), s, t) && t.crash == None
    ensures t == s.(channels := s.channels[x := s.channels[x].(queue := s.channels[x].queue[n..])])
  {
    if n == 0 {
      t := s;
      Stays(Steps(u), s);
    } else {
      var before := QueueCanBeRead(u, s, x, n - 1);
      t := s.(channels := s.channels[x := s.channels[x].(queue := s.channels[x].queue[n..])]);
      assert s.channels[x].queue[n - 1..][1..] == s.channels[x].queue[n..];
      var c := s.channels[x].(queue := s.channels[x].queue[n..]);
      assert before.channels[x := c] == s.channels[x := c];
      assert ReceiveStep(before, x) == Some(t);
      ReachNext(Steps(u), s, before, Receive(x), t);
    }
  }

  /** A `Subscribe` for the admin key up to its write lock. */
  lemma Subscribing(u: Usage, s: State, w: TaskId) returns (t: State)
    requires Reachable(u, s) && s.crash == None && s.writer == None && s.publishers == map[]
    requires w !in s.writers && 0 !in s.channels
    ensures Reachable(u, t)
    ensures t == s.(writers := s.writers[w := Writer(Subscribe(0), Locked)], writer := Some(w),
                    channels := s.channels[0 := Channel("", false, [], [], map[])])
  {
    var s1 := s.(writers := s.writers[w := Writer(Subscribe(0), Blocked)],
                 channels := s.channels[0 := Channel("", false, [], [], map[])]);
    ReachNext(Steps(u), INIT, s, BeginSubscribe(w, 0, ""), s1);
    t := Advance(s1, w, Locked).(writer := Some(w));
    ReachNext(Steps(u), INIT, s1, Lock(w), t);
    assert t.writers == s.writers[w := Writer(Subscribe(0), Locked)];
  }

  /** A whole `Subscribe` for the admin key, with nobody else active. */
  lemma Subscribed(u: Usage, s: State, w: TaskId) returns (t: State)
    requires Reachable(u, s) && s.crash == None && s.writer == None && s.publishers == map[]
    requires w !in s.writers && 0 !in s.channels
    ensures Reachable(u, t)
    ensures t == s.(writers := s.writers[w := Writer(Subscribe(0), Gone)], subs := s.subs + {0},
                    handles := s.handles + {0}, channels := s.channels[0 := Channel("", false, [], [], map[])])
  {
    var s1 := Subscribing(u, s, w);
    var s2 := Advance(s1, w, Changed).(subs := s.subs + {0});
    ReachNext(Steps(u), INIT, s1, Change(w), s2);
    t := Advance(s2, w, Gone).(writer := None, handles := s.handles + {0});
    ReachNext(Steps(u), INIT, s2, Unlock(w), t);
    assert t.writers == s.writers[w := Writer(Subscribe(0), Gone)];
  }

  lemma InitReachable(u: Usage)
    ensures Reachable(u, INIT)
  {
    Stays(Steps(u), INIT);
  }

  /** A whole `Close` of subscription 0 with nobody else active. */
  lemma ClosedUpTo(u: Usage, s: State, w: TaskId) returns (t: State)
    requires Reachable(u, s) && s.crash == None && s.writer == None && s.publishers == map[]
    requires w !in s.writers && 0 in s.handles && (u.recloses || NotClosing(s, 0))
    ensures Reachable(u, t)
    ensures t == s.(writers := s.writers[w := Writer(Close(0), Unlocked)], subs := s.subs - {0})
  {
    var s1 := s.(writers := s.writers[w := Writer(Close(0), Blocked)]);
    ReachNext(Steps(u), INIT, s, BeginClose(w, 0), s1);
    var s2 := Advance(s1, w, Locked).(writer := Some(w));
    ReachNext(Steps(u), INIT, s1, Lock(w), s2);
    var s3 := Advance(s2, w, Changed).(subs := s.subs - {0});
    ReachNext(Steps(u), INIT, s2, Change(w), s3);
    t := Advance(s3, w, Unlocked).(writer := None);
    ReachNext(Steps(u), INIT, s3, Unlock(w), t);
    assert t.writers == s.writers[w := Writer(Close(0), Unlocked)];
  }

  /** Closing a subscription twice closes its channel twice, which panics. */
  lemma SecondCloseCrashes(u: Usage) returns (t: State)
    requires u.recloses
    ensures Reachable(u, t) && t.crash == Some(CloseOfClosed)
  {
    InitReachable(u);
    var s := Subscribed(u, INIT, 0);
    var c := ClosedUpTo(u, s, 1);
    var d := Advance(c, 1, Gone).(channels := c.channels[0 := c.channels[0].(closed := true)]);
    ReachNext(Steps(u), INIT, c, CloseChannel(1), d);
    var e := ClosedUpTo(u, d, 2);
    t := Advance(e, 2, Gone).(crash := Some(CloseOfClosed));
    ReachNext(Steps(u), INIT, e, CloseChannel(2), t);
  }

  /** The hub never panics exactly when no subscription is closed twice. */
  lemma CrashFreeExactly(u: Usage)
    ensures (forall s | Reachable(u, s) :: s.crash == None) <==> !u.recloses
  {
    if u.recloses {
      var s := SecondCloseCrashes(u);
    } else {
      forall s | Reachable(u, s) ensures s.crash == None {
        ReachableIsSound(u, s);
      }
    }
  }

  /** Publisher `p` sends its event to the admin subscription 0. */
  lemma Delivered(u: Usage, s: State, p: TaskId) returns (t: State)
    requires Reachable(u, s) && s.crash == None && 0 in s.channels
    requires s.channels[0].key == "" && !s.channels[0].closed && |s.channels[0].queue| < QUEUE_SIZE
    requires p in s.publishers && s.publishers[p].Sending? && 0 in s.publishers[p].left && s.publishers[p].pos < |s.log|
    ensures Reachable(u, t)
    ensures t == s.(publishers := s.publishers[p := s.publishers[p].(left := s.publishers[p].left - {0})],
                    channels := s.channels[0 := Offered(s.channels[0], s.publishers[p].pos)])
  {
    t := s.(publishers := s.publishers[p := s.publishers[p].(left := s.publishers[p].left - {0})],
            channels := s.channels[0 := Offered(s.channels[0], s.publishers[p].pos)]);
    ReachNext(Steps(u), INIT, s, Send(p, 0), t);
  }

  /** Two overlapping publishers record their events, 0 first. */
  lemma TwoRecorded(u: Usage, s: State) returns (t: State)
    requires u.overlaps && Reachable(u, s) && s.crash == None && s.publishers == map[] && s.log == []
    ensures Reachable(u, t)
    ensures t == s.(publishers := map[0 := Recorded(0), 1 := Recorded(1)], log := ["", ""])
  {
    var s1 := s.(publishers := map[0 := Recording("")]);
    ReachNext(Steps(u), INIT, s, BeginPublish(0, ""), s1);
    var s2 := s1.(publishers := s1.publishers[1 := Recording("")]);
    ReachNext(Steps(u), INIT, s1, BeginPublish(1, ""), s2);
    var s3 := s2.(publishers := s2.publishers[0 := Recorded(0)], log := s2.log + [""]);
    ReachNext(Steps(u), INIT, s2, Record(0), s3);
    t := s3.(publishers := s3.publishers[1 := Recorded(1)], log := s3.log + [""]);
    ReachNext(Steps(u), INIT, s3, Record(1), t);
    assert t.publishers == map[0 := Recorded(0), 1 := Recorded(1)];
  }

  /** Two publishers, recorded in one order, reach the subscriber in the other. */
  lemma OverlapReorders(u: Usage) returns (t: State)
    requires u.overlaps
    ensures Reachable(u, t) && !InOrder(t)
  {
    InitReachable(u);
    var s := Subscribed(u, INIT, 0);
    s := TwoRecorded(u, s);
    var s1 := s.(publishers := s.publishers[1 := Sending(1, s.subs, s.subs)]);
    ReachNext(Steps(u), INIT, s, ReadLock(1), s1);
    var s2 := s1.(publishers := s1.publishers[0 := Sending(0, s.subs, s.subs)]);
    ReachNext(Steps(u), INIT, s1, ReadLock(0), s2);
    var s3 := Delivered(u, s2, 1);
    t := Delivered(u, s3, 0);
    assert t.channels[0].sent[0] == 1 && t.channels[0].sent[1] == 0;
  }

  /** Streams follow the ring's order in all runs exactly when publishes do not overlap. */
  lemma InOrderExactly(u: Usage)
    ensures (forall s | Reachable(u, s) :: InOrder(s)) <==> !u.overlaps
  {
    if u.overlaps {
      var s := OverlapReorders(u);
    } else {
      forall s | Reachable(u, s) ensures InOrder(s) {
        var run :| RunFrom(Steps(u), INIT, run) == Some(s);
        StreamsStay(u, INIT, run, s);
      }
    }
  }
}
