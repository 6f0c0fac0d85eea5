/** An executor process: its captured output and its life cycle. */
module ProcessOutput {
  import opened Wrappers

  newtype Byte = b: int | 0 <= b < 256

  const NEWLINE: Byte := 10
  const MAX_OUT_BUF := 100 * 1024 * 1024
  const CHUNK_SIZE := 4096

  type Bytes = seq<Byte>

  datatype ProcessError = NotRunning | ExitError(text: string)

  datatype Op = Drain(chunk: Bytes) | Read

  /** The buffer and everything `ReadOutput` has returned so far. */
  datatype Output = Output(buffer: Bytes, read: Bytes)

  predicate Keeps(buffer: Bytes) {
    |buffer| < MAX_OUT_BUF
  }

  function Step(o: Output, op: Op): Output {
    match op
    case Drain(chunk) => if Keeps(o.buffer) then o.(buffer := o.buffer + chunk) else o
    case Read => Output([], o.read + o.buffer)
  }

  function Run(ops: seq<Op>): Output {
    if ops == [] then Output([], []) else Step(Run(ops[..|ops| - 1]), ops[|ops| - 1])
  }

  /** The chunks that arrived while the buffer was below the cap, whole and in order. */
  function KeptChunks(ops: seq<Op>): Bytes {
    if ops == [] then []
    else
      var init, op := ops[..|ops| - 1], ops[|ops| - 1];
      KeptChunks(init) + if op.Drain? && Keeps(Run(init).buffer) then op.chunk else []
  }

  predicate Chunked(ops: seq<Op>) {
    forall op | op in ops && op.Drain? :: |op.chunk| <= CHUNK_SIZE
  }

  /** Nothing kept is ever lost, doubled or reordered, and the buffer stays bounded. */
  lemma {:induction false} OutputIsConserved(ops: seq<Op>)
    requires Chunked(ops)
    ensures Run(ops).read + Run(ops).buffer == KeptChunks(ops)
    ensures |Run(ops).buffer| <= 100 * 1024 * 1024 + 4095
  {
    if ops == [] {
    } else {
      var init, op := ops[..|ops| - 1], ops[|ops| - 1];
      OutputIsConserved(init);
      assert op in ops;
      var o := Run(init);
      if op.Drain? { assert o.read + (o.buffer + op.chunk) == o.read + o.buffer + op.chunk; }
    }
  }

  // ----- the tail -----

  function Newlines(s: Bytes): (n: nat)
    ensures n <= |s|
  {
    if s == [] then 0 else (if s[0] == NEWLINE then 1 else 0) + Newlines(s[1..])
  }

  predicate Unterminated(s: Bytes) {
    s != [] && s[|s| - 1] != NEWLINE
  }

  /** Lines end with a newline, but for an unterminated last one. */
  function Lines(s: Bytes): nat {
    Newlines(s) + if Unterminated(s) then 1 else 0
  }

  predicate LineAligned(all: Bytes, k: nat) {
    k <= |all| && (k == 0 || all[k - 1] == NEWLINE)
  }

  /** The suffix from `k` on has at most `n` lines, and no longer aligned one has. */
  ghost predicate LastLinesAt(all: Bytes, n: nat, k: nat) {
    && LineAligned(all, k) && Lines(all[k..]) <= n
    && forall j: nat | j < k && LineAligned(all, j) :: Lines(all[j..]) > n
  }

  /** "The last n lines from the output buffer". */
  ghost predicate LastLines(all: Bytes, n: int, out: Bytes) {
    if n <= 0 then out == [] else exists k: nat | LastLinesAt(all, n, k) :: out == all[k..]
  }

  /** The suffix from `k` on has at most `n` newlines, and no longer aligned one has. */
  ghost predicate TailAt(all: Bytes, n: nat, k: nat) {
    && LineAligned(all, k) && Newlines(all[k..]) <= n
    && forall j: nat | j < k && LineAligned(all, j) :: Newlines(all[j..]) > n
  }

  /** The longest line-aligned suffix with at most `n` newlines. */
  ghost predicate IsTail(all: Bytes, n: nat, tail: Bytes) {
    exists k: nat | TailAt(all, n, k) :: tail == all[k..]
  }

  /** What the code returns: nothing unless the buffer has more than `n` newlines. */
  ghost predicate TailReturned(all: Bytes, n: int, out: Bytes) {
    if n <= 0 || Newlines(all) <= n then out == [] else IsTail(all, n, out) && Newlines(out) == n
  }

  lemma {:induction false} MoreNewlinesBefore(all: Bytes, j: nat, k: nat)
    requires j <= k <= |all|
    ensures Newlines(all[j..]) >= Newlines(all[k..])
    ensures j < k && all[k - 1] == NEWLINE ==> Newlines(all[j..]) > Newlines(all[k..])
    decreases k - j
  {
    if j == k {
    } else {
      assert all[j..][1..] == all[j + 1..];
      MoreNewlinesBefore(all, j + 1, k);
    }
  }

  /** A suffix ends as the buffer does. */
  lemma SuffixLines(all: Bytes, k: nat)
    requires k <= |all|
    ensures k < |all| ==> Lines(all[k..]) == Newlines(all[k..]) + if Unterminated(all) then 1 else 0
    ensures k == |all| ==> Lines(all[k..]) == 0
  {
  }

  /** The first failing family: a buffer with n or fewer newlines gives nothing. */
  lemma ShortBufferGivesNothing(all: Bytes, n: int, out: Bytes)
    requires TailReturned(all, n, out) && n > 0 && all != [] && Newlines(all) <= n
    ensures out == [] && !LastLines(all, n, out)
  {
    SuffixLines(all, 0);
    assert LineAligned(all, 0) && all[0..] == all;
  }

  /** The second: with an unterminated last line the code returns one line too many. */
  lemma UnterminatedGivesOneMore(all: Bytes, n: int, out: Bytes)
    requires TailReturned(all, n, out) && n > 0 && Newlines(all) > n && Unterminated(all)
    ensures Lines(out) == n + 1 && !LastLines(all, n, out)
  {
    var k: nat :| TailAt(all, n, k) && out == all[k..];
    SuffixLines(all, k);
  }

  lemma TerminatedGivesLastLines(all: Bytes, n: nat, out: Bytes)
    requires IsTail(all, n, out) && n > 0 && !Unterminated(all)
    ensures LastLines(all, n, out)
  {
    var k: nat :| TailAt(all, n, k) && out == all[k..];
    forall j: nat | j <= k ensures Lines(all[j..]) == Newlines(all[j..]) {
      SuffixLines(all, j);
    }
    assert LastLinesAt(all, n, k);
  }

  /** The code returns the last n lines exactly when the buffer has more than n newlines and
      ends with one, or there is nothing to return. */
  lemma TailMeetsDocumentationExactly(all: Bytes, n: int, out: Bytes)
    requires TailReturned(all, n, out)
    ensures LastLines(all, n, out) <==> n <= 0 || all == [] || (Newlines(all) > n && !Unterminated(all))
  {
    if n <= 0 {
    } else if all == [] {
      assert LastLinesAt(all, n, 0);
    } else if Newlines(all) <= n {
      ShortBufferGivesNothing(all, n, out);
    } else if Unterminated(all) {
      UnterminatedGivesOneMore(all, n, out);
    } else {
      TerminatedGivesLastLines(all, n, out);
    }
  }

  /** The scan stops at the newline before the last `n` full lines. */
  lemma TailStartsAfter(all: Bytes, n: nat, i: nat)
    requires i < |all| && all[i] == NEWLINE && Newlines(all[i + 1..]) == n
    ensures IsTail(all, n, all[i + 1..]) && Newlines(all) > n
  {
    forall j: nat | j < i + 1 && LineAligned(all, j) ensures Newlines(all[j..]) > n {
      MoreNewlinesBefore(all, j, i + 1);
    }
    assert TailAt(all, n, i + 1);
    MoreNewlinesBefore(all, 0, i + 1);
    assert all[0..] == all;
  }

  /** The newlines from position `i` on. */
  function NewlinesFrom(all: Bytes, i: nat): nat
    requires i <= |all|
  {
    Newlines(all[i..])
  }

  lemma CountDown(all: Bytes, i: nat)
    requires i < |all|
    ensures NewlinesFrom(all, i) == NewlinesFrom(all, i + 1) + if all[i] == NEWLINE then 1 else 0
  {
    assert all[i..][1..] == all[i + 1..];
  }

  /** A scan that meets too few newlines returns nothing. */
  lemma ShortScan(all: Bytes, n: int)
    requires n > 0 && NewlinesFrom(all, 0) <= n
    ensures TailReturned(all, n, all[|all|..])
  {
    assert all[0..] == all && all[|all|..] == [];
  }

  /** A scan that meets one newline more than asked for returns what follows it. */
  lemma LongScan(all: Bytes, n: nat, i: nat)
    requires n > 0 && i < |all| && all[i] == NEWLINE && NewlinesFrom(all, i + 1) == n
    ensures TailReturned(all, n, all[i + 1..])
  {
    TailStartsAfter(all, n, i);
  }

  function Drains(chunks: seq<Bytes>): seq<Op> {
    if chunks == [] then [] else Drains(chunks[..|chunks| - 1]) + [Drain(chunks[|chunks| - 1])]
  }

  class Process {
    var outBuf: Bytes
    var started: bool
    var exited: bool                     // the child has been reaped
    var exitErr: Option<ProcessError>    // what its Wait returned
    var drained: bool                    // the drain goroutine has seen end of file
    var done: bool                       // the done channel is closed
    var killed: bool

    ghost var ops: seq<Op>
    ghost var read: Bytes

    ghost predicate Valid()
      reads this
    {
      && Chunked(ops) && Output(outBuf, read) == Run(ops)
      && (done ==> exited && drained) && (exited || drained ==> started) && exitErr != Some(NotRunning)
    }

    constructor ()
      ensures Valid() && !started && !done && ops == []
    {
      outBuf, started, exited, drained, done, killed := [], false, false, false, false, false;
      exitErr, ops, read := None, [], [];
    }

    method Start()
      requires Valid() && !started
      modifies this`started
      ensures Valid() && started
    {
      started := true;
    }

    method Running() returns (r: bool)
      requires Valid()
      ensures r == (started && !done)
    {
      if done { return false; }
      return started;
    }

    /** One read of the drain goroutine. */
    method DrainChunk(chunk: Bytes)
      requires Valid() && !drained && |chunk| <= CHUNK_SIZE
      modifies this`outBuf, this`ops
      ensures Valid() && ops == old(ops) + [Drain(chunk)]
      ensures outBuf == if |old(outBuf)| < MAX_OUT_BUF then old(outBuf) + chunk else old(outBuf)
    {
      assert (ops + [Drain(chunk)])[..|ops|] == ops;
      ops := ops + [Drain(chunk)];
      if |chunk| > 0 {
        if |outBuf| < MAX_OUT_BUF { outBuf := outBuf + chunk; }
      } else {
        assert outBuf + chunk == outBuf;
      }
    }

    method ReadOutput() returns (out: Bytes)
      requires Valid()
      modifies this`outBuf, this`ops, this`read
      ensures Valid() && out == old(outBuf) && outBuf == []
      ensures ops == old(ops) + [Read] && read == old(read) + out
    {
      assert (ops + [Read])[..|ops|] == ops;
      ops := ops + [Read];
      read := read + outBuf;
      if |outBuf| == 0 { return []; }
      out := outBuf;
      outBuf := [];
    }

    method ReadOutputTail(n: int) returns (out: Bytes)
      ensures TailReturned(outBuf, n, out)
    {
      if |outBuf| == 0 || n <= 0 { return []; }
      var all := outBuf;
      var lineCount, start := 0, |all|;
      var i := |all| - 1;
      while i >= 0
        invariant -1 <= i < |all| && lineCount == NewlinesFrom(all, i + 1) <= n && start == |all|
      {
        CountDown(all, i);
        if all[i] == NEWLINE {
          lineCount := lineCount + 1;
          if lineCount > n {
            LongScan(all, n, i);
            start := i + 1;
            break;
          }
        }
        i := i - 1;
      }
      if i < 0 { ShortScan(all, n); }
      return all[start..];
    }

    static function ErrorOf(error: Option<string>): Option<ProcessError> {
      if error.Some? then Some(ExitError(error.value)) else None
    }

    /** The child exits by itself, and its Wait returns. */
    method Exit(error: Option<string>)
      requires Valid() && started && !exited
      modifies this`exited, this`exitErr
      ensures Valid() && exited && exitErr == ErrorOf(error)
    {
      exited, exitErr := true, ErrorOf(error);
    }

    /** What the drain goroutine reads up to its end of file. */
    method DrainRest(rest: seq<Bytes>)
      requires Valid() && !drained && forall c | c in rest :: |c| <= CHUNK_SIZE
      modifies this`outBuf, this`ops
      ensures Valid() && ops == old(ops) + Drains(rest)
    {
      for i := 0 to |rest|
        invariant Valid() && ops == old(ops) + Drains(rest[..i])
      {
        assert rest[..i + 1][..i] == rest[..i];
        DrainChunk(rest[i]);
      }
      assert rest[..|rest|] == rest;
    }

    /** Once the child is reaped and its output drained, the done channel is closed. */
    method CloseDone()
      requires Valid() && exited && drained
      modifies this`done
      ensures Valid() && done
    {
      done := true;
    }

    /** Waits for the exit, killing the child after three seconds, and reports how it exited;
        `rest` is what the drain goroutine still reads, `inTime` whether the child is done
        before the kill, `error` what its Wait returns if it still runs. */
    method Stop(rest: seq<Bytes>, inTime: bool, error: Option<string>) returns (r: Option<ProcessError>)
      requires Valid() && forall c | c in rest :: |c| <= CHUNK_SIZE
      modifies this
      ensures Valid() && read == old(read)
      ensures r == Some(NotRunning) <==> !old(started)
      ensures !old(started) ==> ops == old(ops) && done == old(done)
      ensures old(started) ==> done && ops == old(ops) + (if old(drained) then [] else Drains(rest))
      ensures old(started) ==> r == exitErr == if old(exited) then old(exitErr) else ErrorOf(error)
      ensures old(started) && !old(exited) ==>
                match error case Some(text) => r == Some(ExitError(text)) case None => r == None
      ensures old(started) ==> killed == (old(killed) || (!old(done) && !inTime))
    {
      if !started { return Some(NotRunning); }
      if !done {
        if !inTime { killed := true; }
        if !exited { Exit(error); }
        if !drained {
          DrainRest(rest);
          drained := true;
        }
        CloseDone();
      }
      return exitErr;
    }
  }
}
