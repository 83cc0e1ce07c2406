/** The bounded process runner: the supervision loop over a child's pipes, clock and signals. */
module Runner {
  import opened Outcomes
  import opened TerminalText

  type Bytes = seq<bv8>

  const MAX_NORMALIZED_EVIDENCE_BYTES := 1_048_576

  // ---- captured output

  datatype StreamEvidence = StreamEvidence(
    text: string, captured: nat, discarded: nat, truncated: bool, normalizedBytes: nat, normalizedTruncated: bool,
    readError: bool)

  /** Keeps the first `limit` bytes of a stream and counts the rest. */
  class StreamAccumulator {
    const limit: nat
    var data: Bytes
    var discarded: nat
    var readError: bool
    /** Every byte handed over so far. */
    ghost var fed: Bytes

    ghost predicate Valid()
      reads this
    {
      data == fed[..if |fed| < limit then |fed| else limit] && |data| + discarded == |fed|
    }

    constructor (limit: nat)
      ensures Valid() && fed == [] && !readError && this.limit == limit
    {
      this.limit, data, discarded, readError, fed := limit, [], 0, false, [];
    }

    method Add(chunk: Bytes)
      requires Valid()
      modifies this
      ensures Valid() && fed == old(fed) + chunk && readError == old(readError)
    {
      var available := limit - |data|;
      if available > 0 {
        data := data + chunk[..if available < |chunk| then available else |chunk|];
      }
      var kept := if available > 0 then available else 0;
      discarded := discarded + if |chunk| > kept then |chunk| - kept else 0;
      fed := fed + chunk;
    }

    method MarkReadError()
      modifies this`readError
      ensures readError
    {
      readError := true;
    }

    /** The bounded evidence of what was captured. */
    method Evidence(decode: Bytes -> string, unsafe: Category) returns (e: StreamEvidence)
      ensures Normalizes(decode(data), MAX_NORMALIZED_EVIDENCE_BYTES, true, unsafe,
                         Normalized(e.text, e.normalizedBytes, e.normalizedTruncated))
      ensures e.captured == |data| && e.discarded == discarded && e.readError == readError
      ensures e.truncated <==> discarded > 0 || e.normalizedTruncated || readError
    {
      var n := NormalizeTerminalText(decode(data), MAX_NORMALIZED_EVIDENCE_BYTES, true, unsafe);
      var truncated := discarded > 0 || n.truncated || readError;
      return StreamEvidence(n.text, |data|, discarded, truncated, n.size, n.truncated, readError);
    }
  }

  /** What is captured depends on the bytes of the stream, not on how they were cut into chunks. */
  lemma CaptureIgnoresChunks(a: StreamAccumulator, b: StreamAccumulator)
    requires a.Valid() && b.Valid() && a.limit == b.limit && a.fed == b.fed
    ensures a.data == b.data && a.discarded == b.discarded
    ensures a.data <= a.fed && |a.data| <= a.limit && (a.discarded > 0 ==> |a.data| == a.limit)
  {
  }

  // ---- the child and its environment

  datatype Signal = Term | Kill

  /** Why a signal was sent to the process group. */
  datatype Cause =
    | Deadline      // the time allowed is over
    | Grace         // the grace period after that is over
    | NoStreams     // no pipe could be registered
    | SelectFailed  // waiting for the pipes failed
    | EndOfOutput   // the last pipe reached its end
    | Last          // the loop ended without any of these
    | Reap          // the child had still not exited
    | Cleanup       // the run was interrupted

  datatype Reply = Delivered | NoSuchGroup | NotPermitted | Refused

  datatype Attempt = Attempt(signal: Signal, time: int, cause: Cause, confirmed: bool)

  datatype Interruption = Interrupted

  type Outcome<+T> = Result<T, Interruption>

  datatype Chunk = Bytes(bytes: Bytes) | WouldBlock | BrokenPipe

  datatype WorkingDirectory = IsDirectory | DirectoryMissing | DirectoryDenied | DirectoryUnreadable | NotADirectory

  datatype Launch = Started | NotFound | Denied | Rejected

  datatype Selected = Ready(fds: set<nat>) | TryAgain | Broken

  /** Times are in nanoseconds. */
  const SELECT_INTERVAL := 50_000_000
  const KILL_REAP := 1_000_000_000
  const READ_SIZE := 65_536

  const STDOUT: nat := 0
  const STDERR: nat := 1

  /** Everything outside the runner, which may do whatever it likes: the clock only has to advance. */
  class World {
    var clock: int
    var exit: Option<int>
    ghost var attempts: seq<Attempt>
    ghost var sent: map<nat, Bytes>
    /** The pipes that were read to their end. */
    ghost var ended: set<nat>
    /** What was found when the working directory was last inspected, and how the last launch went. */
    ghost var found: WorkingDirectory
    ghost var launched: Launch
    /** The answers of the polls, oldest first. */
    ghost var polls: seq<Outcome<Option<int>>>

    ghost predicate Valid()
      reads this`sent
    {
      STDOUT in sent && STDERR in sent
    }

    /** A new child, whose process group has received no signal and whose pipes are fresh. */
    method Spawn() returns (launch: Launch)
      modifies this
      ensures attempts == [] && exit == None && clock == old(clock)
      ensures sent == map[STDOUT := [], STDERR := []] && ended == {}
      ensures launch == launched && found == old(found)
    {
      launch := *;
      exit, attempts, sent, ended := None, [], map[STDOUT := [], STDERR := []], {};
      launched := launch;
    }

    method Register() returns (ok: bool)
    {
      ok := *;
    }

    /** A failed unregistration may leave the pipe in the selector. */
    method Unregister(open: set<nat>, fd: nat) returns (ok: bool, left: set<nat>)
      ensures left == open - {fd} || (!ok && left == open)
    {
      ok := *;
      var stays: bool := *;
      left := if !ok && stays then open else open - {fd};
    }

    method InspectDirectory() returns (directory: WorkingDirectory)
      modifies this`found
      ensures directory == found
    {
      directory := *;
      found := directory;
    }

    method Select(wait: int, open: set<nat>) returns (r: Outcome<Selected>)
      requires 0 <= wait <= SELECT_INTERVAL
      ensures r.Done? && r.value.Ready? ==> r.value.fds <= open
      ensures !r.Killed?
    {
      if * {
        return Raised(Interrupted);
      }
      if * {
        return Done(TryAgain);
      }
      if * {
        return Done(Broken);
      }
      var fds: set<nat> :| fds <= open;
      return Done(Ready(fds));
    }

    method Monotonic() returns (now: int)
      modifies this`clock
      ensures now == clock > old(clock)
    {
      now :| now > clock;
      clock := now;
    }

    method Poll() returns (r: Outcome<Option<int>>)
      modifies this`exit, this`polls
      ensures polls == old(polls) + [r]
      ensures old(exit).Some? ==> exit == old(exit)
      ensures r.Done? ==> r.value == exit
      ensures !r.Killed?
    {
      r := Raised(Interrupted);
      if * {
        if exit.None? {
          exit := *;
        }
        r := Done(exit);
      }
      polls := polls + [r];
    }

    method SignalGroup(signal: Signal, ghost cause: Cause, allowEmptyGroup: bool) returns (confirmed: bool)
      modifies this`attempts
      ensures attempts == old(attempts) + [Attempt(signal, clock, cause, confirmed)]
    {
      var reply: Reply := *;
      confirmed := reply == Delivered || reply == NoSuchGroup || (reply == NotPermitted && allowEmptyGroup);
      attempts := attempts + [Attempt(signal, clock, cause, confirmed)];
    }

    method Read(fd: nat) returns (chunk: Chunk)
      requires Valid() && fd in sent
      modifies this`sent, this`ended
      ensures ended == if chunk == Bytes([]) then old(ended) + {fd} else old(ended)
      ensures Valid() && (chunk.Bytes? ==> |chunk.bytes| <= READ_SIZE)
      ensures sent == if chunk.Bytes? then old(sent)[fd := old(sent)[fd] + chunk.bytes] else old(sent)
    {
      chunk :| chunk.Bytes? ==> |chunk.bytes| <= READ_SIZE;
      if chunk.Bytes? {
        sent := sent[fd := sent[fd] + chunk.bytes];
        if chunk.bytes == [] {
          ended := ended + {fd};
        }
      }
    }
  }

  // ---- the supervision loop

  /** The local variables of the loop. */
  datatype Loop = Loop(
    open: set<nat>, timedOut: bool, termSentAt: Option<int>, killSentAt: Option<int>, finalized: bool,
    cleanupError: bool)

  datatype Command = Command(timeout: nat, grace: nat, stdoutLimit: nat, stderrLimit: nat)

  /** The times of the attempts made for one cause. */
  ghost function Times(attempts: seq<Attempt>, cause: Cause): seq<int> {
    if attempts == [] then []
    else
      var last := attempts[|attempts| - 1];
      Times(attempts[..|attempts| - 1], cause) + if last.cause == cause then [last.time] else []
  }

  ghost function Once(time: Option<int>): seq<int> {
    if time.Some? then [time.value] else []
  }

  ghost predicate GroupKilled(attempts: seq<Attempt>) {
    exists a :: a in attempts && a.signal == Kill
  }

  ghost predicate Unconfirmed(attempts: seq<Attempt>) {
    exists a :: a in attempts && !a.confirmed
  }

  /**
   * SIGTERM exactly once the deadline has passed, and SIGKILL for the grace period exactly once that has passed too.
   */
  ghost predicate Timely(l: Loop, attempts: seq<Attempt>, clock: int, deadline: int, grace: nat) {
    && (l.timedOut <==> l.termSentAt.Some?)
    && (l.termSentAt.Some? ==> deadline <= l.termSentAt.value <= clock)
    && (l.killSentAt.Some? ==> l.timedOut && l.termSentAt.value + grace <= l.killSentAt.value <= clock && l.finalized)
    && (forall a :: a in attempts ==> (a.signal == Term <==> a.cause == Deadline))
    && Times(attempts, Deadline) == Once(l.termSentAt)
    && Times(attempts, Grace) == Once(l.killSentAt)
    && (l.finalized <==> GroupKilled(attempts))
    && (l.cleanupError <==> Unconfirmed(attempts))
  }

  lemma OneMore(attempts: seq<Attempt>, a: Attempt)
    ensures forall cause ::
              Times(attempts + [a], cause) == Times(attempts, cause) + if a.cause == cause then [a.time] else []
    ensures GroupKilled(attempts + [a]) <==> GroupKilled(attempts) || a.signal == Kill
    ensures Unconfirmed(attempts + [a]) <==> Unconfirmed(attempts) || !a.confirmed
  {
    var more := attempts + [a];
    assert more[..|attempts|] == attempts;
    assert a in more && forall b :: b in attempts ==> b in more;
  }

  /**
   * Both accumulators have been given exactly what was read from the pipes, and a pipe that is no longer open was read
   * to its end or is marked as broken.
   */
  ghost predicate Captured(world: World, streams: seq<StreamAccumulator>, open: set<nat>)
    reads world`sent, world`ended, streams
  {
    && |streams| == 2 && streams[0] != streams[1] && world.Valid()
    && streams[0].Valid() && streams[1].Valid()
    && streams[0].fed == world.sent[STDOUT] && streams[1].fed == world.sent[STDERR]
    && (STDOUT in open || STDOUT in world.ended || streams[0].readError)
    && (STDERR in open || STDERR in world.ended || streams[1].readError)
  }

  lemma TermTimely(l: Loop, attempts: seq<Attempt>, now: int, deadline: int, grace: nat, confirmed: bool)
    requires Timely(l, attempts, now, deadline, grace) && !l.timedOut && now >= deadline
    ensures Timely(l.(timedOut := true, termSentAt := Some(now), cleanupError := l.cleanupError || !confirmed),
                   attempts + [Attempt(Term, now, Deadline, confirmed)], now, deadline, grace)
  {
    hide Times;
    OneMore(attempts, Attempt(Term, now, Deadline, confirmed));
  }

  lemma KillTimely(l: Loop, attempts: seq<Attempt>, now: int, deadline: int, grace: nat, confirmed: bool)
    requires Timely(l, attempts, now, deadline, grace) && l.timedOut && l.killSentAt.None?
    requires l.termSentAt.Some? && now >= l.termSentAt.value + grace
    ensures Timely(l.(killSentAt := Some(now), finalized := true, cleanupError := l.cleanupError || !confirmed),
                   attempts + [Attempt(Kill, now, Grace, confirmed)], now, deadline, grace)
  {
    hide Times;
    OneMore(attempts, Attempt(Kill, now, Grace, confirmed));
  }

  /** A SIGKILL that has nothing to do with time. */
  lemma AnyKillTimely(l: Loop, attempts: seq<Attempt>, now: int, deadline: int, grace: nat, cause: Cause,
                      confirmed: bool)
    requires Timely(l, attempts, now, deadline, grace) && cause != Deadline && cause != Grace
    ensures Timely(l.(finalized := true, cleanupError := l.cleanupError || !confirmed),
                   attempts + [Attempt(Kill, now, cause, confirmed)], now, deadline, grace)
  {
    hide Times;
    OneMore(attempts, Attempt(Kill, now, cause, confirmed));
  }

  /** What the loop does about time at the start of a turn; `stop` is the hard bound after SIGKILL. */
  method Timers(world: World, l: Loop, now: int, deadline: int, grace: nat) returns (r: Outcome<(Loop, bool)>)
    requires now == world.clock && Timely(l, world.attempts, world.clock, deadline, grace)
    modifies world`attempts, world`exit, world`polls
    ensures !r.Killed? && (old(world.exit).Some? ==> world.exit == old(world.exit))
    ensures r.Raised? ==> world.attempts == old(world.attempts)
    ensures r.Done? ==> Timely(r.value.0, world.attempts, world.clock, deadline, grace)
    ensures r.Done? ==> r.value.0.open == l.open && (l.finalized ==> r.value.0.finalized)
    ensures r.Done? && r.value.1 ==> r.value.0 == l && l.killSentAt.Some? && now >= l.killSentAt.value + KILL_REAP
    ensures r.Done? && !r.value.1 ==>
              || Phase(r.value.0) < Phase(l)
              || (r.value.0 == l && now < Target(l, deadline, grace))
              || (r.value.0 == l && l.open == {} && world.exit.Some?)
  {
    assert l.killSentAt.Some? ==> l.timedOut;
    assert l.timedOut <==> l.termSentAt.Some?;
    hide Timely;
    ghost var attempts := world.attempts;
    if !l.timedOut && now >= deadline {
      var confirmed := world.SignalGroup(Term, Deadline, false);
      TermTimely(l, attempts, now, deadline, grace, confirmed);
      return Done((l.(timedOut := true, termSentAt := Some(now), cleanupError := l.cleanupError || !confirmed), false));
    } else if l.timedOut && l.killSentAt.None? && l.termSentAt.Some? && now >= l.termSentAt.value + grace {
      var confirmed := world.SignalGroup(Kill, Grace, false);
      KillTimely(l, attempts, now, deadline, grace, confirmed);
      return Done((l.(killSentAt := Some(now), finalized := true, cleanupError := l.cleanupError || !confirmed),
                   false));
    } else if l.killSentAt.Some? && now >= l.killSentAt.value + KILL_REAP {
      if l.open != {} {
        return Done((l, true));
      }
      var exit :- world.Poll();
      return Done((l, exit.None?));
    }
    return Done((l, false));
  }

  function Phase(l: Loop): nat {
    if l.killSentAt.Some? then 0 else if l.timedOut then 1 else 2
  }

  /** When the loop has something to do about time next. */
  function Target(l: Loop, deadline: int, grace: nat): int {
    if l.killSentAt.Some? then l.killSentAt.value + KILL_REAP
    else if l.termSentAt.Some? then l.termSentAt.value + grace
    else deadline
  }

  function Left(target: int, clock: int): nat {
    if target > clock then target - clock else 0
  }

  method ReadPipe(world: World, streams: seq<StreamAccumulator>, fd: nat, ghost open: set<nat>) returns (chunk: Chunk)
    requires Captured(world, streams, open) && fd < 2
    modifies world`sent, world`ended, streams
    ensures Captured(world, streams, if chunk == Bytes([]) then open - {fd} else open)
    ensures fd in old(world.sent) && world.sent ==
              if chunk.Bytes? then old(world.sent)[fd := old(world.sent)[fd] + chunk.bytes] else old(world.sent)
    ensures world.ended == if chunk == Bytes([]) then old(world.ended) + {fd} else old(world.ended)
  {
    chunk := world.Read(fd);
    if chunk.Bytes? {
      streams[fd].Add(chunk.bytes);
    }
  }

  method MarkReadError(world: World, streams: seq<StreamAccumulator>, fd: nat, ghost open: set<nat>)
    requires Captured(world, streams, open) && fd < 2
    modifies streams
    ensures Captured(world, streams, open - {fd}) && streams[fd].readError
  {
    streams[fd].MarkReadError();
  }

  lemma CapturedMore(world: World, streams: seq<StreamAccumulator>, open: set<nat>, more: set<nat>)
    requires Captured(world, streams, open) && open <= more
    ensures Captured(world, streams, more)
  {
  }

  /** A pipe is given up after an error; an error of giving it up is ignored. */
  method CloseAfterError(world: World, streams: seq<StreamAccumulator>, fd: nat, open: set<nat>)
    returns (left: set<nat>)
    requires Captured(world, streams, open) && fd < 2
    modifies streams
    ensures Captured(world, streams, left) && streams[fd].readError
    ensures left == open - {fd} || left == open
  {
    hide Captured;
    MarkReadError(world, streams, fd, open);
    var _, rest := world.Unregister(open, fd);
    CapturedMore(world, streams, open - {fd}, rest);
    return rest;
  }

  /** SIGKILL for the group, unless it has been sent already. */
  method KillOnce(world: World, l: Loop, cause: Cause, allowEmptyGroup: bool, ghost deadline: int, ghost grace: nat)
    returns (after: Loop)
    requires Timely(l, world.attempts, world.clock, deadline, grace) && cause != Deadline && cause != Grace
    modifies world`attempts
    ensures Timely(after, world.attempts, world.clock, deadline, grace) && after.finalized
    ensures after == l.(finalized := true, cleanupError := after.cleanupError)
    ensures if l.finalized then world.attempts == old(world.attempts)
              else OneKill(old(world.attempts), world.attempts, cause)
  {
    if l.finalized {
      return l;
    }
    ghost var attempts := world.attempts;
    var confirmed := world.SignalGroup(Kill, cause, allowEmptyGroup);
    AnyKillTimely(l, attempts, world.clock, deadline, grace, cause, confirmed);
    return l.(finalized := true, cleanupError := l.cleanupError || !confirmed);
  }

  ghost predicate OneKill(before: seq<Attempt>, after: seq<Attempt>, cause: Cause) {
    && |after| == |before| + 1 && after[..|before|] == before
    && after[|before|].signal == Kill && after[|before|].cause == cause
  }

  /** A pipe was read to its end. */
  method EndPipe(world: World, streams: seq<StreamAccumulator>, l: Loop, fd: nat, ghost deadline: int, ghost grace: nat)
    returns (after: Loop)
    requires Captured(world, streams, l.open - {fd}) && fd < 2
    requires Timely(l, world.attempts, world.clock, deadline, grace)
    modifies world`attempts, streams
    ensures Captured(world, streams, after.open)
    ensures Timely(after, world.attempts, world.clock, deadline, grace)
    ensures SameTimes(l, after) && (after.open == l.open || after.open == l.open - {fd})
    ensures after.open == {} ==> after.finalized
    ensures if after.finalized && !l.finalized
            then OneKill(old(world.attempts), world.attempts, EndOfOutput) && after.open == {}
            else world.attempts == old(world.attempts)
  {
    hide Timely, Captured, OneKill;
    var unregistered, open := world.Unregister(l.open, fd);
    CapturedMore(world, streams, l.open - {fd}, open);
    var closed := world.Register();
    after := l.(open := open);
    if !unregistered || !closed {
      MarkReadError(world, streams, fd, open);
      CapturedMore(world, streams, open - {fd}, open);
    }
    OpenUntimed(l, after, world.attempts, world.clock, deadline, grace);
    if after.open == {} {
      after := KillOnce(world, after, EndOfOutput, true, deadline, grace);
    }
  }

  /** One pipe that was reported readable. */
  method ReadReady(world: World, streams: seq<StreamAccumulator>, l: Loop, fd: nat, ghost deadline: int,
                   ghost grace: nat)
    returns (after: Loop)
    requires Captured(world, streams, l.open) && fd < 2
    requires Timely(l, world.attempts, world.clock, deadline, grace)
    modifies world`attempts, world`sent, world`ended, streams
    ensures Captured(world, streams, after.open)
    ensures Timely(after, world.attempts, world.clock, deadline, grace)
    ensures SameTimes(l, after) && (after.open == l.open || after.open == l.open - {fd})
    // only this pipe is read, and it stays open unless it ended or broke
    ensures fd in old(world.sent) ==> exists bytes :: world.sent == old(world.sent)[fd := old(world.sent)[fd] + bytes]
    ensures old(world.ended) <= world.ended <= old(world.ended) + {fd}
    ensures after.open != l.open ==> fd in world.ended || streams[fd].readError
    // the end of the last output kills the group, unless that was done, and nothing else does
    ensures fd in world.ended && fd !in old(world.ended) && after.open == {} ==> after.finalized
    ensures if after.finalized && !l.finalized
            then OneKill(old(world.attempts), world.attempts, EndOfOutput) && fd in world.ended && after.open == {}
            else world.attempts == old(world.attempts)
  {
    CapturedSent(world, streams, l.open);
    hide Timely, Captured, OneKill;
    var chunk := ReadPipe(world, streams, fd, l.open);
    match chunk {
      case WouldBlock =>
        SameSent(world.sent, fd);
        return l;
      case BrokenPipe =>
        SameSent(world.sent, fd);
        var open := CloseAfterError(world, streams, fd, l.open);
        after := l.(open := open);
        OpenUntimed(l, after, world.attempts, world.clock, deadline, grace);
      case Bytes(bytes) =>
        if bytes != [] {
          return l;
        }
        after := EndPipe(world, streams, l, fd, deadline, grace);
    }
  }

  lemma CapturedSent(world: World, streams: seq<StreamAccumulator>, open: set<nat>)
    requires Captured(world, streams, open)
    ensures STDOUT in world.sent && STDERR in world.sent
  {
  }

  lemma SameSent(sent: map<nat, Bytes>, fd: nat)
    requires fd in sent
    ensures sent == sent[fd := sent[fd] + []]
  {
    assert sent[fd] + [] == sent[fd];
  }

  ghost predicate SameTimes(before: Loop, after: Loop) {
    && after.timedOut == before.timedOut && after.termSentAt == before.termSentAt
    && after.killSentAt == before.killSentAt
    && (before.finalized ==> after.finalized)
  }

  lemma OpenUntimed(l: Loop, after: Loop, attempts: seq<Attempt>, clock: int, deadline: int, grace: nat)
    requires after == l.(open := after.open)
    ensures Timely(l, attempts, clock, deadline, grace) == Timely(after, attempts, clock, deadline, grace)
  {
  }

  /** The pipes are waited for and read, or given up. */
  method Attend(world: World, streams: seq<StreamAccumulator>, l: Loop, now: int, deadline: int, grace: nat)
    returns (r: Outcome<Loop>)
    requires Captured(world, streams, l.open) && l.open <= {STDOUT, STDERR}
    requires Timely(l, world.attempts, world.clock, deadline, grace)
    modifies world`attempts, world`sent, world`ended, streams
    ensures !r.Killed? && Captured(world, streams, if r.Done? then r.value.open else l.open)
    ensures r.Done? ==>
              Timely(r.value, world.attempts, world.clock, deadline, grace) && SameTimes(l, r.value)
              && r.value.open <= l.open
    ensures r.Raised? ==> world.attempts == old(world.attempts)
  {
    hide Captured;
    var remaining := Target(l, deadline, grace) - now;
    var wait := if remaining < 0 then 0 else if remaining < SELECT_INTERVAL then remaining else SELECT_INTERVAL;
    hide Timely;
    var selected :- world.Select(wait, l.open);
    var after := l;
    match selected {
      case TryAgain => return Done(l);
      case Broken =>
        var open := l.open;
        if STDOUT in open {
          open := CloseAfterError(world, streams, STDOUT, open);
        }
        if STDERR in open {
          open := CloseAfterError(world, streams, STDERR, open);
        }
        after := l.(open := open);
        OpenUntimed(l, after, world.attempts, world.clock, deadline, grace);
        if after.open == {} {
          after := KillOnce(world, after, SelectFailed, false, deadline, grace);
        }
      case Ready(fds) =>
        var ready := fds;
        while ready != {}
          invariant ready <= fds && Captured(world, streams, after.open)
          invariant Timely(after, world.attempts, world.clock, deadline, grace) && SameTimes(l, after)
                    && after.open <= l.open
          decreases ready
        {
          var fd: nat :| fd in ready;
          ready := ready - {fd};
          after := ReadReady(world, streams, after, fd, deadline, grace);
        }
    }
    return Done(after);
  }

  /** The child is reaped: waited for once more after a last SIGKILL if it has not exited. */
  method ReapProcess(world: World, ghost l: Loop, ghost deadline: int, ghost grace: nat)
    returns (returncode: Option<int>, failed: bool, ghost after: Loop)
    requires Timely(l, world.attempts, world.clock, deadline, grace) && l.finalized
    modifies world`attempts, world`exit, world`polls
    ensures Timely(after, world.attempts, world.clock, deadline, grace)
    ensures after == l.(cleanupError := after.cleanupError)
    ensures after.cleanupError ==> l.cleanupError || failed
    ensures returncode.Some? ==> returncode == world.exit
    // the first answer decides: one more SIGKILL is sent exactly to a child that has not exited
    ensures |old(world.polls)| < |world.polls| && old(world.polls) <= world.polls
    ensures var first := world.polls[|old(world.polls)|];
            && (if first == Done(None) then OneKill(old(world.attempts), world.attempts, Reap)
                else world.attempts == old(world.attempts))
            && (first.Done? && first.value.Some? ==> returncode == first.value && !failed)
    ensures returncode.None? ==> failed
  {
    after := l;
    var first := world.Poll();
    if !first.Done? {
      return None, true, after;
    }
    if first.value.Some? {
      return first.value, false, after;
    }
    ghost var attempts := world.attempts;
    var confirmed := world.SignalGroup(Kill, Reap, false);
    AnyKillTimely(l, attempts, world.clock, deadline, grace, Reap, confirmed);
    after := l.(cleanupError := l.cleanupError || !confirmed);
    var waited := world.Poll();
    if !waited.Done? {
      return None, true, after;
    }
    if waited.value.Some? {
      return waited.value, !confirmed, after;
    }
    var last := world.Poll();
    return if last.Done? then last.value else None, true, after;
  }

  lemma LaterTimely(l: Loop, attempts: seq<Attempt>, clock: int, later: int, deadline: int, grace: nat)
    requires Timely(l, attempts, clock, deadline, grace) && clock <= later
    ensures Timely(l, attempts, later, deadline, grace)
  {
  }

  /** The supervision loop. However it ends, it ends: the clock need only advance from turn to turn. */
  method Supervise(world: World, streams: seq<StreamAccumulator>, start: Loop, deadline: int, grace: nat)
    returns (r: Outcome<Loop>, ghost last: Loop)
    requires Captured(world, streams, start.open) && start.open <= {STDOUT, STDERR}
    requires Timely(start, world.attempts, world.clock, deadline, grace)
    modifies world, streams
    ensures !r.Killed? && Captured(world, streams, last.open) && (r.Done? ==> last == r.value)
    ensures Timely(last, world.attempts, world.clock, deadline, grace)
    ensures r.Done? ==>
              || (r.value.open == {} && world.exit.Some?)
              || (r.value.killSentAt.Some? && world.clock >= r.value.killSentAt.value + KILL_REAP)
  {
    hide Captured, Timely;
    var l := start;
    while true
      invariant Captured(world, streams, l.open) && l.open <= {STDOUT, STDERR}
      invariant Timely(l, world.attempts, world.clock, deadline, grace)
      decreases world.exit.None?, Phase(l), Left(Target(l, deadline, grace), world.clock)
    {
      last := l;
      if l.open == {} {
        var exit :- world.Poll();
        if exit.Some? {
          return Done(l), l;
        }
      }
      ghost var before := world.clock;
      var now := world.Monotonic();
      LaterTimely(l, world.attempts, before, now, deadline, grace);
      var timed :- Timers(world, l, now, deadline, grace);
      if timed.1 {
        return Done(l), l;
      }
      last := timed.0;
      l :- Attend(world, streams, timed.0, now, deadline, grace);
    }
  }

  datatype Ending =
    | Success | Nonzero | Signaled | Timeout | Missing | PermissionDenied | SpawnError | IoError | CleanupError

  datatype Message =
    | NoMessage
    | DirectoryNotFound | DirectoryForbidden | DirectoryNotInspected | DirectoryIsNone
    | ExecutableNotFound | ExecutableForbidden | StartupRejected
    | ReadFailed | CleanupUnconfirmed

  datatype CommandResult = CommandResult(
    argv: seq<string>, argvTruncated: bool, outcome: Ending, message: Message,
    returncode: Option<int>, timedOut: bool, missingExecutable: bool, permissionDenied: bool,
    ioError: bool, cleanupError: bool, stdout: StreamEvidence, stderr: StreamEvidence)

  function Classify(returncode: Option<int>, timedOut: bool, ioError: bool, cleanupError: bool): (o: Ending)
    ensures o == Success <==> returncode == Some(0) && !timedOut && !ioError && !cleanupError
    ensures o == Timeout <==> timedOut
  {
    if timedOut then Timeout
    else if ioError then IoError
    else if cleanupError then CleanupError
    else if returncode.None? then SpawnError
    else if returncode.value == 0 then Success
    else if returncode.value < 0 then Signaled
    else Nonzero
  }

  /** How each failure to start is reported. */
  function FailureOf(message: Message): Ending {
    match message
    case DirectoryForbidden => PermissionDenied
    case ExecutableForbidden => PermissionDenied
    case ExecutableNotFound => Missing
    case _ => SpawnError
  }

  function RuntimeMessage(ending: Ending): Message {
    if ending == IoError then ReadFailed else if ending == CleanupError then CleanupUnconfirmed else NoMessage
  }

  method SpawnFailure(argv: seq<string>, argvTruncated: bool, message: Message) returns (r: CommandResult)
    ensures r.argv == argv && r.argvTruncated == argvTruncated && r.message == message
            && r.outcome == FailureOf(message)
    ensures r.missingExecutable <==> message == ExecutableNotFound
    ensures r.permissionDenied <==> r.outcome == PermissionDenied
    ensures r.returncode == None && !r.timedOut && !r.ioError && !r.cleanupError
  {
    var empty := StreamEvidence("", 0, 0, false, 0, false, false);
    var outcome := FailureOf(message);
    return CommandResult(argv, argvTruncated, outcome, message, None, false,
                         outcome == Missing, outcome == PermissionDenied, false, false, empty, empty);
  }

  /** The pipes that can be watched; the others are marked as broken. */
  method RegisterPipes(world: World, streams: seq<StreamAccumulator>) returns (open: set<nat>)
    requires Captured(world, streams, {STDOUT, STDERR})
    modifies streams
    ensures Captured(world, streams, open) && open <= {STDOUT, STDERR}
  {
    hide Captured;
    open := {STDOUT, STDERR};
    for fd := 0 to 2
      invariant Captured(world, streams, open) && open <= {STDOUT, STDERR}
    {
      var ok := world.Register();
      if !ok {
        MarkReadError(world, streams, fd, open);
        open := open - {fd};
      }
    }
  }

  /** The evidence of one stream: its first bytes within the limit as safe text, and a count of the rest. */
  ghost predicate Complete(e: StreamEvidence, bytes: Bytes, limit: nat, decode: Bytes -> string, unsafe: Category) {
    && e.captured == (if |bytes| < limit then |bytes| else limit) && e.captured + e.discarded == |bytes|
    && Normalizes(decode(bytes[..e.captured]), MAX_NORMALIZED_EVIDENCE_BYTES, true, unsafe,
                  Normalized(e.text, e.normalizedBytes, e.normalizedTruncated))
    && (e.truncated <==> e.discarded > 0 || e.normalizedTruncated || e.readError)
  }

  method Gather(world: World, streams: seq<StreamAccumulator>, decode: Bytes -> string, unsafe: Category,
                ghost open: set<nat>)
    returns (stdout: StreamEvidence, stderr: StreamEvidence)
    requires Captured(world, streams, open)
    ensures stdout.readError == streams[0].readError && stderr.readError == streams[1].readError
    ensures Complete(stdout, world.sent[STDOUT], streams[0].limit, decode, unsafe)
    ensures Complete(stderr, world.sent[STDERR], streams[1].limit, decode, unsafe)
  {
    hide Normalizes;
    stdout := streams[0].Evidence(decode, unsafe);
    stderr := streams[1].Evidence(decode, unsafe);
  }

  /** The loop and everything after it, up to the reaped child. */
  method Finish(world: World, streams: seq<StreamAccumulator>, deadline: int, grace: nat)
    returns (r: Outcome<(Option<int>, bool, bool)>, ghost last: Loop)
    requires Captured(world, streams, {STDOUT, STDERR}) && world.attempts == []
    modifies world, streams
    ensures !r.Killed? && Captured(world, streams, last.open)
    ensures r.Done? && !r.value.1 ==> last.open == {}
    ensures Timely(last, world.attempts, world.clock, deadline, grace) && last.finalized
    ensures r.Done? ==> r.value.1 == last.timedOut && (last.cleanupError ==> r.value.2)
  {
    hide Captured, Timely;
    var open := RegisterPipes(world, streams);
    var l := Loop(open, false, None, None, false, false);
    StartTimely(open, world.clock, deadline, grace);
    if open == {} {
      l := KillOnce(world, l, NoStreams, false, deadline, grace);
    }
    var r0;
    r0, last := Supervise(world, streams, l, deadline, grace);
    if r0.Done? {
      NoHardBound(r0.value, world.attempts, world.clock, deadline, grace);
      l := KillOnce(world, r0.value, Last, true, deadline, grace);
      var returncode, failed;
      returncode, failed, last := ReapProcess(world, l, deadline, grace);
      return Done((returncode, l.timedOut, l.cleanupError || failed)), last;
    }
    ghost var attempts := world.attempts;
    var confirmed := world.SignalGroup(Kill, Cleanup, false);
    AnyKillTimely(last, attempts, world.clock, deadline, grace, Cleanup, confirmed);
    last := last.(finalized := true, cleanupError := last.cleanupError || !confirmed);
    var _, _, after := ReapProcess(world, last, deadline, grace);
    return Raised(Interrupted), after;
  }

  lemma StartTimely(open: set<nat>, clock: int, deadline: int, grace: nat)
    ensures Timely(Loop(open, false, None, None, false, false), [], clock, deadline, grace)
  {
  }

  /** The hard bound is for runs that timed out. */
  lemma NoHardBound(l: Loop, attempts: seq<Attempt>, clock: int, deadline: int, grace: nat)
    requires Timely(l, attempts, clock, deadline, grace)
    ensures l.killSentAt.Some? ==> l.timedOut
  {
  }

  lemma FinalizedKilled(l: Loop, attempts: seq<Attempt>, clock: int, deadline: int, grace: nat)
    requires Timely(l, attempts, clock, deadline, grace) && l.finalized
    ensures GroupKilled(attempts)
  {
  }

  /**
   * A whole run. Once the child was started its group is sent SIGKILL whatever happens, SIGTERM goes out exactly when
   * the run timed out and not before the deadline, and every byte read is captured or counted as discarded. Success
   * means that both pipes were read to their end.
   */
  method Run(world: World, argv: seq<string>, command: Command, decode: Bytes -> string, unsafe: Category)
    returns (r: Outcome<CommandResult>, ghost started: bool, ghost began: int, ghost last: Loop)
    modifies world
    ensures !r.Killed?
    ensures r.Done? ==> |r.value.argv| == |argv| && TotalLength(r.value.argv) <= MAX_NORMALIZED_ARGV_BYTES
    ensures !started ==> (world.attempts == [] || world.attempts == old(world.attempts)) && r.Done?
                         && Fault(world.found, world.launched) == Some(r.value.message) && r.value.returncode == None
    ensures !started && r.Done? ==>
              && (r.value.outcome == Missing <==> world.found.IsDirectory? && world.launched.NotFound?)
              && (r.value.outcome == PermissionDenied <==>
                    world.found.DirectoryDenied? || (world.found.IsDirectory? && world.launched.Denied?))
              && r.value.outcome in [Missing, PermissionDenied, SpawnError]
    ensures started ==> GroupKilled(world.attempts)
    ensures began > old(world.clock)
    ensures started ==> Timely(last, world.attempts, world.clock, began + command.timeout, command.grace)
    ensures started && r.Done? ==> r.value.timedOut == last.timedOut && (last.cleanupError ==> r.value.cleanupError)
    ensures started && r.Done? ==> world.Valid()
    ensures started && r.Done? ==> Complete(r.value.stdout, world.sent[STDOUT], command.stdoutLimit, decode, unsafe)
    ensures started && r.Done? ==> Complete(r.value.stderr, world.sent[STDERR], command.stderrLimit, decode, unsafe)
    ensures started && r.Done? ==>
              (r.value.outcome == Success <==>
                 r.value.returncode == Some(0) && !r.value.timedOut && !r.value.ioError && !r.value.cleanupError)
    ensures started && r.Done? && r.value.outcome == Success ==> world.ended >= {STDOUT, STDERR}
    ensures started && r.Done? ==> (r.value.ioError <==> r.value.stdout.readError || r.value.stderr.readError)
  {
    hide Timely, Normalizes, Complete, GroupKilled, ArgNormalizes;
    last := Loop({}, false, None, None, false, false);
    started := false;
    var now := world.Monotonic();
    began := now;
    var safeArgv, argvTruncated, _ := NormalizeArgv(argv, unsafe);
    var launched := Start(world);
    if launched.Some? {
      var failure := SpawnFailure(safeArgv, argvTruncated, launched.value);
      return Done(failure), started, began, last;
    }
    started := true;
    var stdout := new StreamAccumulator(command.stdoutLimit);
    var stderr := new StreamAccumulator(command.stderrLimit);
    var streams := [stdout, stderr];
    var deadline := now + command.timeout;
    var finished;
    finished, last := Finish(world, streams, deadline, command.grace);
    FinalizedKilled(last, world.attempts, world.clock, deadline, command.grace);
    if finished.Raised? {
      return Raised(Interrupted), started, began, last;
    }
    var (returncode, timedOut, cleanupError) := finished.value;
    var outText, errText := Gather(world, streams, decode, unsafe, last.open);
    var ioError := outText.readError || errText.readError;
    var ending := Classify(returncode, timedOut, ioError, cleanupError);
    var result := CommandResult(safeArgv, argvTruncated, ending, RuntimeMessage(ending), returncode, timedOut,
                                false, false, ioError, cleanupError, outText, errText);
    return Done(result), started, began, last;
  }

  /** Why a child was not started, from what the inspection and the launch reported. */
  function Fault(found: WorkingDirectory, launch: Launch): Option<Message> {
    match found
    case DirectoryMissing => Some(DirectoryNotFound)
    case DirectoryDenied => Some(DirectoryForbidden)
    case DirectoryUnreadable => Some(DirectoryNotInspected)
    case NotADirectory => Some(DirectoryIsNone)
    case IsDirectory =>
      match launch
      case NotFound => Some(ExecutableNotFound)
      case Denied => Some(ExecutableForbidden)
      case Rejected => Some(StartupRejected)
      case Started => None
  }

  /** Look at the working directory and start the child, or say why not. */
  method Start(world: World) returns (failure: Option<Message>)
    modifies world
    ensures world.clock == old(world.clock)
    ensures failure == Fault(world.found, world.launched)
    ensures failure.Some? ==> world.attempts == [] || world.attempts == old(world.attempts)
    // nothing is launched in a directory that is none
    ensures !world.found.IsDirectory? ==> world.launched == old(world.launched) && world.attempts == old(world.attempts)
    ensures failure.None? ==> world.attempts == [] && world.sent == map[STDOUT := [], STDERR := []] && world.ended == {}
  {
    var directory := world.InspectDirectory();
    match directory {
      case DirectoryMissing => return Some(DirectoryNotFound);
      case DirectoryDenied => return Some(DirectoryForbidden);
      case DirectoryUnreadable => return Some(DirectoryNotInspected);
      case NotADirectory => return Some(DirectoryIsNone);
      case IsDirectory =>
    }
    var launch := world.Spawn();
    match launch {
      case NotFound => return Some(ExecutableNotFound);
      case Denied => return Some(ExecutableForbidden);
      case Rejected => return Some(StartupRejected);
      case Started => return None;
    }
  }
}
