/**
 * The controller (AdbController): it spawns adb, registers a handler for each
 * of adb's three streams with the poller, runs a script of tasks and carries
 * out what the tasks ask of the context.
 *
 * The context calls a task makes are recorded in the shared Context's log
 * (see Tasks); the controller's own Context implementation is `Perform`,
 * which applies each recorded call to the stream handlers right after the
 * task call that made it. Its answers are fixed: a write to stdin and a
 * timer start always succeed, as `put` and `startTimer` do.
 *
 * The system calls the handlers make (read, write) and those of the child
 * process are answers given as parameters; the clock is the parameter `now`.
 * A source assertion that fails at run time is the outcome Aborts.
 */
module Controller {
  import opened Handlers
  import opened Buffers
  import opened ChildProc
  import opened Tasks
  import opened Configs
  import Poller

  /** What an operation of the controller comes to: a returned value, or a failed assertion. */
  datatype Outcome = Returns(ok: bool) | Aborts

  /** The count of steps of the connect and disconnect scripts (WaitPrompt, LaunchActivity, GetResult). */
  const TaskCount: int := 3

  /**
   * ConnectScript and DisconnectScript (they differ only in name): a cursor
   * over the steps, and the context every task it creates shares.
   */
  class Script {
    const ctx: Context
    const connect: bool
    /** m_curr: the current step, -1 before the first. */
    var curr: int

    constructor (ctx: Context, connect: bool)
      ensures this.ctx == ctx && this.connect == connect && curr == -1
    {
      this.ctx, this.connect := ctx, connect;
      curr := -1;
    }

    /** hasNext: a step is left after the current one. */
    predicate HasNext()
      reads this
    {
      curr < TaskCount - 1
    }

    /** reset: back before the first step. */
    method Reset()
      modifies this
      ensures curr == -1
    {
      curr := -1;
    }

    /**
     * getNextTask: move to the next step (from -1 to 0, then one at a
     * time). Only the first step has a task, a WaitFirstPrompt on the
     * shared context; the others reach `assert(false)` and give no task.
     */
    method GetNextTask() returns (t: Task?)
      requires HasNext()
      modifies this
      ensures curr == (if old(curr) < 0 then 0 else old(curr) + 1)
      ensures curr == 0 ==> t != null && fresh(t) && t.kind == WaitFirstPrompt && t.ctx == ctx && t.foundTimes == 0
      ensures curr != 0 ==> t == null
    {
      if curr < 0 {
        curr := 0;
      } else {
        curr := curr + 1;
      }
      if curr == 0 {
        t := new Task(WaitFirstPrompt, ctx);
      } else {
        t := null;
      }
    }
  }

  /** The cursor after `k` calls of getNextTask on a new or reset script. */
  function Cursor(k: nat): int {
    if k == 0 then -1 else if Cursor(k - 1) < 0 then 0 else Cursor(k - 1) + 1
  }

  /**
   * A script runs through exactly three steps: after `k` calls the cursor
   * is k - 1, hasNext holds for k < 3, and only the first call yields a
   * task.
   */
  lemma {:induction false} ScriptSteps(k: nat)
    ensures Cursor(k) == k - 1
    ensures Cursor(k) < TaskCount - 1 <==> k < 3
  {
    if k > 0 {
      ScriptSteps(k - 1);
    }
  }

  /** The answer of one read() call: bytes (at most the requested count are taken), EAGAIN, or another error. */
  datatype ReadAnswer = Bytes(data: string) | WouldBlock | ReadFailed

  /** What Read returns: the total read, -1 on an error, or the readPtr assertion failing. */
  datatype ReadResult = ReadTotal(n: nat) | ReadError | ReadAborts

  /** The bytes read() delivers when `room` bytes are requested. */
  function Deliver(data: string, room: nat): (r: string)
    ensures |r| <= room
    ensures |data| <= room ==> r == data
  {
    if |data| <= room then data else data[..room]
  }

  /**
   * The size Read would request once the buffer is full:
   * ((2 * total >> 10) + 1) << 10, the next multiple of 1024 above twice
   * what was read. The read pointer's assertion fails before it is used.
   */
  function ChunkSize(total: nat): (r: nat)
    ensures r % 1024 == 0 && 2 * total < r <= 2 * total + 1024
  {
    ((2 * total) / 1024 + 1) * 1024
  }

  /** How one turn of Read's loop ends: it goes on, or Read returns. */
  datatype Turn = Again | Done(r: ReadResult)

  /**
   * One turn of Read's loop, with `total` bytes read, `room` bytes of room
   * and answer `i` next (EAGAIN once the answers run out): how it ends and
   * the bytes it adds to the buffer.
   */
  function ReadStep(room: nat, total: nat, answers: seq<ReadAnswer>, i: nat): (Turn, string)
  {
    if room == 0 then (Done(ReadAborts), [])
    else if i >= |answers| || answers[i].WouldBlock? then (Done(ReadTotal(total)), [])
    else if answers[i].ReadFailed? then (Done(ReadError), [])
    else
      var got := Deliver(answers[i].data, room);
      if |got| < room then (Done(ReadTotal(total + |got|)), got) else (Again, got)
  }

  /**
   * Read's loop from that point on, `got` being the bytes added so far:
   * turns until one ends it or `max` bytes are read; the result and all
   * the bytes added to the buffer.
   */
  function ReadRun(room: nat, total: nat, max: nat, answers: seq<ReadAnswer>, i: nat, got: string): (ReadResult, string)
    decreases |answers| - i
  {
    if total >= max then (ReadTotal(total), got)
    else
      var (turn, more) := ReadStep(room, total, answers, i);
      if turn.Done? || i >= |answers| then (turn.r, got + more)
      else ReadRun(room - |more|, total + |more|, max, answers, i + 1, got + more)
  }

  /**
   * Read reports exactly the bytes it added, never more than the room there
   * was; it fails its assertion exactly when the reads fill the room
   * before `max` bytes are read.
   */
  lemma {:induction false} ReadRunBounds(room: nat, total: nat, max: nat, answers: seq<ReadAnswer>, i: nat, got: string)
    ensures var r := ReadRun(room, total, max, answers, i, got);
      |got| <= |r.1| <= |got| + room && r.1[..|got|] == got &&
      (r.0.ReadTotal? ==> r.0.n == total + |r.1| - |got|) &&
      (r.0 == ReadAborts <==> |r.1| == |got| + room && total + room < max)
    decreases |answers| - i
  {
    if total < max {
      var (turn, more) := ReadStep(room, total, answers, i);
      if !(turn.Done? || i >= |answers|) {
        ReadRunBounds(room - |more|, total + |more|, max, answers, i + 1, got + more);
        var r := ReadRun(room - |more|, total + |more|, max, answers, i + 1, got + more);
        assert r.1[..|got|] == (r.1[..|got + more|])[..|got|];
      } else {
        assert (got + more)[..|got|] == got;
      }
    } else {
      assert got[..|got|] == got;
    }
  }

  /** The answer of one write() call: the count written (at most the size is taken), EAGAIN, or another error. */
  datatype WriteAnswer = Wrote(n: nat) | WriteBlocked | WriteFailed

  /** Write: the count written, 0 for EAGAIN, -1 for another error. */
  function WriteResult(ans: WriteAnswer, size: nat): (r: int)
    ensures -1 <= r <= size
    ensures r < 0 <==> ans.WriteFailed?
  {
    match ans
    case Wrote(n) => if n <= size then n else size
    case WriteBlocked => 0
    case WriteFailed => -1
  }

  /** The bytes one context call puts on adb's stdin. */
  function Data(c: CtxCall): string {
    if c.WriteStdIn? then c.data else []
  }

  /** The bytes the calls log[from..to] put on adb's stdin, in order. */
  function Written(log: seq<CtxCall>, lo: nat, hi: nat): string
    requires lo <= hi <= |log|
    decreases hi
  {
    if hi == lo then [] else Written(log, lo, hi - 1) + Data(log[hi - 1])
  }

  /** Some call of log[from..to] writes to stdin. */
  predicate AnyWrite(log: seq<CtxCall>, lo: nat, hi: nat)
    requires lo <= hi <= |log|
  {
    exists k :: lo <= k < hi && log[k].WriteStdIn?
  }

  /** Every write from `lo` on carries bytes (an empty append into a full buffer would fail its assertion). */
  predicate NonEmptyWrites(log: seq<CtxCall>, lo: nat) {
    forall k :: lo <= k < |log| && log[k].WriteStdIn? ==> |log[k].data| > 0
  }

  /** Context::timerCtl on the handler of stream `s`: a start resets the id's timer to now + ms, a stop removes it. */
  function TimerStep(ts: seq<TimerEntry>, c: CtxCall, s: FStream, now: Time): seq<TimerEntry> {
    match c
    case TimerStart(t, id, ms) => if t == s then Insert(Drop(ts, {id}), TimerEntry(now + ms, id)) else ts
    case TimerStop(t, id) => if t == s then Drop(ts, {id}) else ts
    case _ => ts
  }

  /** The timers of the handler of stream `s` after the calls log[from..to]. */
  function TimersAfter(ts: seq<TimerEntry>, log: seq<CtxCall>, lo: nat, hi: nat, s: FStream, now: Time): seq<TimerEntry>
    requires lo <= hi <= |log|
    decreases hi
  {
    if hi == lo then ts else TimerStep(TimersAfter(ts, log, lo, hi - 1, s, now), log[hi - 1], s, now)
  }

  /** One context call keeps a handler's timers in deadline order. */
  lemma TimerStepSorted(ts: seq<TimerEntry>, c: CtxCall, s: FStream, now: Time)
    requires Sorted(ts)
    ensures Sorted(TimerStep(ts, c, s, now))
  {
    match c
    case TimerStart(t, id, ms) =>
      if t == s {
        var d := Drop(ts, {id});
        DropSorted(ts, {id});
        InsertSorted(d, TimerEntry(now + ms, id));
        assert TimerStep(ts, c, s, now) == Insert(d, TimerEntry(now + ms, id));
      }
    case TimerStop(t, id) =>
      if t == s {
        DropSorted(ts, {id});
      }
    case WriteStdIn(_) =>
    case StartAdb(_) =>
  }

  /** Applying context calls keeps every handler's timers in deadline order. */
  lemma {:induction false} TimersAfterSorted(ts: seq<TimerEntry>, log: seq<CtxCall>, lo: nat, hi: nat, s: FStream, now: Time)
    requires Sorted(ts) && lo <= hi <= |log|
    ensures Sorted(TimersAfter(ts, log, lo, hi, s, now))
    decreases hi
  {
    if hi > lo {
      TimersAfterSorted(ts, log, lo, hi - 1, s, now);
      TimerStepSorted(TimersAfter(ts, log, lo, hi - 1, s, now), log[hi - 1], s, now);
    }
  }

  /** The calls log[lo..] are exactly `calls`. */
  predicate Made(log: seq<CtxCall>, lo: nat, calls: seq<CtxCall>) {
    lo + |calls| == |log| && forall k :: 0 <= k < |calls| ==> log[lo + k] == calls[k]
  }

  lemma MadeAt(log: seq<CtxCall>, lo: nat, calls: seq<CtxCall>, k: nat)
    requires Made(log, lo, calls) && k < |calls|
    ensures log[lo + k] == calls[k]
  {
  }

  /** Runs of one and two calls, step by step. */
  lemma ShortRuns(ts: seq<TimerEntry>, log: seq<CtxCall>, lo: nat, s: FStream, now: Time)
    requires lo + 1 <= |log|
    ensures TimersAfter(ts, log, lo, lo + 1, s, now) == TimerStep(ts, log[lo], s, now)
    ensures Written(log, lo, lo + 1) == Data(log[lo])
    ensures AnyWrite(log, lo, lo + 1) <==> log[lo].WriteStdIn?
    ensures lo + 2 <= |log| ==>
      TimersAfter(ts, log, lo, lo + 2, s, now) == TimerStep(TimerStep(ts, log[lo], s, now), log[lo + 1], s, now) &&
      Written(log, lo, lo + 2) == Data(log[lo]) + Data(log[lo + 1]) &&
      (AnyWrite(log, lo, lo + 2) <==> log[lo].WriteStdIn? || log[lo + 1].WriteStdIn?)
  {
    assert [] + Data(log[lo]) == Data(log[lo]);
  }

  /**
   * A task's start arms exactly one task timer on stdin, due `ms` after
   * now, and keeps the other timers.
   */
  lemma StartArmsOne(ts: seq<TimerEntry>, log: seq<CtxCall>, lo: nat, ms: int, now: Time)
    requires Made(log, lo, [TimerStart(StdIn, TaskTimerId, ms)])
    ensures var armed := TimersAfter(ts, log, lo, |log|, StdIn, now);
      Only(armed, TaskTimerId) == [TimerEntry(now + ms, TaskTimerId)] &&
      Drop(armed, {TaskTimerId}) == Drop(ts, {TaskTimerId})
  {
    var c := TimerStart(StdIn, TaskTimerId, ms);
    var e := TimerEntry(now + ms, TaskTimerId);
    MadeAt(log, lo, [c], 0);
    ShortRuns(ts, log, lo, StdIn, now);
    assert TimersAfter(ts, log, lo, |log|, StdIn, now) == Insert(Drop(ts, {e.id}), e);
    ResetTimerLeavesOne(ts, e);
  }

  /**
   * The prompt task's start, carried out: it writes nothing, arms the task
   * timer on stdin 10 s ahead, keeps the other stdin timers and touches
   * no timer of stdout or stderr.
   */
  lemma PromptStart(ts: seq<TimerEntry>, tout: seq<TimerEntry>, terr: seq<TimerEntry>, log: seq<CtxCall>, lo: nat, now: Time)
    requires Made(log, lo, [TimerStart(StdIn, TaskTimerId, FirstPromptWaitMs)])
    ensures NonEmptyWrites(log, lo) && Written(log, lo, |log|) == [] && !AnyWrite(log, lo, |log|)
    ensures var armed := TimersAfter(ts, log, lo, |log|, StdIn, now);
      Only(armed, TaskTimerId) == [TimerEntry(now + FirstPromptWaitMs, TaskTimerId)] &&
      Drop(armed, {TaskTimerId}) == Drop(ts, {TaskTimerId})
    ensures TimersAfter(tout, log, lo, |log|, StdOut, now) == tout
    ensures TimersAfter(terr, log, lo, |log|, StdErr, now) == terr
  {
    MadeAt(log, lo, [TimerStart(StdIn, TaskTimerId, FirstPromptWaitMs)], 0);
    StartArmsOne(ts, log, lo, FirstPromptWaitMs, now);
    ShortRuns(tout, log, lo, StdOut, now);
    ShortRuns(terr, log, lo, StdErr, now);
  }

  /** The calls of the prompt task's answer to the first prompt. */
  const Answer: seq<CtxCall> := [WriteStdIn(LineFeed), TimerStart(StdIn, TaskTimerId, SecondPromptWaitMs)]

  /** The bytes two calls write: the first's, then the second's. */
  lemma WrittenTwo(log: seq<CtxCall>, lo: nat)
    requires lo + 2 <= |log|
    ensures Written(log, lo, lo + 2) == Data(log[lo]) + Data(log[lo + 1])
  {
    assert Written(log, lo, lo + 1) == [] + Data(log[lo]);
    assert [] + Data(log[lo]) == Data(log[lo]);
  }

  /** The answer to the first prompt writes exactly a newline to stdin. */
  lemma PromptWrites(log: seq<CtxCall>, lo: nat)
    requires Made(log, lo, Answer)
    ensures NonEmptyWrites(log, lo) && Written(log, lo, |log|) == LineFeed && AnyWrite(log, lo, |log|)
  {
    MadeAt(log, lo, Answer, 0);
    MadeAt(log, lo, Answer, 1);
    assert |log| == lo + 2;
    WrittenTwo(log, lo);
    assert Data(log[lo]) == LineFeed && Data(log[lo + 1]) == [];
    assert LineFeed + [] == LineFeed;
    assert log[lo].WriteStdIn?;
    forall k | lo <= k < |log| && log[k].WriteStdIn?
      ensures |log[k].data| > 0
    {
      assert k == lo;
    }
  }

  /**
   * The answer to the first prompt re-arms the task timer on stdin 3 s
   * ahead; the other timers stay as they were.
   */
  lemma PromptTimers(ts: seq<TimerEntry>, tout: seq<TimerEntry>, terr: seq<TimerEntry>, log: seq<CtxCall>, lo: nat, now: Time)
    requires Made(log, lo, Answer)
    ensures var armed := TimersAfter(ts, log, lo, |log|, StdIn, now);
      Only(armed, TaskTimerId) == [TimerEntry(now + SecondPromptWaitMs, TaskTimerId)] &&
      Drop(armed, {TaskTimerId}) == Drop(ts, {TaskTimerId})
    ensures TimersAfter(tout, log, lo, |log|, StdOut, now) == tout
    ensures TimersAfter(terr, log, lo, |log|, StdErr, now) == terr
  {
    var e := TimerEntry(now + SecondPromptWaitMs, TaskTimerId);
    MadeAt(log, lo, Answer, 0);
    MadeAt(log, lo, Answer, 1);
    ShortRuns(ts, log, lo, StdIn, now);
    ShortRuns(tout, log, lo, StdOut, now);
    ShortRuns(terr, log, lo, StdErr, now);
    assert TimersAfter(ts, log, lo, |log|, StdIn, now) == Insert(Drop(ts, {e.id}), e);
    ResetTimerLeavesOne(ts, e);
  }

  /** The log a task's cleanup leaves, call by call. */
  lemma CleanupAt(log: seq<CtxCall>, lo: nat, kind: Kind)
    requires Made(log, lo, CleanupCalls(kind))
    ensures lo < |log| && log[lo] == WriteStdIn(if kind.WaitFirstPrompt? then ExitCmd else CtrlC)
    ensures kind.WaitDisconnectLog? ==> |log| == lo + 1
    ensures !kind.WaitDisconnectLog? ==> |log| == lo + 2 && log[lo + 1] == TimerStop(StdIn, TaskTimerId)
  {
    var cc := CleanupCalls(kind);
    MadeAt(log, lo, cc, 0);
    if !kind.WaitDisconnectLog? {
      MadeAt(log, lo, cc, 1);
    }
  }

  /** A cleanup of the prompt or a launch task leaves no task timer on stdin. */
  lemma CleanupDisarms(ts: seq<TimerEntry>, log: seq<CtxCall>, lo: nat, kind: Kind, now: Time)
    requires Made(log, lo, CleanupCalls(kind)) && !kind.WaitDisconnectLog?
    ensures Only(TimersAfter(ts, log, lo, |log|, StdIn, now), TaskTimerId) == []
  {
    CleanupAt(log, lo, kind);
    ShortRuns(ts, log, lo, StdIn, now);
    assert TimersAfter(ts, log, lo, |log|, StdIn, now) == Drop(ts, {TaskTimerId});
    DropMembers(ts, {TaskTimerId});
    OnlyNone(Drop(ts, {TaskTimerId}), TaskTimerId);
  }

  /** A cleanup of the prompt or a launch task leaves the other timers on stdin as they were. */
  lemma CleanupStops(ts: seq<TimerEntry>, log: seq<CtxCall>, lo: nat, kind: Kind, now: Time)
    requires Made(log, lo, CleanupCalls(kind)) && !kind.WaitDisconnectLog?
    ensures Drop(TimersAfter(ts, log, lo, |log|, StdIn, now), {TaskTimerId}) == Drop(ts, {TaskTimerId})
  {
    CleanupAt(log, lo, kind);
    ShortRuns(ts, log, lo, StdIn, now);
    assert TimersAfter(ts, log, lo, |log|, StdIn, now) == Drop(ts, {TaskTimerId});
    DropIdempotent(ts, {TaskTimerId});
  }

  /** No cleanup touches the timers of stdout or stderr. */
  lemma CleanupSparesOutput(ts: seq<TimerEntry>, log: seq<CtxCall>, lo: nat, kind: Kind, s: FStream, now: Time)
    requires Made(log, lo, CleanupCalls(kind)) && s != StdIn
    ensures TimersAfter(ts, log, lo, |log|, s, now) == ts
  {
    CleanupAt(log, lo, kind);
    ShortRuns(ts, log, lo, s, now);
  }

  /** A cleanup writes exactly its bytes to stdin: the shell's exit for the prompt task, Ctrl-C otherwise. */
  lemma CleanupWrites(log: seq<CtxCall>, lo: nat, kind: Kind)
    requires Made(log, lo, CleanupCalls(kind))
    ensures Written(log, lo, |log|) == if kind.WaitFirstPrompt? then ExitCmd else CtrlC
    ensures AnyWrite(log, lo, |log|) && NonEmptyWrites(log, lo)
  {
    var bytes := if kind.WaitFirstPrompt? then ExitCmd else CtrlC;
    CleanupAt(log, lo, kind);
    ShortRuns([], log, lo, StdIn, 0);
    if !kind.WaitDisconnectLog? {
      assert Data(log[lo + 1]) == [];
      assert bytes + [] == bytes;
    }
  }


  /** A registration as addHandler makes it: only under a good id that is not taken. */
  function Register(m: map<Poller.HandlerId, FileHandler>, id: Poller.HandlerId, h: FileHandler): (r: map<Poller.HandlerId, FileHandler>)
    ensures r.Keys <= m.Keys + {id} && (forall k :: k in m ==> k in r && r[k] == m[k])
    ensures id in r && r[id] == h <==> (id in m && m[id] == h) || (id != Poller.BadHandlerId && id !in m)
  {
    if id != Poller.BadHandlerId && id !in m then m[id := h] else m
  }

  /**
   * FHCommon, FHStdIn, FHStdOut and FHStdErr: the FileHandler registered for
   * one of adb's streams, its read buffer and, for stdin only, its write
   * buffer.
   */
  class StreamHandler {
    const stream: FStream
    const fh: FileHandler
    /** m_readBuf. */
    const readBuf: Buffer
    /** FHStdIn's m_writeBuf; the other handlers have none. */
    const writeBuf: Buffer?
    /** The id the poller gave this handler, BadHandlerId when not registered. */
    var handlerId: Poller.HandlerId

    ghost predicate Valid()
      reads fh, readBuf, writeBuf
    {
      fh.Valid() && readBuf.Valid() && |readBuf.buf| == DefaultCapacity &&
      (writeBuf != null <==> stream == StdIn) &&
      (writeBuf != null ==> writeBuf.Valid() && writeBuf != readBuf)
    }

    /** A handler for descriptor `fd`, with default-sized buffers; not registered yet. */
    constructor (stream: FStream, fd: int)
      ensures Valid() && this.stream == stream && fh.fd == fd && handlerId == Poller.BadHandlerId
      ensures fresh(fh) && fresh(readBuf) && (writeBuf != null ==> fresh(writeBuf))
      ensures !fh.IsEnabled() && !fh.WriteRequired() && fh.timers == [] && fh.alive
      ensures readBuf.Contents() == [] && (writeBuf != null ==> writeBuf.Contents() == [])
    {
      this.stream := stream;
      fh := new FileHandler(fd);
      readBuf := new Buffer(DefaultCapacity);
      if stream == StdIn {
        writeBuf := new Buffer(DefaultCapacity);
      } else {
        writeBuf := null;
      }
      handlerId := Poller.BadHandlerId;
    }

    /**
     * One turn of Read's loop: the size requested is the buffer's free
     * space (when there is none the source computes a larger size, but the
     * read pointer's assertion fails first); one read() fills it.
     */
    method ReadTurn(total: nat, answers: seq<ReadAnswer>, i: nat) returns (turn: Turn, n: nat)
      requires readBuf.Valid()
      modifies readBuf
      ensures readBuf.Valid() && |readBuf.buf| == |old(readBuf.buf)|
      ensures readBuf.RestSize() == old(readBuf.RestSize()) - n
      ensures var step := ReadStep(old(readBuf.RestSize()), total, answers, i);
        turn == step.0 && n == |step.1| && readBuf.Contents() == old(readBuf.Contents()) + step.1
    {
      var rest := readBuf.RestSize();
      if rest == 0 {
        rest := ChunkSize(total);
        return Done(ReadAborts), 0;
      }
      var p := readBuf.ReadPtr();
      if i >= |answers| || answers[i].WouldBlock? {
        return Done(ReadTotal(total)), 0;
      }
      if answers[i].ReadFailed? {
        return Done(ReadError), 0;
      }
      var data := Deliver(answers[i].data, rest);
      readBuf.Receive(data);
      n := |data|;
      turn := if n < rest then Done(ReadTotal(total + n)) else Again;
    }

    /**
     * Read(max): read into the buffer until EAGAIN, a short read, or `max`
     * bytes; any other error gives -1.
     */
    method Read(max: nat, answers: seq<ReadAnswer>) returns (r: ReadResult)
      requires Valid()
      modifies readBuf
      ensures Valid()
      ensures var run := ReadRun(old(readBuf.RestSize()), 0, max, answers, 0, []);
        r == run.0 && readBuf.Contents() == old(readBuf.Contents()) + run.1
    {
      ghost var held := readBuf.Contents();
      ghost var room := readBuf.RestSize();
      ghost var whole := ReadRun(room, 0, max, answers, 0, []);
      ghost var got: string := [];
      var total: nat := 0;
      var i := 0;
      while total < max
        invariant readBuf.Valid() && |readBuf.buf| == DefaultCapacity
        invariant room == readBuf.RestSize()
        invariant readBuf.Contents() == held + got
        invariant whole == ReadRun(room, total, max, answers, i, got)
        decreases |answers| - i
      {
        ghost var step := ReadStep(room, total, answers, i);
        var turn, n := ReadTurn(total, answers, i);
        assert (held + got) + step.1 == held + (got + step.1);
        got := got + step.1;
        if turn.Done? || i >= |answers| {
          return turn.r;
        }
        total := total + n;
        i := i + 1;
        room := room - n;
      }
      r := ReadTotal(total);
    }

    /** Context::timerCtl on this handler: start (resetting an earlier one) or stop the call's timer. */
    method ApplyTimer(c: CtxCall, now: Time)
      requires Valid() && (c.TimerStart? || c.TimerStop?) && c.stream == stream
      modifies fh
      ensures Valid() && fh.flags == old(fh.flags) && fh.alive == old(fh.alive)
      ensures fh.timers == TimerStep(old(fh.timers), c, stream, now)
    {
      ghost var ts := fh.timers;
      ghost var want := TimerStep(ts, c, stream, now);
      if c.TimerStart? {
        assert want == Insert(Drop(ts, {c.id}), TimerEntry(now + c.ms, c.id));
        var _ := fh.StartTimer(c.id, c.ms, true, now);
        assert fh.timers == want;
      } else {
        assert want == Drop(ts, {c.id});
        fh.StopTimer(c.id);
        assert fh.timers == want;
      }
    }

    /** put(data): append to the write buffer and ask to be polled for writing; always true. */
    method Put(data: string) returns (ok: bool)
      requires Valid() && stream == StdIn && (|data| > 0 || writeBuf.RestSize() > 0)
      modifies writeBuf, fh
      ensures Valid() && ok
      ensures writeBuf.Contents() == old(writeBuf.Contents()) + data
      ensures fh.WriteRequired() && fh.IsEnabled() == old(fh.IsEnabled())
      ensures fh.timers == old(fh.timers) && fh.alive == old(fh.alive)
    {
      writeBuf.Append(data, false);
      fh.SetWriteRequest(true);
      ok := true;
    }

    /**
     * FHStdIn::onReadyToWrite's writing part: write what is pending, drop
     * exactly the bytes written from the front, and stop asking to write
     * once nothing is left. The result is what Write returned (negative on
     * an error, when nothing changes).
     */
    method Drain(ans: WriteAnswer) returns (sz: int)
      requires Valid() && stream == StdIn
      modifies writeBuf, fh
      ensures Valid() && fh.timers == old(fh.timers) && fh.alive == old(fh.alive)
      ensures fh.IsEnabled() == old(fh.IsEnabled())
      ensures var held := old(writeBuf.Contents());
        (held == [] ==> sz == 0 && writeBuf.Contents() == [] && !fh.WriteRequired()) &&
        (held != [] ==> sz == WriteResult(ans, |held|)) &&
        (held != [] && sz < 0 ==> writeBuf.Contents() == held && fh.WriteRequired() == old(fh.WriteRequired())) &&
        (held != [] && sz >= 0 ==>
          writeBuf.Contents() == held[sz..] && fh.WriteRequired() == (old(fh.WriteRequired()) && sz < |held|))
    {
      sz := 0;
      var empty := writeBuf.Empty();
      if !empty {
        sz := WriteResult(ans, writeBuf.Size());
        if sz < 0 {
          return;
        }
        writeBuf.PushHead(sz, false);
        empty := writeBuf.Empty();
      }
      if empty {
        fh.SetWriteRequest(false);
      }
    }
  }

  /** The id a handler was registered under, if any: none for BadHandlerId. */
  function IdOf(h: StreamHandler?): set<Poller.HandlerId>
    reads h
  {
    if h == null || h.handlerId == Poller.BadHandlerId then {} else {h.handlerId}
  }

  /** The ids the handlers were registered under, BadHandlerId left out. */
  function Ids(a: StreamHandler?, b: StreamHandler?, c: StreamHandler?): set<Poller.HandlerId>
    reads a, b, c
  {
    IdOf(a) + IdOf(b) + IdOf(c)
  }

  /** The objects a handler owns. */
  function Owned(h: StreamHandler?): set<object> {
    if h == null then {}
    else {h.fh, h.readBuf} + (if h.writeBuf == null then {} else {h.writeBuf as object})
  }

  /** Removing three sets of keys one after the other removes them together. */
  lemma RemoveInTurn(m: map<Poller.HandlerId, FileHandler>, a: set<Poller.HandlerId>, b: set<Poller.HandlerId>, c: set<Poller.HandlerId>)
    ensures m - a - b - c == m - (a + b + c)
  {
    var l := m - a - b - c;
    var r := m - (a + b + c);
    assert l.Keys == r.Keys;
  }

  /** The handler object of a stream handler that exists. */
  function FhOf(h: StreamHandler?): set<FileHandler> {
    if h == null then {} else {h.fh}
  }

  /** The handler objects of the stream handlers that exist. */
  function Fhs(a: StreamHandler?, b: StreamHandler?, c: StreamHandler?): set<FileHandler> {
    FhOf(a) + FhOf(b) + FhOf(c)
  }

  /** The close a FileHandler's destructor makes: its descriptor unless that is -1. */
  function CloseFd(fd: int): seq<SysCall> {
    if fd == -1 then [] else [Close(fd)]
  }

  /** The close a stream handler's release makes, if the handler exists. */
  function Closing(h: StreamHandler?): seq<SysCall> {
    if h == null then [] else CloseFd(h.fh.fd)
  }

  /** Registering three handlers adds no handler object but those three. */
  lemma RegisteredValues(m: map<Poller.HandlerId, FileHandler>, a: Poller.HandlerId, b: Poller.HandlerId, c: Poller.HandlerId,
                         ha: FileHandler, hb: FileHandler, hc: FileHandler)
    ensures Register(Register(Register(m, a, ha), b, hb), c, hc).Values <= m.Values + {ha, hb, hc}
  {
    var r := Register(Register(Register(m, a, ha), b, hb), c, hc);
    forall v | v in r.Values ensures v in m.Values + {ha, hb, hc} {
      var k :| k in r && r[k] == v;
      if k in m && k != a && k != b && k != c {
        assert m[k] == v;
      }
    }
  }

  /**
   * On an empty table, getNextSeq hands each of init's three registrations
   * a good id: with at most two ids taken, a free one other than the
   * counter always exists.
   */
  lemma EmptyTableRegisters(k0: Poller.HandlerId, a: Poller.HandlerId, b: Poller.HandlerId, c: Poller.HandlerId,
                            ha: FileHandler, hb: FileHandler)
    requires Poller.FirstFreeAfter(k0, {}, a)
    requires a != Poller.BadHandlerId ==> Poller.FirstFreeAfter(a, Register(map[], a, ha).Keys, b)
    requires b != Poller.BadHandlerId ==> Poller.FirstFreeAfter(b, Register(Register(map[], a, ha), b, hb).Keys, c)
    ensures a != Poller.BadHandlerId && b != Poller.BadHandlerId && c != Poller.BadHandlerId
  {
    Poller.FreeWhenRoom(k0, {}, a, if k0 == 1 then 2 else 1);
    var m1 := Register(map[], a, ha);
    assert m1.Keys == {a};
    Poller.FreeWhenRoom(a, m1.Keys, b, if a == 1 then 2 else 1);
    var m2 := Register(m1, b, hb);
    assert m2.Keys == {a, b};
    var x: Poller.HandlerId := if 1 !in {a, b} then 1 else if 2 !in {a, b} then 2 else 3;
    Poller.FreeWhenRoom(b, m2.Keys, c, x);
  }

  /** Registering three handlers and then removing their ids leaves part of the old table. */
  lemma RegisterUndone(m: map<Poller.HandlerId, FileHandler>, a: Poller.HandlerId, b: Poller.HandlerId, c: Poller.HandlerId,
                       ha: FileHandler, hb: FileHandler, hc: FileHandler, gone: set<Poller.HandlerId>)
    requires a != Poller.BadHandlerId ==> a in gone
    requires b != Poller.BadHandlerId ==> b in gone
    requires c != Poller.BadHandlerId ==> c in gone
    ensures var r := Register(Register(Register(m, a, ha), b, hb), c, hc) - gone;
      r.Keys <= m.Keys && forall id :: id in r ==> r[id] == m[id]
  {
  }

  /**
   * The system calls of cleanup (no forced stop) for a process with
   * parent-side descriptors `fds` and pid `pid`, the handlers' closes last.
   */
  function Teardown(fds: seq<int>, pid: int, w: WaitAnswers, closes: seq<SysCall>): seq<SysCall>
  {
    CloseNegative(fds) + (if pid > 0 then WaitOutcome(pid, false, 0, w).0 else []) + closes
  }

  /** The descriptors a successful exec leaves for adb's stdin, stdout and stderr. */
  function ExecFds(flags: bv32, pipes: seq<PipeAnswer>, oldErr: int): seq<int>
    requires |pipes| == 3
  {
    [pipes[0].writeEnd, pipes[1].readEnd, if Used(flags) == 3 then pipes[2].readEnd else oldErr]
  }

  /** Handlers for stdin, stdout and stderr, in that order, that share no object. */
  ghost predicate Trio(a: StreamHandler?, b: StreamHandler?, c: StreamHandler?)
    reads Owned(a) + Owned(b) + Owned(c)
  {
    a != null && b != null && c != null &&
    a.stream == StdIn && b.stream == StdOut && c.stream == StdErr &&
    a.Valid() && b.Valid() && c.Valid() &&
    a.fh != b.fh && a.fh != c.fh && b.fh != c.fh &&
    a.readBuf != b.readBuf && a.readBuf != c.readBuf && b.readBuf != c.readBuf &&
    a.writeBuf != b.readBuf && a.writeBuf != c.readBuf
  }

  /** The largest read of one onReadyToRead: Read's default `max`. */
  const MaxRead: nat := 10 * 1024

  class AdbController {
    /** m_adbCtx: the context shared by the script and its tasks. */
    const ctx: Context
    /** m_adbProc: adb, spawned with fDefault | fStdErr. */
    const proc: ChildProcess
    const poller: Poller.FilePoller
    var stdin: StreamHandler?
    var stdout: StreamHandler?
    var stderr: StreamHandler?
    /** m_currTask. */
    var task: Task?
    /** m_script. */
    var script: Script?

    ghost function Parts(): set<object>
      reads this
    {
      Owned(stdin) + Owned(stdout) + Owned(stderr)
    }

    /** The three handlers exist, each for its own stream, and share no object. */
    ghost predicate Streams()
      reads this, Parts()
    {
      Trio(stdin, stdout, stderr)
    }

    /**
     * The controller's invariant: the context answers as the controller's
     * Context does; the handlers exist all together or not at all; a script
     * exists only with the handlers, and a task only with a script at its
     * first step.
     */
    ghost predicate Inv()
      reads this, ctx, poller, poller.Objects(), Parts(), task, script
    {
      ctx.writeOk && ctx.timerOk && poller.Valid() &&
      (stdin == null <==> stdout == null) && (stdin == null <==> stderr == null) &&
      (stdin != null ==> Streams()) &&
      (script != null ==> stdin != null && script.ctx == ctx && -1 <= script.curr < TaskCount) &&
      (task != null ==> script != null && script.curr == 0 && task.ctx == ctx && task.kind == WaitFirstPrompt && task.Valid())
    }

    /** Between events the prompt task has seen at most one prompt. */
    ghost predicate Valid()
      reads this, ctx, poller, poller.Objects(), Parts(), task, script
    {
      Inv() && (task != null ==> task.foundTimes <= 1)
    }

    /** Nothing is left: no task, no script, no handlers. */
    predicate Torn()
      reads this
    {
      task == null && script == null && stdin == null && stdout == null && stderr == null
    }

    /** AdbController(cfg, fpoll): the context over `cfg`, the process flags, no handlers yet. */
    constructor (cfg: Config, poller: Poller.FilePoller, adbOk: bool)
      requires poller.Valid()
      ensures Valid() && Torn() && this.poller == poller && fresh(ctx) && fresh(proc)
      ensures ctx.config == cfg && ctx.adbOk == adbOk && ctx.log == []
      ensures proc.flags == FDefault | FStdErr && proc.pid == -1
    {
      ctx := new Context(cfg, true, true, adbOk);
      proc := new ChildProcess(FDefault | FStdErr);
      this.poller := poller;
      stdin, stdout, stderr := null, null, null;
      task, script := null, null;
    }

    /** exitCode: 0 iff a script exists and has no step left. */
    function ExitCode(): (code: int)
      reads this, script
      ensures code == 0 || code == 1
      ensures code == 0 <==> script != null && !script.HasNext()
    {
      if script != null && !script.HasNext() then 0 else 1
    }

    /** getFH: the handler of a stream. */
    function GetFH(s: FStream): (h: StreamHandler?)
      reads this
      ensures h == (if s == StdIn then stdin else if s == StdOut then stdout else stderr)
    {
      match s
      case StdIn => stdin
      case StdOut => stdout
      case StdErr => stderr
    }

    /** The handler of each stream carries that stream. */
    lemma GetFHStream(s: FStream)
      requires Inv() && stdin != null
      ensures GetFH(s) != null && GetFH(s).stream == s
      ensures GetFH(s) in {stdin, stdout, stderr}
    {
    }

    /** Context::writeStdIn: put the bytes on the stdin handler. */
    method WriteStdInCall(data: string)
      requires Inv() && stdin != null && |data| > 0
      modifies stdin.fh, stdin.writeBuf
      ensures Inv()
      ensures stdin.writeBuf.Contents() == old(stdin.writeBuf.Contents()) + data
      ensures stdin.fh.timers == old(stdin.fh.timers) && stdin.fh.alive == old(stdin.fh.alive)
      ensures stdin.fh.IsEnabled() == old(stdin.fh.IsEnabled()) && stdin.fh.WriteRequired()
    {
      var _ := stdin.Put(data);
    }

    /**
     * Context::timerCtl for a recorded timer call: start (resetting an
     * earlier one) or stop the timer on the handler of the call's stream.
     */
    method TimerCtl(c: CtxCall, now: Time)
      requires Inv() && stdin != null && (c.TimerStart? || c.TimerStop?)
      modifies GetFH(c.stream).fh
      ensures Inv()
      ensures stdin.fh.timers == TimerStep(old(stdin.fh.timers), c, StdIn, now)
      ensures stdout.fh.timers == TimerStep(old(stdout.fh.timers), c, StdOut, now)
      ensures stderr.fh.timers == TimerStep(old(stderr.fh.timers), c, StdErr, now)
      ensures GetFH(c.stream).fh.flags == old(GetFH(c.stream).fh.flags) && GetFH(c.stream).fh.alive == old(GetFH(c.stream).fh.alive)
    {
      var h := GetFH(c.stream);
      h.ApplyTimer(c, now);
    }

    /**
     * One call of the controller's Context: writeStdIn puts the bytes on
     * the stdin handler, timerCtl starts or stops the timer on the stream's
     * handler, startAdb has nothing to do here.
     */
    method PerformOne(c: CtxCall, now: Time)
      requires Inv() && stdin != null && (c.WriteStdIn? ==> |c.data| > 0)
      modifies stdin.fh, stdout.fh, stderr.fh, stdin.writeBuf
      ensures Inv()
      ensures stdin.writeBuf.Contents() == old(stdin.writeBuf.Contents()) + Data(c)
      ensures stdin.fh.timers == TimerStep(old(stdin.fh.timers), c, StdIn, now)
      ensures stdout.fh.timers == TimerStep(old(stdout.fh.timers), c, StdOut, now)
      ensures stderr.fh.timers == TimerStep(old(stderr.fh.timers), c, StdErr, now)
      ensures stdin.fh.IsEnabled() == old(stdin.fh.IsEnabled())
      ensures stdin.fh.WriteRequired() == (old(stdin.fh.WriteRequired()) || c.WriteStdIn?)
      ensures stdout.fh.flags == old(stdout.fh.flags) && stderr.fh.flags == old(stderr.fh.flags)
      ensures stdin.fh.alive == old(stdin.fh.alive) && stdout.fh.alive == old(stdout.fh.alive) && stderr.fh.alive == old(stderr.fh.alive)
    {
      match c
      case WriteStdIn(data) =>
        WriteStdInCall(data);
        assert stdin.writeBuf.Contents() == old(stdin.writeBuf.Contents()) + data;
      case TimerStart(_, _, _) =>
        TimerCtl(c, now);
      case TimerStop(_, _) =>
        TimerCtl(c, now);
      case StartAdb(_) =>
    }

    /** The controller's Context carrying out, in order, the calls made since `mark`. */
    method Perform(mark: nat, now: Time)
      requires Inv() && stdin != null && mark <= |ctx.log| && NonEmptyWrites(ctx.log, mark)
      modifies stdin.fh, stdout.fh, stderr.fh, stdin.writeBuf
      ensures Inv()
      ensures stdin.writeBuf.Contents() == old(stdin.writeBuf.Contents()) + Written(ctx.log, mark, |ctx.log|)
      ensures stdin.fh.timers == TimersAfter(old(stdin.fh.timers), ctx.log, mark, |ctx.log|, StdIn, now)
      ensures stdout.fh.timers == TimersAfter(old(stdout.fh.timers), ctx.log, mark, |ctx.log|, StdOut, now)
      ensures stderr.fh.timers == TimersAfter(old(stderr.fh.timers), ctx.log, mark, |ctx.log|, StdErr, now)
      ensures stdin.fh.WriteRequired() == (old(stdin.fh.WriteRequired()) || AnyWrite(ctx.log, mark, |ctx.log|))
      ensures stdin.fh.IsEnabled() == old(stdin.fh.IsEnabled())
      ensures stdout.fh.flags == old(stdout.fh.flags) && stderr.fh.flags == old(stderr.fh.flags)
      ensures stdin.fh.alive == old(stdin.fh.alive) && stdout.fh.alive == old(stdout.fh.alive) && stderr.fh.alive == old(stderr.fh.alive)
    {
      ghost var pending := stdin.writeBuf.Contents();
      ghost var (tin, tout, terr) := (stdin.fh.timers, stdout.fh.timers, stderr.fh.timers);
      ghost var wr := stdin.fh.WriteRequired();
      for i := mark to |ctx.log|
        invariant Inv()
        invariant stdin.writeBuf.Contents() == pending + Written(ctx.log, mark, i)
        invariant stdin.fh.timers == TimersAfter(tin, ctx.log, mark, i, StdIn, now)
        invariant stdout.fh.timers == TimersAfter(tout, ctx.log, mark, i, StdOut, now)
        invariant stderr.fh.timers == TimersAfter(terr, ctx.log, mark, i, StdErr, now)
        invariant stdin.fh.WriteRequired() == (wr || AnyWrite(ctx.log, mark, i))
        invariant stdin.fh.IsEnabled() == old(stdin.fh.IsEnabled())
        invariant stdout.fh.flags == old(stdout.fh.flags) && stderr.fh.flags == old(stderr.fh.flags)
        invariant stdin.fh.alive == old(stdin.fh.alive) && stdout.fh.alive == old(stdout.fh.alive) && stderr.fh.alive == old(stderr.fh.alive)
      {
        ghost var before := stdin.writeBuf.Contents();
        PerformOne(ctx.log[i], now);
        assert before + Data(ctx.log[i]) == pending + Written(ctx.log, mark, i + 1);
        assert AnyWrite(ctx.log, mark, i + 1) <==> AnyWrite(ctx.log, mark, i) || ctx.log[i].WriteStdIn?;
      }
    }

    /**
     * cleanup: drop the task and the script, disable every handler, clean
     * up the process (no forced stop), unregister every handler that got
     * an id, then release the handlers, whose destructors close their
     * descriptors. The calls are the process's, then those closes.
     */
    method Cleanup(w: WaitAnswers) returns (calls: seq<SysCall>)
      requires poller.Valid() && ctx.writeOk && ctx.timerOk
      modifies this, proc, poller, Fhs(stdin, stdout, stderr)
      ensures Inv() && Torn() && ExitCode() == 1
      ensures poller.handlers == old(poller.handlers) - old(Ids(stdin, stdout, stderr))
      ensures proc.flags == old(proc.flags) && proc.pid == (if old(proc.pid) <= 0 then old(proc.pid) else 0)
      ensures calls == CloseNegative([old(proc.fdStdin), old(proc.fdStdout), old(proc.fdStderr)]) +
        (if old(proc.pid) > 0 then WaitOutcome(old(proc.pid), false, 0, w).0 else []) +
        (Closing(old(stdin)) + Closing(old(stdout)) + Closing(old(stderr)))
    {
      // The handlers' steps act on the poller and the handlers, the
      // process's on the process alone, so their order does not matter.
      var hc := DropHandlers(stdin, stdout, stderr);
      calls := proc.Cleanup(false, 0, w);
      task, script := null, null;
      stdin, stdout, stderr := null, null, null;
      calls := calls + hc;
    }

    /**
     * cleanup's two handler loops and the resets, for each handler that
     * exists: unregister it if it has an id, disable it and release it.
     */
    method DropHandlers(a: StreamHandler?, b: StreamHandler?, c: StreamHandler?) returns (calls: seq<SysCall>)
      requires poller.Valid()
      modifies poller, Fhs(a, b, c)
      ensures poller.Valid()
      ensures poller.handlers == old(poller.handlers) - old(Ids(a, b, c))
      ensures calls == Closing(a) + Closing(b) + Closing(c)
      ensures forall h :: h in Fhs(a, b, c) ==> !h.IsEnabled() && !h.alive
    {
      ghost var before := poller.handlers;
      var c1 := Release(a);
      var c2 := Release(b);
      var c3 := Release(c);
      RemoveInTurn(before, IdOf(a), IdOf(b), IdOf(c));
      calls := c1 + c2 + c3;
    }

    /**
     * One handler's part of cleanup: removeHandler under its id unless that
     * is BadHandlerId, setState(false), and the reset of the last reference
     * to it, whose destructor closes its descriptor.
     */
    method Release(h: StreamHandler?) returns (calls: seq<SysCall>)
      requires poller.Valid()
      modifies poller, FhOf(h)
      ensures poller.Valid()
      ensures poller.handlers == old(poller.handlers) - IdOf(h)
      ensures calls == Closing(h)
      ensures h != null ==> !h.fh.IsEnabled() && !h.fh.alive
    {
      if h == null {
        return [];
      }
      if h.handlerId != Poller.BadHandlerId {
        poller.RemoveHandler(h.handlerId);
      }
      h.fh.SetState(false);
      var closed := h.fh.Destroy();
      calls := if closed == [] then [] else [Close(closed[0])];
    }

    /**
     * init: spawn adb; on success make the three stream handlers over its
     * descriptors and register them in turn, each only when the one before
     * got an id; when any did not, clean up and fail. A spawn that fails
     * changes nothing.
     */
    method Init(pipes: seq<PipeAnswer>, forkPid: int, w: WaitAnswers) returns (ok: bool, calls: seq<SysCall>)
      requires Torn() && ctx.writeOk && ctx.timerOk && poller.Valid() && |pipes| == 3 && forkPid != 0
      modifies this, proc, poller
      ensures Inv() && task == null && script == null && proc.flags == old(proc.flags)
      ensures var spawned := PipeStage(proc.flags, pipes).0 == 3 && forkPid > 0;
        var ec := ExecCalls(proc.flags, pipes, forkPid);
        var fds := ExecFds(proc.flags, pipes, old(proc.fdStderr));
        (!spawned ==> !ok && Torn() && poller.handlers == old(poller.handlers) && calls == ec) &&
        (ok ==> spawned && calls == ec) &&
        (spawned && !ok ==> calls == ec + Teardown(fds, forkPid, w, CloseFd(fds[0]) + CloseFd(fds[1]) + CloseFd(fds[2])))
      ensures ok ==>
        stdin != null && fresh(stdin) && fresh(stdout) && fresh(stderr) && fresh(Parts()) &&
        stdin.fh.fd == proc.fdStdin && stdout.fh.fd == proc.fdStdout && stderr.fh.fd == proc.fdStderr &&
        proc.pid == forkPid && stdin.handlerId != Poller.BadHandlerId &&
        stdout.handlerId != Poller.BadHandlerId && stderr.handlerId != Poller.BadHandlerId &&
        poller.handlers == Register(Register(Register(old(poller.handlers),
          stdin.handlerId, stdin.fh), stdout.handlerId, stdout.fh), stderr.handlerId, stderr.fh)
      ensures !ok ==>
        Torn() && poller.handlers.Keys <= old(poller.handlers).Keys &&
        forall id :: id in poller.handlers ==> poller.handlers[id] == old(poller.handlers)[id]
      ensures ok ==> stdin.fh.alive && !stdin.fh.IsEnabled()
      ensures old(poller.handlers) == map[] ==>
        (ok <==> PipeStage(proc.flags, pipes).0 == 3 && forkPid > 0) &&
        (ok ==> stdin.handlerId in poller.handlers && poller.handlers[stdin.handlerId] == stdin.fh && poller.Stuck())
    {
      ok, calls := proc.Exec(pipes, forkPid);
      if ok {
        var more;
        ok, more := Spawned(w);
        calls := calls + more;
        if ok && old(poller.handlers) == map[] {
          assert stdin.handlerId in poller.handlers && poller.handlers[stdin.handlerId] == stdin.fh;
        }
      }
    }

    /**
     * init after a successful spawn: make and register the handlers; when
     * one registration fails, cleanup.
     */
    method Spawned(w: WaitAnswers) returns (ok: bool, calls: seq<SysCall>)
      requires Torn() && ctx.writeOk && ctx.timerOk && poller.Valid()
      modifies this, proc, poller
      ensures Inv() && task == null && script == null && proc.flags == old(proc.flags)
      ensures ok ==>
        stdin != null && fresh(stdin) && fresh(stdout) && fresh(stderr) && fresh(Parts()) && calls == [] &&
        proc.fdStdin == old(proc.fdStdin) && proc.fdStdout == old(proc.fdStdout) &&
        proc.fdStderr == old(proc.fdStderr) && proc.pid == old(proc.pid) &&
        stdin.fh.fd == proc.fdStdin && stdout.fh.fd == proc.fdStdout && stderr.fh.fd == proc.fdStderr &&
        stdin.handlerId != Poller.BadHandlerId && stdout.handlerId != Poller.BadHandlerId &&
        stderr.handlerId != Poller.BadHandlerId &&
        poller.handlers == Register(Register(Register(old(poller.handlers),
          stdin.handlerId, stdin.fh), stdout.handlerId, stdout.fh), stderr.handlerId, stderr.fh)
      ensures !ok ==>
        Torn() && poller.handlers.Keys <= old(poller.handlers).Keys &&
        (forall id :: id in poller.handlers ==> poller.handlers[id] == old(poller.handlers)[id]) &&
        calls == Teardown([old(proc.fdStdin), old(proc.fdStdout), old(proc.fdStderr)], old(proc.pid), w,
          CloseFd(old(proc.fdStdin)) + CloseFd(old(proc.fdStdout)) + CloseFd(old(proc.fdStderr)))
      ensures ok ==> stdin.fh.alive && !stdin.fh.IsEnabled()
      ensures old(poller.handlers) == map[] ==> ok
    {
      ghost var before := poller.handlers;
      ok := Attach();
      if !ok {
        assert before != map[];
        ghost var (a, b, c) := (stdin, stdout, stderr);
        calls := Cleanup(w);
        RegisterUndone(before, a.handlerId, b.handlerId, c.handlerId, a.fh, b.fh, c.fh, Ids(a, b, c));
      } else {
        calls := [];
      }
    }

    /**
     * init after a successful spawn: the handlers over adb's descriptors,
     * registered in turn; the result says whether all three got an id.
     */
    method Attach() returns (ok: bool)
      requires Torn() && ctx.writeOk && ctx.timerOk && poller.Valid()
      modifies this, poller
      ensures Inv() && task == null && script == null && stdin != null
      ensures fresh(stdin) && fresh(stdout) && fresh(stderr) && fresh(Parts())
      ensures stdin.fh.fd == proc.fdStdin && stdout.fh.fd == proc.fdStdout && stderr.fh.fd == proc.fdStderr
      ensures stdin.fh.alive && !stdin.fh.IsEnabled()
      ensures ok <==>
        stdin.handlerId != Poller.BadHandlerId && stdout.handlerId != Poller.BadHandlerId &&
        stderr.handlerId != Poller.BadHandlerId
      ensures poller.handlers == Register(Register(Register(old(poller.handlers),
        stdin.handlerId, stdin.fh), stdout.handlerId, stdout.fh), stderr.handlerId, stderr.fh)
      ensures old(poller.handlers) == map[] ==> ok
    {
      var i, o, e := MakeStreams(proc.fdStdin, proc.fdStdout, proc.fdStderr);
      Adopt(i, o, e);
      ok := i.handlerId != Poller.BadHandlerId && o.handlerId != Poller.BadHandlerId && e.handlerId != Poller.BadHandlerId;
    }

    /** The three handlers over the given descriptors, made and registered in turn. */
    method MakeStreams(fdIn: int, fdOut: int, fdErr: int) returns (i: StreamHandler, o: StreamHandler, e: StreamHandler)
      requires poller.Valid()
      modifies poller
      ensures poller.Valid() && Trio(i, o, e) && fresh(i) && fresh(o) && fresh(e) && fresh(Owned(i) + Owned(o) + Owned(e))
      ensures i.fh.fd == fdIn && o.fh.fd == fdOut && e.fh.fd == fdErr && i.fh.alive && !i.fh.IsEnabled()
      ensures poller.handlers == Register(Register(Register(old(poller.handlers),
        i.handlerId, i.fh), o.handlerId, o.fh), e.handlerId, e.fh)
      ensures old(poller.handlers) == map[] ==>
        i.handlerId != Poller.BadHandlerId && o.handlerId != Poller.BadHandlerId && e.handlerId != Poller.BadHandlerId
    {
      i, o, e := NewStreams(fdIn, fdOut, fdErr);
      RegisterAll(i, o, e);
    }

    /** The members m_fhStdIn, m_fhStdOut and m_fhStdErr take the new handlers. */
    method Adopt(i: StreamHandler, o: StreamHandler, e: StreamHandler)
      requires Torn() && ctx.writeOk && ctx.timerOk && poller.Valid() && Trio(i, o, e)
      modifies this
      ensures Inv() && task == null && script == null
      ensures stdin == i && stdout == o && stderr == e
    {
      stdin, stdout, stderr := i, o, e;
    }

    /** init's make_shared of the three handlers over the given descriptors. */
    static method NewStreams(fdIn: int, fdOut: int, fdErr: int) returns (i: StreamHandler, o: StreamHandler, e: StreamHandler)
      ensures Trio(i, o, e) && fresh(i) && fresh(o) && fresh(e) && fresh(Owned(i) + Owned(o) + Owned(e))
      ensures i.fh.fd == fdIn && o.fh.fd == fdOut && e.fh.fd == fdErr
      ensures i.fh.timers == [] && o.fh.timers == [] && e.fh.timers == []
      ensures !i.fh.IsEnabled() && !o.fh.IsEnabled() && !e.fh.IsEnabled()
      ensures i.fh.alive && o.fh.alive && e.fh.alive && !i.fh.WriteRequired()
      ensures i.readBuf.Contents() == [] && o.readBuf.Contents() == [] && e.readBuf.Contents() == []
      ensures i.writeBuf.Contents() == []
    {
      i := new StreamHandler(StdIn, fdIn);
      o := new StreamHandler(StdOut, fdOut);
      e := new StreamHandler(StdErr, fdErr);
    }

    /**
     * init's registrations: stdin's handler, then stdout's only when stdin
     * got an id, then stderr's only when stdout got one; a skipped handler
     * keeps BadHandlerId.
     */
    method RegisterAll(i: StreamHandler, o: StreamHandler, e: StreamHandler)
      requires poller.Valid() && Trio(i, o, e)
      requires i.fh !in poller.Objects() && o.fh !in poller.Objects() && e.fh !in poller.Objects()
      modifies poller, i, o, e
      ensures poller.Valid() && Trio(i, o, e)
      ensures Poller.FirstFreeAfter(old(poller.counter), old(poller.handlers).Keys, i.handlerId)
      ensures var m1 := Register(old(poller.handlers), i.handlerId, i.fh);
        var m2 := Register(m1, o.handlerId, o.fh);
        (i.handlerId == Poller.BadHandlerId ==> o.handlerId == Poller.BadHandlerId) &&
        (i.handlerId != Poller.BadHandlerId ==> Poller.FirstFreeAfter(i.handlerId, m1.Keys, o.handlerId)) &&
        (o.handlerId == Poller.BadHandlerId ==> e.handlerId == Poller.BadHandlerId) &&
        (o.handlerId != Poller.BadHandlerId ==> Poller.FirstFreeAfter(o.handlerId, m2.Keys, e.handlerId)) &&
        poller.handlers == Register(m2, e.handlerId, e.fh)
      ensures old(poller.handlers) == map[] ==>
        i.handlerId != Poller.BadHandlerId && o.handlerId != Poller.BadHandlerId && e.handlerId != Poller.BadHandlerId
    {
      ghost var (k0, m0) := (poller.counter, poller.handlers);
      Enroll(i, true, i, o, e);
      Enroll(o, i.handlerId != Poller.BadHandlerId, i, o, e);
      Enroll(e, o.handlerId != Poller.BadHandlerId, i, o, e);
      if m0 == map[] {
        EmptyTableRegisters(k0, i.handlerId, o.handlerId, e.handlerId, i.fh, o.fh);
      }
    }

    /**
     * One of init's registrations: addHandler when `go`, BadHandlerId
     * otherwise. The handlers `a`, `b`, `c` are untouched but for `h`'s id.
     */
    method Enroll(h: StreamHandler, go: bool, ghost a: StreamHandler, ghost b: StreamHandler, ghost c: StreamHandler)
      requires poller.Valid() && h.fh.Valid() && h.fh !in poller.Objects() && Trio(a, b, c)
      modifies poller, h
      ensures poller.Valid() && poller.Objects() <= old(poller.Objects()) + {h.fh} && Trio(a, b, c)
      ensures go ==>
        Poller.FirstFreeAfter(old(poller.counter), old(poller.handlers).Keys, h.handlerId) && poller.counter == h.handlerId
      ensures !go ==> h.handlerId == Poller.BadHandlerId
      ensures poller.handlers == Register(old(poller.handlers), h.handlerId, h.fh)
    {
      if go {
        h.handlerId := poller.AddHandler(h.fh);
      } else {
        h.handlerId := Poller.BadHandlerId;
      }
    }

    /** The system calls cleanup makes from this state: the process's (no forced stop), then the handlers' closes. */
    function TeardownCalls(w: WaitAnswers): seq<SysCall>
      reads this, proc
    {
      Teardown([proc.fdStdin, proc.fdStdout, proc.fdStderr], proc.pid, w, Closing(stdin) + Closing(stdout) + Closing(stderr))
    }

    /**
     * switchTask(Next), first half: the current task's cleanup, with the
     * context calls it makes carried out. The prompt task writes the
     * shell's exit and disarms its timer.
     */
    method Retire(now: Time)
      requires Inv() && stdin != null && task != null
      modifies task, ctx, stdin.fh, stdout.fh, stderr.fh, stdin.writeBuf
      ensures Inv() && task.foundTimes == 0
      ensures stdin.writeBuf.Contents() == old(stdin.writeBuf.Contents()) + ExitCmd
      ensures Only(stdin.fh.timers, TaskTimerId) == [] && Drop(stdin.fh.timers, {TaskTimerId}) == Drop(old(stdin.fh.timers), {TaskTimerId})
      ensures stdout.fh.timers == old(stdout.fh.timers) && stderr.fh.timers == old(stderr.fh.timers)
    {
      var mark := |ctx.log|;
      ghost var ts := stdin.fh.timers;
      task.Cleanup();
      CleanupWrites(ctx.log, mark, task.kind);
      CleanupDisarms(ts, ctx.log, mark, task.kind, now);
      CleanupStops(ts, ctx.log, mark, task.kind, now);
      CleanupSparesOutput(stdout.fh.timers, ctx.log, mark, task.kind, StdOut, now);
      CleanupSparesOutput(stderr.fh.timers, ctx.log, mark, task.kind, StdErr, now);
      Perform(mark, now);
    }

    /**
     * switchTask(Next), second half: start the new task, with the context
     * calls it makes carried out. The prompt task arms its timer on stdin;
     * the controller's Context always arms it, so start succeeds and the
     * cleanup switchTask does after a failed start is never reached.
     */
    method Begin(now: Time)
      requires Inv() && stdin != null && task != null
      modifies ctx, stdin.fh, stdout.fh, stderr.fh, stdin.writeBuf
      ensures Inv()
      ensures stdin.writeBuf.Contents() == old(stdin.writeBuf.Contents())
      ensures Only(stdin.fh.timers, TaskTimerId) == [TimerEntry(now + FirstPromptWaitMs, TaskTimerId)]
      ensures Drop(stdin.fh.timers, {TaskTimerId}) == Drop(old(stdin.fh.timers), {TaskTimerId})
      ensures stdout.fh.timers == old(stdout.fh.timers) && stderr.fh.timers == old(stderr.fh.timers)
      ensures stdin.fh.IsEnabled() == old(stdin.fh.IsEnabled()) && stdin.fh.alive == old(stdin.fh.alive)
    {
      var mark := |ctx.log|;
      ghost var ts := stdin.fh.timers;
      var ok := task.Start();
      assert ok;
      PromptStart(ts, stdout.fh.timers, stderr.fh.timers, ctx.log, mark, now);
      Perform(mark, now);
    }

    /**
     * switchTask(Next): clean up the current task, then, while the script
     * has a step left, make and start the next task. Only the first step
     * has one: moving past it reaches the null task assertion.
     */
    method Advance(now: Time) returns (out: Outcome)
      requires Inv() && stdin != null && script != null
      modifies this, ctx, task, script, stdin.fh, stdout.fh, stderr.fh, stdin.writeBuf
      ensures out == Aborts <==> 0 <= old(script.curr) < TaskCount - 1
      ensures out != Aborts ==> out == Returns(true) && Valid()
      ensures stdin == old(stdin) && stdout == old(stdout) && stderr == old(stderr) && script == old(script)
      ensures old(script.curr) == -1 ==>
        script.curr == 0 && task != null && fresh(task) && task.kind == WaitFirstPrompt && task.foundTimes == 0 &&
        stdin.writeBuf.Contents() == old(stdin.writeBuf.Contents()) &&
        Only(stdin.fh.timers, TaskTimerId) == [TimerEntry(now + FirstPromptWaitMs, TaskTimerId)] &&
        Drop(stdin.fh.timers, {TaskTimerId}) == Drop(old(stdin.fh.timers), {TaskTimerId}) &&
        stdout.fh.timers == old(stdout.fh.timers) && stderr.fh.timers == old(stderr.fh.timers) &&
        stdin.fh.IsEnabled() == old(stdin.fh.IsEnabled()) && stdin.fh.alive == old(stdin.fh.alive)
      ensures old(script.curr) == TaskCount - 1 ==> unchanged(this, script) && unchanged(stdin.fh, stdout.fh, stderr.fh, stdin.writeBuf)
    {
      if task != null {
        Retire(now);
      }
      if script.HasNext() {
        var t := script.GetNextTask();
        if t == null {
          return Aborts;
        }
        task := t;
        Begin(now);
      }
      out := Returns(true);
    }

    /**
     * switchTask: a failure cleans up and returns false; Continue changes
     * nothing; Next moves the script on.
     */
    method SwitchTask(res: Res, now: Time, w: WaitAnswers) returns (out: Outcome, calls: seq<SysCall>)
      requires Inv() && stdin != null && script != null && (res.Continue? ==> Valid())
      modifies this, ctx, task, script, proc, poller, Fhs(stdin, stdout, stderr), stdin.writeBuf
      ensures res.Fail? ==> out == Returns(false) && Inv() && Torn() && calls == old(TeardownCalls(w))
      ensures res.Fail? ==> poller.handlers == old(poller.handlers) - old(Ids(stdin, stdout, stderr))
      ensures res.Continue? ==>
        out == Returns(true) && calls == [] && unchanged(this, ctx, proc, poller) &&
        unchanged(Parts()) && (task != null ==> unchanged(task))
      ensures res.Next? ==> calls == [] && unchanged(proc, poller) && (out == Aborts <==> 0 <= old(script.curr) < TaskCount - 1)
      ensures !res.Fail? && out != Aborts ==>
        out == Returns(true) && Valid() && script == old(script) &&
        stdin == old(stdin) && stdout == old(stdout) && stderr == old(stderr)
    {
      match res
      case Fail =>
        calls := Cleanup(w);
        out := Returns(false);
      case Continue =>
        out, calls := Returns(true), [];
      case Next =>
        out := Advance(now);
        calls := [];
    }

    /** While a script runs: the handlers, the script and its current task exist. */
    predicate Running()
      reads this
    {
      stdin != null && script != null && task != null
    }

    /**
     * FHCommon::onReadyToRead once bytes were read, up to switchTask: the
     * whole filled buffer goes to the task's onDataReady, the context calls
     * it makes are carried out and, unless it failed, the bytes it consumed
     * are cut. Only a stdout chunk ending in a prompt matters: the first is
     * answered with a newline and a 3 s timer, the second moves on.
     */
    method Offer(s: FStream, now: Time) returns (res: Res)
      requires Valid() && Running() && s != StdIn && GetFH(s).readBuf.Contents() != []
      modifies task, ctx, stdin.fh, stdout.fh, stderr.fh, stdin.writeBuf, GetFH(s).readBuf
      ensures Inv() && res != Fail && (res == Continue ==> Valid()) && GetFH(s).readBuf.Contents() == []
      ensures stdout.fh.timers == old(stdout.fh.timers) && stderr.fh.timers == old(stderr.fh.timers)
      ensures var prompt := s == StdOut && IsPrompt(old(GetFH(s).readBuf.Contents()));
        (!prompt ==>
          res == Continue && task.foundTimes == old(task.foundTimes) &&
          stdin.writeBuf.Contents() == old(stdin.writeBuf.Contents()) && stdin.fh.timers == old(stdin.fh.timers)) &&
        (prompt && old(task.foundTimes) == 0 ==>
          res == Continue && task.foundTimes == 1 &&
          stdin.writeBuf.Contents() == old(stdin.writeBuf.Contents()) + LineFeed &&
          Only(stdin.fh.timers, TaskTimerId) == [TimerEntry(now + SecondPromptWaitMs, TaskTimerId)] &&
          Drop(stdin.fh.timers, {TaskTimerId}) == Drop(old(stdin.fh.timers), {TaskTimerId})) &&
        (prompt && old(task.foundTimes) == 1 ==> res == Next)
    {
      var h := GetFH(s);
      var p := h.readBuf.Head();
      var input := h.readBuf.buf[p..p + h.readBuf.filled];
      var size;
      res, size := Hand(s, input, now);
      if res != Fail {
        h.readBuf.Cut(size, false);
      }
    }

    /**
     * onDataReady on the current task for a chunk from stdout or stderr,
     * with the context calls it makes carried out.
     */
    method Hand(s: FStream, input: string, now: Time) returns (res: Res, size: nat)
      requires Valid() && Running() && s != StdIn && |input| <= DefaultCapacity
      modifies task, ctx, stdin.fh, stdout.fh, stderr.fh, stdin.writeBuf
      ensures Inv() && res != Fail && (res == Continue ==> Valid()) && size == |input|
      ensures stdout.fh.timers == old(stdout.fh.timers) && stderr.fh.timers == old(stderr.fh.timers)
      ensures var prompt := s == StdOut && IsPrompt(input);
        (!prompt ==>
          res == Continue && task.foundTimes == old(task.foundTimes) &&
          stdin.writeBuf.Contents() == old(stdin.writeBuf.Contents()) && stdin.fh.timers == old(stdin.fh.timers)) &&
        (prompt && old(task.foundTimes) == 0 ==>
          res == Continue && task.foundTimes == 1 &&
          stdin.writeBuf.Contents() == old(stdin.writeBuf.Contents()) + LineFeed &&
          Only(stdin.fh.timers, TaskTimerId) == [TimerEntry(now + SecondPromptWaitMs, TaskTimerId)] &&
          Drop(stdin.fh.timers, {TaskTimerId}) == Drop(old(stdin.fh.timers), {TaskTimerId})) &&
        (prompt && old(task.foundTimes) == 1 ==> res == Next)
    {
      var mark := |ctx.log|;
      ghost var (ts, tout, terr) := (stdin.fh.timers, stdout.fh.timers, stderr.fh.timers);
      ghost var found := task.foundTimes;
      res, size := task.OnDataReady(s, input);
      if s == StdOut && IsPrompt(input) && found == 0 {
        PromptWrites(ctx.log, mark);
        PromptTimers(ts, tout, terr, ctx.log, mark, now);
      }
      Perform(mark, now);
    }

    /** FHCommon::onReadyToRead once bytes were read: the task's verdict on them, then switchTask. */
    method Consume(s: FStream, now: Time, w: WaitAnswers) returns (out: Outcome, calls: seq<SysCall>)
      requires Valid() && Running() && s != StdIn && GetFH(s).readBuf.Contents() != []
      modifies this, ctx, task, script, proc, poller, Fhs(stdin, stdout, stderr), stdin.writeBuf, GetFH(s).readBuf
      ensures out != Aborts ==>
        out == Returns(true) && calls == [] && Valid() && Running() && task == old(task) &&
        stdin == old(stdin) && stdout == old(stdout) && stderr == old(stderr) && GetFH(s).readBuf.Contents() == []
      ensures var prompt := s == StdOut && IsPrompt(old(GetFH(s).readBuf.Contents()));
        (!prompt ==>
          out != Aborts && task.foundTimes == old(task.foundTimes) &&
          stdin.writeBuf.Contents() == old(stdin.writeBuf.Contents()) && stdin.fh.timers == old(stdin.fh.timers)) &&
        (prompt && old(task.foundTimes) == 0 ==>
          out != Aborts && task.foundTimes == 1 &&
          stdin.writeBuf.Contents() == old(stdin.writeBuf.Contents()) + LineFeed &&
          Only(stdin.fh.timers, TaskTimerId) == [TimerEntry(now + SecondPromptWaitMs, TaskTimerId)] &&
          Drop(stdin.fh.timers, {TaskTimerId}) == Drop(old(stdin.fh.timers), {TaskTimerId})) &&
        (prompt && old(task.foundTimes) == 1 ==> out == Aborts)
    {
      var res := Offer(s, now);
      out, calls := SwitchTask(res, now, w);
    }

    /**
     * FHCommon::onReadyToRead and FHStdIn::onReadyToRead: stdin becoming
     * readable is a failure; for stdout and stderr, Read into the stream's
     * buffer, fail on an error or an empty read, otherwise hand the whole
     * buffer to the task.
     */
    method OnReadyToRead(s: FStream, answers: seq<ReadAnswer>, now: Time, w: WaitAnswers) returns (out: Outcome, calls: seq<SysCall>)
      requires Valid() && Running()
      modifies this, ctx, task, script, proc, poller, Fhs(stdin, stdout, stderr), stdin.writeBuf, GetFH(s).readBuf
      ensures s == StdIn ==> out == Returns(false) && Torn() && calls == old(TeardownCalls(w))
      ensures s != StdIn ==>
        var run := ReadRun(old(GetFH(s).readBuf.RestSize()), 0, MaxRead, answers, 0, []);
        var input := old(GetFH(s).readBuf.Contents()) + run.1;
        var prompt := s == StdOut && |input| < NPos && IsPrompt(input);
        (run.0 == ReadAborts ==> out == Aborts) &&
        (run.0 == ReadError || run.0 == ReadTotal(0) ==> out == Returns(false) && Torn() && calls == old(TeardownCalls(w))) &&
        (run.0.ReadTotal? && run.0.n > 0 ==>
          (out == Aborts <==> prompt && old(task.foundTimes) == 1) &&
          (out != Aborts ==>
            out == Returns(true) && calls == [] && Valid() && Running() && task == old(task) &&
            stdin == old(stdin) && stdout == old(stdout) && stderr == old(stderr) &&
            GetFH(s).readBuf.Contents() == [] &&
            task.foundTimes == (if prompt then 1 else old(task.foundTimes)) &&
            stdin.writeBuf.Contents() == old(stdin.writeBuf.Contents()) + (if prompt then LineFeed else [])))
    {
      if s == StdIn {
        out, calls := SwitchTask(Fail, now, w);
        return;
      }
      var h := GetFH(s);
      ReadRunBounds(h.readBuf.RestSize(), 0, MaxRead, answers, 0, []);
      var r := h.Read(MaxRead, answers);
      out, calls := AfterRead(s, r, now, w);
    }

    /** FHCommon::onReadyToRead after Read returned `r`. */
    method AfterRead(s: FStream, r: ReadResult, now: Time, w: WaitAnswers) returns (out: Outcome, calls: seq<SysCall>)
      requires Valid() && Running() && s != StdIn && (r.ReadTotal? ==> |GetFH(s).readBuf.Contents()| >= r.n)
      modifies this, ctx, task, script, proc, poller, Fhs(stdin, stdout, stderr), stdin.writeBuf, GetFH(s).readBuf
      ensures r == ReadAborts ==> out == Aborts
      ensures r == ReadError || r == ReadTotal(0) ==> out == Returns(false) && Torn() && calls == old(TeardownCalls(w))
      ensures r.ReadTotal? && r.n > 0 ==>
        var input := old(GetFH(s).readBuf.Contents());
        var prompt := s == StdOut && IsPrompt(input);
        (out == Aborts <==> prompt && old(task.foundTimes) == 1) &&
        (out != Aborts ==>
          out == Returns(true) && calls == [] && Valid() && Running() && task == old(task) &&
          stdin == old(stdin) && stdout == old(stdout) && stderr == old(stderr) &&
          GetFH(s).readBuf.Contents() == [] &&
          task.foundTimes == (if prompt then 1 else old(task.foundTimes)) &&
          stdin.writeBuf.Contents() == old(stdin.writeBuf.Contents()) + (if prompt then LineFeed else []))
    {
      if r.ReadAborts? {
        return Aborts, [];
      }
      if r.ReadError? || r.n == 0 {
        out, calls := SwitchTask(Fail, now, w);
        return;
      }
      out, calls := Consume(s, now, w);
    }

    /**
     * FHStdIn::onReadyToWrite: drain the write buffer, failing on a write
     * error. The other streams' onReadyToWrite asserts.
     */
    method OnReadyToWrite(s: FStream, ans: WriteAnswer, now: Time, w: WaitAnswers) returns (out: Outcome, calls: seq<SysCall>)
      requires Valid() && Running()
      modifies this, ctx, task, script, proc, poller, Fhs(stdin, stdout, stderr), stdin.writeBuf
      ensures s != StdIn ==> out == Aborts
      ensures s == StdIn ==>
        var held := old(stdin.writeBuf.Contents());
        (held != [] && ans.WriteFailed? ==> out == Returns(false) && Torn() && calls == old(TeardownCalls(w))) &&
        (!(held != [] && ans.WriteFailed?) ==>
          out == Returns(true) && calls == [] && Valid() && Running() && stdin == old(stdin) &&
          stdin.writeBuf.Contents() == (if held == [] then [] else held[WriteResult(ans, |held|)..]) &&
          stdin.fh.WriteRequired() == (old(stdin.fh.WriteRequired()) && stdin.writeBuf.Contents() != []) &&
          stdin.fh.timers == old(stdin.fh.timers))
    {
      if s != StdIn {
        return Aborts, [];
      }
      var sz := stdin.Drain(ans);
      if sz < 0 {
        out, calls := SwitchTask(Fail, now, w);
        return;
      }
      out, calls := Returns(true), [];
    }

    /**
     * FHCommon::onTimer: the current task's onTimer (it asserts that this
     * is its timer on stdin), whose cleanup calls are carried out, then
     * switchTask on its verdict, which is always Fail.
     */
    method OnTimer(s: FStream, id: TimerId, now: Time, w: WaitAnswers) returns (out: Outcome, calls: seq<SysCall>)
      requires Valid() && Running()
      modifies this, ctx, task, script, proc, poller, Fhs(stdin, stdout, stderr), stdin.writeBuf
      ensures s != StdIn || id != TaskTimerId ==> out == Aborts
      ensures s == StdIn && id == TaskTimerId ==>
        out == Returns(false) && Torn() && ExitCode() == 1 && calls == old(TeardownCalls(w)) &&
        poller.handlers == old(poller.handlers) - old(Ids(stdin, stdout, stderr))
    {
      if s != StdIn || id != TaskTimerId {
        return Aborts, [];
      }
      var res := TimeOut(now);
      out, calls := SwitchTask(res, now, w);
    }

    /** The current task's onTimer for its own timer, with the cleanup calls it makes carried out. */
    method TimeOut(now: Time) returns (res: Res)
      requires Inv() && Running()
      modifies task, ctx, stdin.fh, stdout.fh, stderr.fh, stdin.writeBuf
      ensures Inv() && res == Fail
    {
      var mark := |ctx.log|;
      res := task.OnTimer(StdIn, TaskTimerId);
      CleanupWrites(ctx.log, mark, task.kind);
      Perform(mark, now);
    }

    /** FHCommon::onError: switchTask(Fail). */
    method OnError(now: Time, w: WaitAnswers) returns (out: Outcome, calls: seq<SysCall>)
      requires Valid() && Running()
      modifies this, ctx, task, script, proc, poller, Fhs(stdin, stdout, stderr), stdin.writeBuf
      ensures out == Returns(false) && Torn() && ExitCode() == 1 && calls == old(TeardownCalls(w))
      ensures poller.handlers == old(poller.handlers) - old(Ids(stdin, stdout, stderr))
    {
      out, calls := SwitchTask(Fail, now, w);
    }

    /**
     * connectWiFi (`connect`) and disconnectWiFi: init, then a new script
     * of that kind and switchTask(Next), which starts its prompt task with
     * a 10 s timer on stdin.
     */
    method Run(connect: bool, pipes: seq<PipeAnswer>, forkPid: int, now: Time, w: WaitAnswers) returns (out: Outcome, calls: seq<SysCall>)
      requires Valid() && Torn() && |pipes| == 3 && forkPid != 0
      modifies this, proc, poller, ctx
      ensures out != Aborts && ExitCode() == 1
      ensures var spawned := PipeStage(old(proc.flags), pipes).0 == 3 && forkPid > 0;
        var ec := ExecCalls(old(proc.flags), pipes, forkPid);
        (!spawned ==> out == Returns(false) && calls == ec && poller.handlers == old(poller.handlers)) &&
        (out == Returns(true) ==> spawned && calls == ec)
      ensures out == Returns(false) ==> Valid() && Torn()
      ensures out == Returns(true) ==>
        Valid() && Running() && fresh(script) && script.connect == connect && script.curr == 0 &&
        fresh(task) && task.kind == WaitFirstPrompt && task.foundTimes == 0 &&
        Only(stdin.fh.timers, TaskTimerId) == [TimerEntry(now + FirstPromptWaitMs, TaskTimerId)]
      ensures out == Returns(true) ==> fresh(Parts()) && poller.Objects() <= old(poller.Objects()) + Parts()
      ensures old(poller.handlers) == map[] ==>
        (out == Returns(true) <==> PipeStage(old(proc.flags), pipes).0 == 3 && forkPid > 0) &&
        (out == Returns(true) ==> poller.Stuck())
    {
      var ok;
      ghost var before := poller.handlers;
      ok, calls := Init(pipes, forkPid, w);
      if !ok {
        return Returns(false), calls;
      }
      RegisteredValues(before, stdin.handlerId, stdout.handlerId, stderr.handlerId, stdin.fh, stdout.fh, stderr.fh);
      ghost var (id, h) := (stdin.handlerId, stdin.fh);
      out := Launch(connect, now);
      if before == map[] {
        assert id in poller.handlers && poller.handlers[id] == h && h.alive && !h.IsEnabled();
      }
    }

    /** The part of connectWiFi and disconnectWiFi after a successful init: the script and its first task. */
    method Launch(connect: bool, now: Time) returns (out: Outcome)
      requires Inv() && stdin != null && script == null && task == null
      modifies this, ctx, stdin.fh, stdout.fh, stderr.fh, stdin.writeBuf
      ensures out == Returns(true) && ExitCode() == 1 && stdin == old(stdin) && stdout == old(stdout) && stderr == old(stderr)
      ensures Valid() && Running() && fresh(script) && script.connect == connect && script.curr == 0 &&
        fresh(task) && task.kind == WaitFirstPrompt && task.foundTimes == 0 &&
        Only(stdin.fh.timers, TaskTimerId) == [TimerEntry(now + FirstPromptWaitMs, TaskTimerId)]
      ensures stdin.fh.IsEnabled() == old(stdin.fh.IsEnabled()) && stdin.fh.alive == old(stdin.fh.alive)
    {
      script := new Script(ctx, connect);
      out := Advance(now);
    }
  }
}
