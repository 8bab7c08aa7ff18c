/**
 * The adb child process as the parent sees it (ChildProcess): three
 * parent-side pipe ends, the child's pid, the creation flags, and the
 * bookkeeping around pipe creation, fork, teardown and reaping.
 *
 * Every system call is an input: the methods take the answers the kernel
 * gives (pipe descriptors, fcntl, fork, kill and waitpid results) and return
 * the calls they make, in order. The child's side of fork (redirection and
 * execlp) is not part of this model.
 */
module ChildProc {

  /** ChildProcess::Flags. */
  const FStdin: bv32 := 0x1
  const FStdout: bv32 := 0x2
  const FStdErr: bv32 := 0x4
  const FNonblock: bv32 := 0x8
  const FDefaultStream: bv32 := FStdout | FStdin
  const FDefault: bv32 := FDefaultStream | FNonblock

  /** Linux signal and errno values the code compares against. */
  const SIGKILL: int := 9
  const SIGTERM: int := 15
  const ESRCH: int := 3

  /** The system calls the parent makes. */
  datatype SysCall =
    | MakePipe
    | SetNonblock(fd: int)
    | Close(fd: int)
    | Fork
    | Kill(pid: int, sig: int)
    | WaitPid(pid: int, noHang: bool)
    | Sleep(seconds: nat)

  /**
   * What pipe() and the fcntl after it answer: whether the pipe was made, its
   * read and write ends, and whether setting O_NONBLOCK succeeds.
   */
  datatype PipeAnswer = PipeAnswer(made: bool, readEnd: int, writeEnd: int, fcntlOk: bool)

  /**
   * What wait() is told: the errno of the first kill (0 when it succeeds),
   * the answer of each non-blocking waitpid, and that of the blocking one.
   */
  datatype WaitAnswers = WaitAnswers(killErrno: int, reaps: nat -> int, final: int)

  /**
   * openPipe: make a pipe and, with fNonblock, make the parent's end
   * non-blocking (the read end when `nbReadSide`, else the write end); if
   * that fails close both ends. Result: success and the calls made.
   */
  function OpenPipe(flags: bv32, a: PipeAnswer, nbReadSide: bool): (r: (bool, seq<SysCall>))
    ensures r.0 <==> a.made && (flags & FNonblock == 0 || a.fcntlOk)
    ensures |r.1| >= 1 && r.1[0] == MakePipe
    ensures a.made && flags & FNonblock != 0 ==>
      |r.1| >= 2 && r.1[1] == SetNonblock(if nbReadSide then a.readEnd else a.writeEnd)
    ensures !r.0 && a.made ==> |r.1| == 4 && r.1[2..] == [Close(a.readEnd), Close(a.writeEnd)]
    ensures r.0 || !a.made ==> forall c :: c in r.1 ==> !c.Close?
  {
    if !a.made then (false, [MakePipe])
    else if flags & FNonblock != 0 then
      var nb := SetNonblock(if nbReadSide then a.readEnd else a.writeEnd);
      if a.fcntlOk then (true, [MakePipe, nb])
      else (false, [MakePipe, nb, Close(a.readEnd), Close(a.writeEnd)])
    else (true, [MakePipe])
  }

  /** Closing both ends of each of the given pipes, in order. */
  function ClosePipes(pipes: seq<PipeAnswer>): (r: seq<SysCall>)
    ensures |r| == 2 * |pipes|
    ensures forall k :: 0 <= k < |pipes| ==> r[2 * k] == Close(pipes[k].readEnd) && r[2 * k + 1] == Close(pipes[k].writeEnd)
  {
    if pipes == [] then []
    else [Close(pipes[0].readEnd), Close(pipes[0].writeEnd)] + ClosePipes(pipes[1..])
  }

  /**
   * The non-blocking reaps of wait() from attempt `i` (of three): each asks
   * waitpid(WNOHANG); an answer of 0 (still running) is followed by a
   * one-second sleep and another attempt, anything else ends the loop.
   * Result: the calls made and the last answer (0 after three zeros).
   */
  function Reaps(pid: int, reaps: nat -> int, i: nat): (r: (seq<SysCall>, int))
    decreases 3 - i
  {
    if i >= 3 then ([], 0)
    else if reaps(i) != 0 then ([WaitPid(pid, true)], reaps(i))
    else
      var rest := Reaps(pid, reaps, i + 1);
      ([WaitPid(pid, true), Sleep(1)] + rest.0, rest.1)
  }

  /** The number of non-blocking waitpid calls in `calls`. */
  function NoHangReaps(calls: seq<SysCall>): (n: nat)
    ensures n <= |calls|
  {
    if calls == [] then 0
    else (if calls[0].WaitPid? && calls[0].noHang then 1 else 0) + NoHangReaps(calls[1..])
  }

  lemma NoHangReapsConcat(a: seq<SysCall>, b: seq<SysCall>)
    ensures NoHangReaps(a + b) == NoHangReaps(a) + NoHangReaps(b)
  {
    if a == [] {
      assert a + b == b;
    } else {
      assert (a + b)[0] == a[0] && (a + b)[1..] == a[1..] + b;
      NoHangReapsConcat(a[1..], b);
    }
  }

  /** The signal sent up front: `signal`, with 0 meaning SIGTERM when stopping by force. */
  function StopSignal(forceStop: bool, signal: int): int {
    if forceStop && signal == 0 then SIGTERM else signal
  }

  /**
   * wait(force_stop, signal) on a child with pid `pid`, given the kernel's
   * answers: the calls made and the result.
   */
  function WaitOutcome(pid: int, forceStop: bool, signal: int, w: WaitAnswers): (r: (seq<SysCall>, bool))
    ensures pid <= 0 ==> r == ([], true)
  {
    if pid <= 0 then ([], true)
    else
      var sig := StopSignal(forceStop, signal);
      var pre := if forceStop then [Kill(pid, sig)] else [];
      var found := !(forceStop && w.killErrno == ESRCH);
      var reaped := Reaps(pid, w.reaps, 0);
      var escalate := reaped.1 == 0 && found;
      var post := if escalate then (if sig != SIGKILL then [Kill(pid, SIGKILL)] else []) + [WaitPid(pid, false)] else [];
      var last := if escalate then w.final else reaped.1;
      (pre + reaped.0 + post, last == pid)
  }

  /** Reaping stops at the first attempt that does not answer 0, whose answer it keeps. */
  lemma {:induction false} ReapsStopAtFirst(pid: int, reaps: nat -> int, i: nat, k: nat)
    requires i <= k < 3 && reaps(k) != 0
    requires forall j :: i <= j < k ==> reaps(j) == 0
    ensures Reaps(pid, reaps, i).1 == reaps(k)
    ensures NoHangReaps(Reaps(pid, reaps, i).0) == k - i + 1
    decreases k - i
  {
    if i < k {
      ReapsStopAtFirst(pid, reaps, i + 1, k);
      NoHangReapsConcat([WaitPid(pid, true), Sleep(1)], Reaps(pid, reaps, i + 1).0);
    } else {
      assert NoHangReaps([WaitPid(pid, true)]) == 1;
    }
  }

  /** Three answers of 0 make three reaps, each followed by a sleep, and leave 0. */
  lemma {:induction false} ReapsAllRunning(pid: int, reaps: nat -> int, i: nat)
    requires i <= 3
    requires forall j :: i <= j < 3 ==> reaps(j) == 0
    ensures Reaps(pid, reaps, i).1 == 0
    ensures NoHangReaps(Reaps(pid, reaps, i).0) == 3 - i
    ensures |Reaps(pid, reaps, i).0| == 2 * (3 - i)
    decreases 3 - i
  {
    if i < 3 {
      ReapsAllRunning(pid, reaps, i + 1);
      NoHangReapsConcat([WaitPid(pid, true), Sleep(1)], Reaps(pid, reaps, i + 1).0);
    }
  }

  /** Whatever the answers, at most three non-blocking reaps, and the one kept is the last made. */
  lemma {:induction false} ReapsAtMostThree(pid: int, reaps: nat -> int, i: nat)
    requires i <= 3
    ensures NoHangReaps(Reaps(pid, reaps, i).0) <= 3 - i
    ensures Reaps(pid, reaps, i).1 != 0 ==> exists k :: i <= k < 3 && Reaps(pid, reaps, i).1 == reaps(k)
    decreases 3 - i
  {
    if i < 3 {
      ReapsAtMostThree(pid, reaps, i + 1);
      if reaps(i) == 0 {
        NoHangReapsConcat([WaitPid(pid, true), Sleep(1)], Reaps(pid, reaps, i + 1).0);
      } else {
        assert NoHangReaps([WaitPid(pid, true)]) == 1;
      }
    }
  }

  /**
   * wait() on a running child makes at most three non-blocking reaps and at
   * most one blocking one; it signals only when stopping by force (first
   * call) or when the child is still running after the reaps and was not
   * found gone by the first kill, and then SIGKILL unless that was the signal
   * already sent; it returns true exactly when the last reap answered the pid.
   */
  lemma WaitEscalation(pid: int, forceStop: bool, signal: int, w: WaitAnswers)
    requires pid > 0
    ensures var r := WaitOutcome(pid, forceStop, signal, w);
      var reaped := Reaps(pid, w.reaps, 0);
      var found := !(forceStop && w.killErrno == ESRCH);
      NoHangReaps(r.0) <= 3 &&
      (forceStop <==> r.0[0] == Kill(pid, StopSignal(forceStop, signal))) &&
      (reaped.1 == 0 && found ==>
        r.0[|r.0| - 1] == WaitPid(pid, false) && r.1 == (w.final == pid) &&
        (Kill(pid, SIGKILL) in r.0 <==> StopSignal(forceStop, signal) != SIGKILL || forceStop)) &&
      (reaped.1 != 0 || !found ==>
        WaitPid(pid, false) !in r.0 && r.1 == (reaped.1 == pid) &&
        (forall c :: c in r.0 && c.Kill? ==> forceStop && c == Kill(pid, StopSignal(forceStop, signal))))
  {
    var r := WaitOutcome(pid, forceStop, signal, w);
    var sig := StopSignal(forceStop, signal);
    var pre := if forceStop then [Kill(pid, sig)] else [];
    var reaped := Reaps(pid, w.reaps, 0);
    ReapsAtMostThree(pid, w.reaps, 0);
    ReapsOnlyReap(pid, w.reaps, 0);
    var found := !(forceStop && w.killErrno == ESRCH);
    var escalate := reaped.1 == 0 && found;
    var post := if escalate then (if sig != SIGKILL then [Kill(pid, SIGKILL)] else []) + [WaitPid(pid, false)] else [];
    assert r.0 == pre + reaped.0 + post;
    NoHangReapsConcat(pre, reaped.0);
    NoHangReapsConcat(pre + reaped.0, post);
    assert NoHangReaps(post) == 0 by {
      if escalate {
        if sig != SIGKILL {
          assert NoHangReaps(post) == NoHangReaps([Kill(pid, SIGKILL), WaitPid(pid, false)]);
        }
      }
    }
    assert NoHangReaps(pre) == 0;
    if !forceStop {
      assert r.0 == reaped.0 + post;
      assert |reaped.0| > 0 && reaped.0[0] == WaitPid(pid, true);
    }
  }

  /** The reaps make only waitpid(WNOHANG) calls and sleeps, starting with a waitpid. */
  lemma {:induction false} ReapsOnlyReap(pid: int, reaps: nat -> int, i: nat)
    ensures forall c :: c in Reaps(pid, reaps, i).0 ==> c == WaitPid(pid, true) || c == Sleep(1)
    ensures i < 3 ==> |Reaps(pid, reaps, i).0| > 0 && Reaps(pid, reaps, i).0[0] == WaitPid(pid, true)
    decreases 3 - i
  {
    if i < 3 && reaps(i) == 0 {
      ReapsOnlyReap(pid, reaps, i + 1);
    }
  }

  /**
   * How far exec's pipe making gets and the calls it makes: the number of
   * pipes made before the first failure (3 when every needed pipe is
   * open) and the pipe/fcntl/close calls of the attempts.
   */
  function PipeStage(flags: bv32, pipes: seq<PipeAnswer>): (r: (nat, seq<SysCall>))
    requires |pipes| == 3
    ensures r.0 <= 3
    ensures r.0 == 3 <==>
      (OpenPipe(flags, pipes[0], false).0 && OpenPipe(flags, pipes[1], true).0 &&
       (flags & FStdErr != 0 ==> OpenPipe(flags, pipes[2], true).0))
  {
    var withErr := flags & FStdErr != 0;
    var p0 := OpenPipe(flags, pipes[0], false);
    var p1 := OpenPipe(flags, pipes[1], true);
    var p2 := OpenPipe(flags, pipes[2], true);
    if !p0.0 then (0, p0.1)
    else if !p1.0 then (1, p0.1 + p1.1)
    else if !withErr then (3, p0.1 + p1.1)
    else (if p2.0 then 3 else 2, p0.1 + p1.1 + p2.1)
  }

  /** How many pipes exec uses: stderr's only with fStdErr. */
  function Used(flags: bv32): nat {
    if flags & FStdErr != 0 then 3 else 2
  }

  /** The child's ends the parent closes after a successful fork. */
  function ParentCloses(flags: bv32, pipes: seq<PipeAnswer>): seq<SysCall>
    requires |pipes| == 3
  {
    [Close(pipes[0].readEnd), Close(pipes[1].writeEnd)] + (if Used(flags) == 3 then [Close(pipes[2].writeEnd)] else [])
  }

  /** The calls exec makes for these answers: the pipes, then fork and the closes its outcome calls for. */
  function ExecCalls(flags: bv32, pipes: seq<PipeAnswer>, forkPid: int): seq<SysCall>
    requires |pipes| == 3
  {
    var st := PipeStage(flags, pipes);
    if st.0 < 3 then st.1 + ClosePipes(pipes[..st.0])
    else if forkPid < 0 then st.1 + [Fork] + ClosePipes(pipes[..Used(flags)])
    else st.1 + [Fork] + ParentCloses(flags, pipes)
  }

  class ChildProcess {
    /** m_fdStdin, m_fdStdout, m_fdStderr: the parent-side pipe ends, -1 when not open. */
    var fdStdin: int
    var fdStdout: int
    var fdStderr: int
    /** m_flags: the Flags given at construction. */
    var flags: bv32
    /** m_pid: the child's pid; -1 before exec, 0 once reaped. */
    var pid: int

    /** ChildProcess(flags = fDefault): no descriptor, no child yet. */
    constructor (flags: bv32)
      ensures fdStdin == -1 && fdStdout == -1 && fdStderr == -1
      ensures this.flags == flags && pid == -1
    {
      fdStdin, fdStdout, fdStderr := -1, -1, -1;
      this.flags := flags;
      pid := -1;
    }

    /**
     * wait(force_stop, signal): with no child (pid <= 0) nothing; otherwise
     * optionally signal it, reap it without blocking up to three times one
     * second apart, and if it is still running and was not found gone, kill
     * it and reap it blocking. The pid then becomes 0, so a second wait does
     * nothing and returns true.
     */
    method Wait(forceStop: bool, signal: int, w: WaitAnswers) returns (stopped: bool, calls: seq<SysCall>)
      modifies this
      ensures (calls, stopped) == WaitOutcome(old(pid), forceStop, signal, w)
      ensures pid == if old(pid) <= 0 then old(pid) else 0
      ensures fdStdin == old(fdStdin) && fdStdout == old(fdStdout) && fdStderr == old(fdStderr) && flags == old(flags)
    {
      calls := [];
      if pid <= 0 {
        return true, calls;
      }
      var found := true;
      var sig := signal;
      if forceStop {
        if sig == 0 {
          sig := SIGTERM;
        }
        calls := calls + [Kill(pid, sig)];
        if w.killErrno != 0 && w.killErrno == ESRCH {
          found := false;
        }
      }
      ghost var pre := calls;
      ghost var whole := Reaps(pid, w.reaps, 0);
      var ret := 0;
      var i := 0;
      while i < 3
        invariant 0 <= i <= 3 && ret == 0 && unchanged(this)
        invariant calls + Reaps(pid, w.reaps, i).0 == pre + whole.0 && Reaps(pid, w.reaps, i).1 == whole.1
      {
        ret := w.reaps(i);
        if ret != 0 {
          ConcatAssoc(calls, [WaitPid(pid, true)], []);
          calls := calls + [WaitPid(pid, true)];
          break;
        }
        ConcatAssoc(calls, [WaitPid(pid, true), Sleep(1)], Reaps(pid, w.reaps, i + 1).0);
        calls := calls + [WaitPid(pid, true), Sleep(1)];
        i := i + 1;
      }
      assert calls == pre + whole.0 && ret == whole.1;
      assert pre == if forceStop then [Kill(pid, StopSignal(forceStop, signal))] else [];
      assert found == !(forceStop && w.killErrno == ESRCH);
      assert sig == StopSignal(forceStop, signal);
      if ret == 0 && found {
        var kill := if sig != SIGKILL then [Kill(pid, SIGKILL)] else [];
        calls := calls + (kill + [WaitPid(pid, false)]);
        ret := w.final;
      } else {
        assert calls + [] == calls;
      }
      stopped := ret == pid;
      pid := 0;
    }

    /**
     * cleanup(force_stop, signal): close and reset each parent-side
     * descriptor whose value is negative (valid descriptors stay as they
     * are), then wait for the child if there is one.
     */
    method Cleanup(forceStop: bool, signal: int, w: WaitAnswers) returns (calls: seq<SysCall>)
      modifies this
      ensures fdStdin == (if old(fdStdin) < 0 then -1 else old(fdStdin))
      ensures fdStdout == (if old(fdStdout) < 0 then -1 else old(fdStdout))
      ensures fdStderr == (if old(fdStderr) < 0 then -1 else old(fdStderr))
      ensures flags == old(flags) && pid == (if old(pid) <= 0 then old(pid) else 0)
      ensures calls == CloseNegative([old(fdStdin), old(fdStdout), old(fdStderr)]) +
        (if old(pid) > 0 then WaitOutcome(old(pid), forceStop, signal, w).0 else [])
    {
      calls := CloseInvalid();
      if pid > 0 {
        var stopped, more := Wait(forceStop, signal, w);
        calls := calls + more;
      }
    }

    /** cleanup's descriptor loop: close and reset each descriptor that is negative. */
    method CloseInvalid() returns (calls: seq<SysCall>)
      modifies this
      ensures fdStdin == (if old(fdStdin) < 0 then -1 else old(fdStdin))
      ensures fdStdout == (if old(fdStdout) < 0 then -1 else old(fdStdout))
      ensures fdStderr == (if old(fdStderr) < 0 then -1 else old(fdStderr))
      ensures flags == old(flags) && pid == old(pid)
      ensures calls == CloseNegative([old(fdStdin), old(fdStdout), old(fdStderr)])
    {
      calls := [];
      if fdStdin < 0 {
        calls := calls + [Close(fdStdin)];
        fdStdin := -1;
      }
      if fdStdout < 0 {
        calls := calls + [Close(fdStdout)];
        fdStdout := -1;
      }
      if fdStderr < 0 {
        calls := calls + [Close(fdStderr)];
        fdStderr := -1;
      }
      CloseNegativeThree(old(fdStdin), old(fdStdout), old(fdStderr));
    }

    /**
     * exec(cmd, params) on the parent's side: make the pipes (see PipeStage),
     * stopping at the first failure and closing every pipe made before it;
     * then fork. On success keep the parent's ends (stdin's write end, the
     * read ends of the others) and the child's pid, closing the child's ends;
     * if fork fails, close every pipe. A fork answer of 0 is the child's own
     * side.
     */
    method Exec(pipes: seq<PipeAnswer>, forkPid: int) returns (ok: bool, calls: seq<SysCall>)
      requires |pipes| == 3 && forkPid != 0
      modifies this
      ensures flags == old(flags)
      ensures var st := PipeStage(flags, pipes);
        !ok ==>
          fdStdin == old(fdStdin) && fdStdout == old(fdStdout) && fdStderr == old(fdStderr) && pid == old(pid) &&
          calls == st.1 + (if st.0 < 3 then ClosePipes(pipes[..st.0]) else [Fork] + ClosePipes(pipes[..Used(flags)]))
      ensures ok <==> PipeStage(flags, pipes).0 == 3 && forkPid > 0
      ensures calls == ExecCalls(flags, pipes, forkPid)
      ensures ok ==>
        pid == forkPid &&
        fdStdin == pipes[0].writeEnd && fdStdout == pipes[1].readEnd &&
        fdStderr == (if Used(flags) == 3 then pipes[2].readEnd else old(fdStderr)) &&
        calls == PipeStage(flags, pipes).1 + [Fork] + ParentCloses(flags, pipes)
    {
      var withErr := flags & FStdErr != 0;
      var made;
      made, calls := OpenPipes(flags, pipes);
      if made < 3 {
        calls := ClosePrefix(calls, pipes, made);
        return false, calls;
      }
      calls := calls + [Fork];
      if forkPid > 0 {
        pid := forkPid;
        calls := calls + [Close(pipes[0].readEnd), Close(pipes[1].writeEnd)];
        fdStdin := pipes[0].writeEnd;
        fdStdout := pipes[1].readEnd;
        if withErr {
          calls := calls + [Close(pipes[2].writeEnd)];
          fdStderr := pipes[2].readEnd;
        }
        return true, calls;
      }
      calls := ClosePrefix(calls, pipes, Used(flags));
      ok := false;
    }

    /**
     * exec's pipe making: stdin's pipe, then stdout's, then (with fStdErr)
     * stderr's, stopping at the first that fails; `made` counts the pipes
     * to close on failure, 3 meaning all needed pipes are open.
     */
    static method OpenPipes(flags: bv32, pipes: seq<PipeAnswer>) returns (made: nat, calls: seq<SysCall>)
      requires |pipes| == 3
      ensures (made, calls) == PipeStage(flags, pipes)
    {
      var withErr := flags & FStdErr != 0;
      var p0 := OpenPipe(flags, pipes[0], false);
      calls := p0.1;
      if !p0.0 {
        return 0, calls;
      }
      made := 1;
      var p1 := OpenPipe(flags, pipes[1], true);
      calls := calls + p1.1;
      var err := !p1.0;
      if !err {
        made := 2;
        if withErr {
          var p2 := OpenPipe(flags, pipes[2], true);
          calls := calls + p2.1;
          err := !p2.0;
          if !err {
            made := 3;
          }
        } else {
          made := 3;
        }
      }
    }

    /** The two-level close loop: both ends of each of the first `n` pipes, appended to `calls`. */
    static method ClosePrefix(calls: seq<SysCall>, pipes: seq<PipeAnswer>, n: nat) returns (r: seq<SysCall>)
      requires n <= |pipes|
      ensures r == calls + ClosePipes(pipes[..n])
    {
      r := calls;
      for j := 0 to n
        invariant r == calls + ClosePipes(pipes[..j])
      {
        ClosePipesSnoc(pipes[..j], pipes[j]);
        assert pipes[..j + 1] == pipes[..j] + [pipes[j]];
        r := r + [Close(pipes[j].readEnd), Close(pipes[j].writeEnd)];
      }
    }

    /** The destructor: cleanup(true). */
    method Destroy(w: WaitAnswers) returns (calls: seq<SysCall>)
      modifies this
      ensures pid == (if old(pid) <= 0 then old(pid) else 0)
      ensures calls == CloseNegative([old(fdStdin), old(fdStdout), old(fdStderr)]) +
        (if old(pid) > 0 then WaitOutcome(old(pid), true, 0, w).0 else [])
    {
      calls := Cleanup(true, 0, w);
    }
  }

  /** cleanup's close loop: a close for each descriptor that is negative, in order. */
  function CloseNegative(fds: seq<int>): (r: seq<SysCall>)
    ensures forall c :: c in r ==> c.Close? && c.fd < 0 && c.fd in fds
    ensures forall fd :: fd in fds && fd >= 0 ==> Close(fd) !in r
  {
    if fds == [] then []
    else (if fds[0] < 0 then [Close(fds[0])] else []) + CloseNegative(fds[1..])
  }

  lemma CloseNegativeThree(a: int, b: int, c: int)
    ensures CloseNegative([a, b, c]) ==
      (if a < 0 then [Close(a)] else []) + (if b < 0 then [Close(b)] else []) + (if c < 0 then [Close(c)] else [])
  {
    assert [a, b, c][1..] == [b, c] && [b, c][1..] == [c] && [c][1..] == [];
    var x, y, z := (if a < 0 then [Close(a)] else []), (if b < 0 then [Close(b)] else []), (if c < 0 then [Close(c)] else []);
    assert CloseNegative([c]) == z + CloseNegative([]) == z;
    assert CloseNegative([b, c]) == y + z;
    assert CloseNegative([a, b, c]) == x + (y + z);
    ConcatAssoc(x, y, z);
  }

  lemma ClosePipesSnoc(pipes: seq<PipeAnswer>, p: PipeAnswer)
    ensures ClosePipes(pipes + [p]) == ClosePipes(pipes) + [Close(p.readEnd), Close(p.writeEnd)]
  {
    if pipes != [] {
      assert (pipes + [p])[1..] == pipes[1..] + [p];
      ClosePipesSnoc(pipes[1..], p);
    }
  }

  lemma ConcatAssoc<T>(a: seq<T>, b: seq<T>, c: seq<T>)
    ensures a + (b + c) == (a + b) + c
  {
  }
}
