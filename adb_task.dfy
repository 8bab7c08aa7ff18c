/**
 * The adb dialogue tasks (AdbTask and its subclasses) and the context they
 * act through (AdbContext).
 *
 * A task reacts to data read from one of adb's streams and to its timer, and
 * answers with a verdict. Every side effect goes through the context: writing
 * to adb's stdin, arming or stopping a timer, starting adb. The context here
 * records each call in `log` and answers from fixed outcomes given when it is
 * built, so a task's effects are the calls it appends to the log.
 *
 * The subclasses become one class with a `kind`: the concrete tasks are
 * WaitFirstPrompt, RunConnect and RunDisconnect (the two LaunchActivity
 * tasks) and WaitDisconnectLog (a RunLogcat task).
 */
module Tasks {
  import opened Configs
  import opened Handlers

  /** AdbTask::Res. */
  datatype Res = Next | Continue | Fail

  /** AdbContext::FStream. */
  datatype FStream = StdIn | StdOut | StdErr

  const TaskTimerId: TimerId := 10

  /** The waits, in milliseconds. */
  const FirstAdbLaunchWaitMs: int := 10 * 1000
  const FirstPromptWaitMs: int := 10 * 1000
  const LogcatWaitMs: int := 30 * 1000
  const SecondPromptWaitMs: int := 3 * 1000

  /** The byte strings written to adb's stdin. */
  const LineFeed: string := "\n"
  const ExitCmd: string := "\nexit\n"
  /** The literal "\0x3": a NUL, then 'x' and '3'. */
  const CtrlC: string := ['\0', 'x', '3']

  /** The Android agent and the words of its command lines. */
  const Agent: string := "com.steinwurf.adbjoinwifi"
  const AgentTag: string := "adbjoinwifi"
  const Activity: string := ".MainActivity"
  const ModeParam: string := "mode "
  const ModeConnect: string := "connect"
  const ModeDisconnect: string := "disconnect"
  const PasswdParam: string := "password "
  const PasswdTypeParam: string := "password_type "
  const SsidParam: string := "ssid "
  const ActivitySwitch: string := "-n "
  const ExtraSwitch: string := "-e "
  const CmdShell: string := "shell"
  const CmdActivityManager: string := "am"
  const CmdStart: string := "start"
  const CmdLogcat: string := "logcat"
  const LogcatThreadTime: string := "-v threadtime"
  const ConnectSignature: string := "Mode connect run completed"
  const DisconnectSignature: string := "Mode disconnect run completed"

  /** One call made through the context. A timer stop returns nothing usable. */
  datatype CtxCall =
    | WriteStdIn(data: string)
    | TimerStart(stream: FStream, id: TimerId, ms: int)
    | TimerStop(stream: FStream, id: TimerId)
    | StartAdb(args: seq<string>)

  /** AdbContext: the configuration and the capability the tasks act through. */
  class Context {
    const config: Config
    /** What writeStdIn, a timer start and startAdb answer. */
    const writeOk: bool
    const timerOk: bool
    const adbOk: bool
    /** Every call made so far, oldest first. */
    var log: seq<CtxCall>

    constructor (config: Config, writeOk: bool, timerOk: bool, adbOk: bool)
      ensures this.config == config && this.writeOk == writeOk && this.timerOk == timerOk && this.adbOk == adbOk
      ensures log == []
    {
      this.config, this.writeOk, this.timerOk, this.adbOk := config, writeOk, timerOk, adbOk;
      log := [];
    }

    method Write(data: string) returns (ok: bool)
      modifies this
      ensures log == old(log) + [WriteStdIn(data)] && ok == writeOk
    {
      log := log + [WriteStdIn(data)];
      ok := writeOk;
    }

    method StartTimer(stream: FStream, id: TimerId, ms: int) returns (ok: bool)
      modifies this
      ensures log == old(log) + [TimerStart(stream, id, ms)] && ok == timerOk
    {
      log := log + [TimerStart(stream, id, ms)];
      ok := timerOk;
    }

    method StopTimer(stream: FStream, id: TimerId)
      modifies this
      ensures log == old(log) + [TimerStop(stream, id)]
    {
      log := log + [TimerStop(stream, id)];
    }

    method Start(args: seq<string>) returns (ok: bool)
      modifies this
      ensures log == old(log) + [StartAdb(args)] && ok == adbOk
    {
      log := log + [StartAdb(args)];
      ok := adbOk;
    }
  }

  /** The concrete tasks. */
  datatype Kind = WaitFirstPrompt | RunConnect | RunDisconnect | WaitDisconnectLog {
    predicate LaunchActivity() { RunConnect? || RunDisconnect? }
  }

  /** The four words every agent launch begins with. */
  const LaunchPrefix: seq<string> := [CmdShell, CmdActivityManager, CmdStart, ActivitySwitch + Agent + "/" + Activity]

  /** The command line that launches the agent in the mode of a LaunchActivity task. */
  function IntentParams(kind: Kind, cfg: Config): (r: seq<string>)
    requires kind.LaunchActivity()
    ensures |r| == (if kind.RunConnect? then 8 else 5) && r[..4] == LaunchPrefix
    ensures r[4] == ExtraSwitch + ModeParam + (if kind.RunConnect? then ModeConnect else ModeDisconnect)
  {
    var mode := ExtraSwitch + ModeParam + (if kind.RunConnect? then ModeConnect else ModeDisconnect);
    if kind.RunDisconnect? then LaunchPrefix + [mode]
    else LaunchPrefix + [mode, ExtraSwitch + SsidParam + cfg.ssid, ExtraSwitch + PasswdParam + cfg.password,
                         ExtraSwitch + PasswdTypeParam + cfg.authType]
  }

  /** The value an `-e key value` argument carries, read back from behind its prefix. */
  function ArgValue(arg: string, prefix: string): (v: string)
    requires |prefix| <= |arg|
    ensures |v| == |arg| - |prefix|
  {
    arg[|prefix|..]
  }

  /**
   * The connect command line carries the SSID, the password and the
   * authentication type verbatim: each is read back from its argument, so
   * two configurations with different Wi-Fi settings launch different
   * commands. The disconnect command line carries none of them.
   */
  lemma ConnectArgsCarryWifi(cfg: Config, other: Config)
    ensures var r := IntentParams(RunConnect, cfg);
      ArgValue(r[5], ExtraSwitch + SsidParam) == cfg.ssid &&
      ArgValue(r[6], ExtraSwitch + PasswdParam) == cfg.password &&
      ArgValue(r[7], ExtraSwitch + PasswdTypeParam) == cfg.authType
    ensures IntentParams(RunConnect, cfg) == IntentParams(RunConnect, other) <==>
      (cfg.ssid, cfg.password, cfg.authType) == (other.ssid, other.password, other.authType)
    ensures IntentParams(RunDisconnect, cfg) == IntentParams(RunDisconnect, other)
  {
    var r, q := IntentParams(RunConnect, cfg), IntentParams(RunConnect, other);
    if r == q {
      assert ArgValue(r[5], ExtraSwitch + SsidParam) == ArgValue(q[5], ExtraSwitch + SsidParam);
      assert ArgValue(r[6], ExtraSwitch + PasswdParam) == ArgValue(q[6], ExtraSwitch + PasswdParam);
      assert ArgValue(r[7], ExtraSwitch + PasswdTypeParam) == ArgValue(q[7], ExtraSwitch + PasswdTypeParam);
    }
  }

  /** The connect and disconnect launches differ only from the mode argument on. */
  lemma LaunchesShareActivity(cfg: Config)
    ensures IntentParams(RunConnect, cfg)[..4] == IntentParams(RunDisconnect, cfg)[..4]
    ensures IntentParams(RunConnect, cfg)[4] != IntentParams(RunDisconnect, cfg)[4]
  {
    var c, d := IntentParams(RunConnect, cfg)[4], IntentParams(RunDisconnect, cfg)[4];
    assert c[|ExtraSwitch + ModeParam|] == 'c' && d[|ExtraSwitch + ModeParam|] == 'd';
  }

  /** std::string::npos for a 64-bit size_t. */
  const NPos: int := 0xFFFF_FFFF_FFFF_FFFF

  /** string_view::rfind(c): the last position of `c`, or npos. */
  function RFind(s: string, c: char): (r: int)
    requires |s| < NPos
    ensures r == NPos || (0 <= r < |s| && s[r] == c)
    ensures forall i :: 0 <= i < |s| && s[i] == c ==> i <= r < |s|
    ensures r == NPos <==> forall i :: 0 <= i < |s| ==> s[i] != c
  {
    if s == [] then NPos
    else if s[|s| - 1] == c then |s| - 1
    else RFind(s[..|s| - 1], c)
  }

  /**
   * The prompt test `rfind('$') == size() - 1`, with size_t arithmetic: a
   * chunk is a prompt exactly when its last byte is '$', and an empty chunk
   * is one too, since 0 - 1 wraps to npos.
   */
  function IsPrompt(input: string): (b: bool)
    requires |input| < NPos
    ensures b <==> |input| == 0 || input[|input| - 1] == '$'
  {
    RFind(input, '$') == (|input| - 1) % (NPos + 1)
  }

  /** find(pat) != npos. */
  predicate Contains(s: string, pat: string)
    decreases |s|
  {
    |pat| <= |s| && (s[..|pat|] == pat || (|s| > 0 && Contains(s[1..], pat)))
  }

  /** WaitDisconnectLog::onTagLine: Next once the agent reports the disconnect run completed. */
  function OnTagLine(line: string): (r: Res)
    ensures r == Next <==> Contains(line, DisconnectSignature)
    ensures r != Fail
  {
    if Contains(line, DisconnectSignature) then Next else Continue
  }

  /** The first newline at or after `i`, or the length when there is none. */
  function NewlineFrom(s: string, i: nat): (k: nat)
    requires i <= |s|
    ensures i <= k <= |s| && (k < |s| ==> s[k] == '\n')
    ensures forall j :: i <= j < k ==> s[j] != '\n'
    decreases |s| - i
  {
    if i == |s| || s[i] == '\n' then i else NewlineFrom(s, i + 1)
  }

  /** What a line contributes: a line naming the agent's tag goes to onTagLine. */
  function LineVerdict(line: string): (r: Res)
    ensures r == Next <==> Contains(line, AgentTag) && Contains(line, DisconnectSignature)
    ensures r != Fail
  {
    if Contains(line, AgentTag) then OnTagLine(line) else Continue
  }

  /**
   * What lookupTag does with the stdout chunk `s` once the prefix before
   * `start` is removed from its view: the verdict, and the count of bytes
   * consumed from the front of the chunk. Each newline-terminated line with
   * text before the newline is cut short by its last character (the '\r' of
   * a "\r\n" ending) and judged by LineVerdict; a newline at the very
   * front of the view is skipped; the first verdict other than Continue ends
   * the scan right after that line.
   */
  function TagScan(s: string, start: nat): (r: (Res, nat))
    requires start <= |s|
    decreases |s| - start
  {
    var pos := NewlineFrom(s, start);
    if pos == |s| then (Continue, start)
    else
      var verdict := if pos == start then Continue else LineVerdict(s[start..pos - 1]);
      if verdict != Continue then (verdict, pos + 1) else TagScan(s, pos + 1)
  }

  /** The lines lookupTag cuts out of a chunk from `start` on, in order: complete lines minus their last character. */
  function Lines(s: string, start: nat): seq<string>
    requires start <= |s|
    decreases |s| - start
  {
    var pos := NewlineFrom(s, start);
    if pos == |s| then []
    else (if pos == start then [] else [s[start..pos - 1]]) + Lines(s, pos + 1)
  }

  /** A line that makes WaitDisconnectLog move on. */
  predicate DisconnectLine(line: string) {
    Contains(line, AgentTag) && Contains(line, DisconnectSignature)
  }

  /**
   * The consumed size always ends at a newline; when the scan runs to the
   * end (Continue), it is exactly the bytes through the last newline of the
   * chunk, so an unterminated tail stays in the buffer.
   */
  lemma {:induction false} TagScanConsumes(s: string, start: nat)
    requires start <= |s|
    ensures var r := TagScan(s, start);
      start <= r.1 <= |s| && (r.1 > start ==> s[r.1 - 1] == '\n') &&
      (r.0 == Continue ==> forall i :: r.1 <= i < |s| ==> s[i] != '\n')
    decreases |s| - start
  {
    var pos := NewlineFrom(s, start);
    if pos < |s| && (pos == start || LineVerdict(s[start..pos - 1]) == Continue) {
      TagScanConsumes(s, pos + 1);
    }
  }

  /** lookupTag answers Next exactly when some line of the chunk names the tag and the disconnect signature; it never answers Fail. */
  lemma {:induction false} TagScanNextIff(s: string, start: nat)
    requires start <= |s|
    ensures TagScan(s, start).0 != Fail
    ensures TagScan(s, start).0 == Next <==> exists line :: line in Lines(s, start) && DisconnectLine(line)
    decreases |s| - start
  {
    var pos := NewlineFrom(s, start);
    if pos < |s| {
      TagScanNextIff(s, pos + 1);
      if pos != start {
        var line := s[start..pos - 1];
        assert Lines(s, start) == [line] + Lines(s, pos + 1);
        if DisconnectLine(line) {
          assert line in Lines(s, start);
        }
      }
    }
  }

  /** The bytes a task writes on cleanup, and the timer stop that follows, by kind. */
  function CleanupCalls(kind: Kind): (r: seq<CtxCall>)
  {
    match kind
    case WaitFirstPrompt => [WriteStdIn(ExitCmd), TimerStop(StdIn, TaskTimerId)]
    case RunConnect => [WriteStdIn(CtrlC), TimerStop(StdIn, TaskTimerId)]
    case RunDisconnect => [WriteStdIn(CtrlC), TimerStop(StdIn, TaskTimerId)]
    case WaitDisconnectLog => [WriteStdIn(CtrlC)]
  }

  /**
   * Cleanup writes one thing first (6 bytes ending the shell for the prompt
   * task, 3 bytes of CtrlC otherwise) and stops the task timer, except that
   * a logcat task leaves its timer armed.
   */
  lemma CleanupShape(kind: Kind)
    ensures var r := CleanupCalls(kind);
      1 <= |r| <= 2 && r[0].WriteStdIn? &&
      |r[0].data| == (if kind.WaitFirstPrompt? then 6 else 3) &&
      (|r| == 2 <==> !kind.WaitDisconnectLog?) &&
      forall c :: c in r ==> !c.TimerStart? && !c.StartAdb?
  {
  }

  /** The timer a task arms on start, in milliseconds. */
  function StartWaitMs(kind: Kind): (ms: int)
    ensures ms > 0
    ensures kind.WaitDisconnectLog? ==> ms == LogcatWaitMs
    ensures !kind.WaitDisconnectLog? ==> ms == 10 * 1000
  {
    match kind
    case WaitFirstPrompt => FirstPromptWaitMs
    case RunConnect => FirstAdbLaunchWaitMs
    case RunDisconnect => FirstAdbLaunchWaitMs
    case WaitDisconnectLog => LogcatWaitMs
  }

  /** The adb command line a task starts, if any. */
  function AdbArgs(kind: Kind, cfg: Config): seq<string>
    requires !kind.WaitFirstPrompt?
  {
    if kind.LaunchActivity() then IntentParams(kind, cfg) else [CmdLogcat, LogcatThreadTime]
  }

  class Task {
    const kind: Kind
    /** The context the script shares with every task it creates. */
    const ctx: Context
    /** m_foundTimes: prompts seen so far (WaitFirstPrompt only). */
    var foundTimes: int

    ghost predicate Valid()
      reads this
    {
      0 <= foundTimes <= 2
    }

    constructor (kind: Kind, ctx: Context)
      ensures this.kind == kind && this.ctx == ctx && foundTimes == 0 && Valid()
    {
      this.kind, this.ctx := kind, ctx;
      foundTimes := 0;
    }

    /** createIntentParams: append the launch command line to `cl`. */
    method CreateIntentParams(cl: seq<string>) returns (r: seq<string>)
      requires kind.LaunchActivity()
      ensures r == cl + IntentParams(kind, ctx.config)
    {
      r := cl + [CmdShell];
      r := r + [CmdActivityManager];
      r := r + [CmdStart];
      r := r + [ActivitySwitch + Agent + "/" + Activity];
      if kind.RunConnect? {
        r := r + [ExtraSwitch + ModeParam + ModeConnect];
        r := r + [ExtraSwitch + SsidParam + ctx.config.ssid];
        r := r + [ExtraSwitch + PasswdParam + ctx.config.password];
        r := r + [ExtraSwitch + PasswdTypeParam + ctx.config.authType];
      } else {
        r := r + [ExtraSwitch + ModeParam + ModeDisconnect];
      }
    }

    /**
     * start: arm the task timer on stdin; a launch or logcat task then starts
     * adb, but only if the timer was armed. It succeeds iff every call did.
     */
    method Start() returns (ok: bool)
      modifies ctx
      ensures kind.WaitFirstPrompt? ==> ctx.log == old(ctx.log) + [TimerStart(StdIn, TaskTimerId, StartWaitMs(kind))] && ok == ctx.timerOk
      ensures !kind.WaitFirstPrompt? ==>
        ctx.log == old(ctx.log) + [TimerStart(StdIn, TaskTimerId, StartWaitMs(kind))] +
          (if ctx.timerOk then [StartAdb(AdbArgs(kind, ctx.config))] else []) &&
        ok == (ctx.timerOk && ctx.adbOk)
    {
      ok := ctx.StartTimer(StdIn, TaskTimerId, StartWaitMs(kind));
      if !ok || kind.WaitFirstPrompt? {
        assert ctx.log + [] == ctx.log;
        return;
      }
      var cl: seq<string>;
      if kind.LaunchActivity() {
        cl := CreateIntentParams([]);
      } else {
        cl := [CmdLogcat, LogcatThreadTime];
      }
      assert cl == AdbArgs(kind, ctx.config);
      ok := ctx.Start(cl);
    }

    /** cleanup: the calls of CleanupCalls; the prompt task also forgets the prompts it saw. */
    method Cleanup()
      requires Valid()
      modifies this, ctx
      ensures Valid()
      ensures ctx.log == old(ctx.log) + CleanupCalls(kind)
      ensures foundTimes == (if kind.WaitFirstPrompt? then 0 else old(foundTimes))
    {
      match kind {
        case WaitFirstPrompt =>
          var _ := ctx.Write(ExitCmd);
          foundTimes := 0;
          ctx.StopTimer(StdIn, TaskTimerId);
        case RunConnect =>
          var _ := ctx.Write(CtrlC);
          ctx.StopTimer(StdIn, TaskTimerId);
        case RunDisconnect =>
          var _ := ctx.Write(CtrlC);
          ctx.StopTimer(StdIn, TaskTimerId);
        case WaitDisconnectLog =>
          var _ := ctx.Write(CtrlC);
      }
    }

    /**
     * onDataReady: the verdict on a chunk read from `stream`, and the bytes
     * consumed. The prompt task reacts only to stdout prompts: on the first
     * it sends a newline and re-arms its timer for the second, cleaning up
     * and failing if either call fails; on the second it moves on (it asserts
     * that there is no third). A launch task moves on at an empty chunk.
     */
    method OnDataReady(stream: FStream, input: string) returns (res: Res, size: nat)
      requires Valid() && |input| < NPos && !kind.WaitDisconnectLog?
      requires kind.WaitFirstPrompt? && stream == StdOut && IsPrompt(input) ==> foundTimes <= 1
      modifies this, ctx
      ensures Valid() && size == |input|
      ensures kind.LaunchActivity() ==>
        res == (if |input| > 0 then Continue else Next) && ctx.log == old(ctx.log) && foundTimes == old(foundTimes)
      ensures kind.WaitFirstPrompt? && (stream != StdOut || !IsPrompt(input)) ==>
        res == Continue && ctx.log == old(ctx.log) && foundTimes == old(foundTimes)
      ensures kind.WaitFirstPrompt? && stream == StdOut && IsPrompt(input) && old(foundTimes) == 1 ==>
        res == Next && ctx.log == old(ctx.log) && foundTimes == 2
      ensures kind.WaitFirstPrompt? && stream == StdOut && IsPrompt(input) && old(foundTimes) == 0 ==>
        var sent := [WriteStdIn(LineFeed)] + (if ctx.writeOk then [TimerStart(StdIn, TaskTimerId, SecondPromptWaitMs)] else []);
        if ctx.writeOk && ctx.timerOk then
          res == Continue && ctx.log == old(ctx.log) + sent && foundTimes == 1
        else
          res == Fail && ctx.log == old(ctx.log) + sent + CleanupCalls(kind) && foundTimes == 0
    {
      size := |input|;
      if kind.LaunchActivity() {
        res := if |input| > 0 then Continue else Next;
        return;
      }
      if stream != StdOut || !IsPrompt(input) {
        res := Continue;
        return;
      }
      var seen := foundTimes;
      foundTimes := foundTimes + 1;
      if seen != 0 {
        res := Next;
        return;
      }
      var ok := ctx.Write(LineFeed);
      if ok {
        ok := ctx.StartTimer(StdIn, TaskTimerId, SecondPromptWaitMs);
      }
      if !ok {
        Cleanup();
        res := Fail;
        return;
      }
      res := Continue;
    }

    /** onTimer: every task cleans up and fails; the source asserts it is the task timer on stdin. */
    method OnTimer(stream: FStream, timerId: TimerId) returns (res: Res)
      requires Valid() && stream == StdIn && timerId == TaskTimerId
      modifies this, ctx
      ensures Valid() && res == Fail
      ensures ctx.log == old(ctx.log) + CleanupCalls(kind)
      ensures foundTimes == (if kind.WaitFirstPrompt? then 0 else old(foundTimes))
    {
      Cleanup();
      res := Fail;
    }

    /**
     * lookupTag: scan a stdout chunk line by line, handing each line that
     * names the agent's tag to onTagLine, and report the bytes consumed.
     * Other streams are left alone.
     */
    method LookupTag(stream: FStream, input: string) returns (res: Res, size: nat)
      requires kind.WaitDisconnectLog?
      ensures stream != StdOut ==> res == Continue && size == |input|
      ensures stream == StdOut ==> (res, size) == TagScan(input, 0)
    {
      if stream != StdOut {
        return Continue, |input|;
      }
      // The view is input[size..]: each consumed line is removed from its front.
      size := 0;
      while true
        invariant size <= |input| && TagScan(input, 0) == TagScan(input, size)
        decreases |input| - size
      {
        var pos := NewlineFrom(input, size);
        if pos == |input| {
          return Continue, size;
        }
        var lineStart := size;
        size := pos + 1;
        if pos == lineStart {
          continue;
        }
        var line := input[lineStart..pos - 1];
        if Contains(line, AgentTag) {
          var ret := OnTagLine(line);
          if ret != Continue {
            return ret, size;
          }
        }
      }
    }
  }
}
