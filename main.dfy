/**
 * The command line of adbwifiswitch: parseClArgs, which turns the options
 * getopt_long hands back into a run mode and a configuration, and main's
 * choice of the process's exit status.
 *
 * getopt itself is not modelled: the input is the sequence of options it
 * returns, each with its argument, plus whether positional arguments are
 * left over once it stops. The wall clock read by Config::Builder::build is
 * the parameter `time`.
 */
module Cli {
  import opened Configs
  import Poller
  import ChildProc
  import Controller

  /** RunMode. */
  datatype RunMode = None | Help | Connect | Disconnect

  /** AuthTypes: the accepted authentication types, the first being the default. */
  const AuthTypes: seq<string> := ["WEP", "WSA"]

  /** AdbCmdDefault. */
  const AdbCmdDefault: string := "adb"

  /**
   * One option as getopt_long returns it for the short string "a:ds:k:t:v"
   * and the long options. `-h` is not in the short string, so only --help
   * selects HelpSwitch; a `-h` comes back as Unrecognised.
   */
  datatype Opt =
    | AdbCmdArg(cmd: string)
    | DisconnectSwitch
    | HelpSwitch
    | KeyArg(key: string)
    | SsidArg(ssid: string)
    | TypeArg(atype: string)
    | VerboseSwitch
    | Unrecognised

  /** tolower in the C locale: only ASCII capitals change. */
  function Lower(c: char): char {
    if 'A' <= c <= 'Z' then (c as int + 32) as char else c
  }

  /** strcasecmp(a, b) == 0. */
  predicate SameFold(a: string, b: string) {
    |a| == |b| && forall i :: 0 <= i < |a| ==> Lower(a[i]) == Lower(b[i])
  }

  /** The index of the first auth type from `j` on that `arg` matches ignoring case, or |AuthTypes|. */
  function FirstFold(arg: string, j: nat): (r: nat)
    requires j <= |AuthTypes|
    ensures j <= r <= |AuthTypes|
    decreases |AuthTypes| - j
  {
    if j == |AuthTypes| then j
    else if SameFold(arg, AuthTypes[j]) then j
    else FirstFold(arg, j + 1)
  }

  /** Whether `-t` accepts `arg`. */
  predicate Known(arg: string) {
    FirstFold(arg, 0) < |AuthTypes|
  }

  /** The canonical spelling `-t arg` stores. */
  function Canonical(arg: string): string
    requires Known(arg)
  {
    AuthTypes[FirstFold(arg, 0)]
  }

  /**
   * FirstFold finds a match exactly when there is one from `j` on, and the
   * match it finds is one.
   */
  lemma {:induction false} FirstFoldFinds(arg: string, j: nat)
    requires j <= |AuthTypes|
    ensures FirstFold(arg, j) < |AuthTypes| <==> exists k :: j <= k < |AuthTypes| && SameFold(arg, AuthTypes[k])
    ensures FirstFold(arg, j) < |AuthTypes| ==> SameFold(arg, AuthTypes[FirstFold(arg, j)])
    decreases |AuthTypes| - j
  {
    if j < |AuthTypes| && !SameFold(arg, AuthTypes[j]) {
      FirstFoldFinds(arg, j + 1);
      assert forall k :: j <= k < |AuthTypes| && SameFold(arg, AuthTypes[k]) ==> j + 1 <= k;
    }
  }

  /**
   * `-t` accepts exactly the case variants of "WEP" and "WSA", and stores
   * the one the argument spells.
   */
  lemma CanonicalSpelling(arg: string)
    ensures Known(arg) <==> SameFold(arg, "WEP") || SameFold(arg, "WSA")
    ensures Known(arg) ==> Canonical(arg) in AuthTypes && SameFold(arg, Canonical(arg))
    ensures SameFold(arg, "WEP") ==> Known(arg) && Canonical(arg) == "WEP"
    ensures SameFold(arg, "WSA") ==> Known(arg) && Canonical(arg) == "WSA"
  {
    FirstFoldFinds(arg, 0);
  }

  /**
   * The `-t` branch's loop over AuthTypes: the first type `arg` matches
   * ignoring case, and whether there is one.
   */
  method MatchAuthType(arg: string) returns (found: bool, atype: string)
    ensures found <==> Known(arg)
    ensures found ==> atype == Canonical(arg)
  {
    found, atype := false, "";
    var j := 0;
    while j < |AuthTypes|
      invariant 0 <= j <= |AuthTypes| && !found
      invariant FirstFold(arg, 0) == FirstFold(arg, j)
    {
      found := SameFold(arg, AuthTypes[j]);
      if found {
        atype := AuthTypes[j];
        return;
      }
      j := j + 1;
    }
  }

  /** What the option loop has gathered: the three flags and the builder's fields. */
  datatype Scan = Scan(help: bool, disconnect: bool, connect: bool,
                       adbCmd: string, authType: string, password: string, ssid: string)

  /** Before any option: no flag, the default adb command and auth type. */
  const Start := Scan(false, false, false, AdbCmdDefault, AuthTypes[0], "", "")

  /** The option loop's result: it stops at an unknown auth type, or runs to the end. */
  datatype Scanned = BadAuthType(arg: string) | Scanned(s: Scan)

  /** One pass of the option loop. */
  function Step(s: Scan, o: Opt): Scanned {
    match o
    case AdbCmdArg(c) => Scanned(s.(adbCmd := c))
    case DisconnectSwitch => Scanned(s.(disconnect := true))
    case HelpSwitch => Scanned(s.(help := true))
    case KeyArg(k) => Scanned(s.(password := k, connect := true))
    case SsidArg(n) => Scanned(s.(ssid := n, connect := true))
    case TypeArg(t) => if Known(t) then Scanned(s.(authType := Canonical(t))) else BadAuthType(t)
    case VerboseSwitch => Scanned(s)
    case Unrecognised => Scanned(s)
  }

  /** The option loop over `opts`, in order. */
  function ScanAll(opts: seq<Opt>): Scanned
    decreases |opts|
  {
    if opts == [] then Scanned(Start)
    else
      match ScanAll(opts[..|opts| - 1])
      case BadAuthType(t) => BadAuthType(t)
      case Scanned(s) => Step(s, opts[|opts| - 1])
  }

  /** What parseClArgs leaves: its result, the configuration and the run mode. */
  datatype Parsed = Parsed(ok: bool, cfg: Config, mode: RunMode)

  /** The configuration build makes from the gathered fields at `time`. */
  function Built(s: Scan, time: nat): Config {
    Config(s.adbCmd, s.authType, s.password, s.ssid, UniqTag(time))
  }

  /**
   * parseClArgs after the option loop: leftover arguments fail, then both
   * modes at once, then a connect without SSID (after the configuration is
   * built); a mode is chosen only by `-s`, `-k` or `-d`, and --help turns
   * "no mode" into Help. `cfgIn` is the configuration the caller passed.
   */
  function Outcome(opts: seq<Opt>, extra: bool, time: nat, cfgIn: Config): Parsed {
    match ScanAll(opts)
    case BadAuthType(_) => Parsed(false, cfgIn, None)
    case Scanned(s) =>
      if extra || (s.disconnect && s.connect) then Parsed(false, cfgIn, None)
      else if !s.connect && !s.disconnect then Parsed(s.help, cfgIn, if s.help then Help else None)
      else if s.connect && s.ssid == "" then Parsed(false, Built(s, time), None)
      else Parsed(true, Built(s, time), if s.connect then Connect else Disconnect)
  }

  /** A failed `-t` stays failed whatever options follow. */
  lemma {:induction false} BadAuthTypeSticks(opts: seq<Opt>, i: nat)
    requires i <= |opts| && ScanAll(opts[..i]).BadAuthType?
    ensures ScanAll(opts).BadAuthType?
    decreases |opts| - i
  {
    if i < |opts| {
      assert opts[..i + 1][..i] == opts[..i];
      BadAuthTypeSticks(opts, i + 1);
    } else {
      assert opts[..i] == opts;
    }
  }

  /**
   * parseClArgs: the option loop over a builder holding "adb" and "WEP",
   * then the checks after it. A `-t` with an unknown type returns at once.
   */
  method ParseClArgs(opts: seq<Opt>, extra: bool, time: nat, cfgIn: Config) returns (ok: bool, cfg: Config, rmode: RunMode)
    ensures Parsed(ok, cfg, rmode) == Outcome(opts, extra, time, cfgIn)
  {
    var hflag, dflag, connFlag := false, false, false;
    cfg, rmode := cfgIn, None;
    var builder := new Builder();
    var b := builder.SetAdbCmd(AdbCmdDefault);
    b := builder.SetAuthType(AuthTypes[0]);
    var i := 0;
    while i < |opts|
      invariant 0 <= i <= |opts| && builder.uniqTag == ""
      invariant ScanAll(opts[..i]) ==
        Scanned(Scan(hflag, dflag, connFlag, builder.adbCmd, builder.authType, builder.password, builder.ssid))
    {
      assert opts[..i + 1][..i] == opts[..i];
      match opts[i] {
      case AdbCmdArg(c) =>
        b := builder.SetAdbCmd(c);
      case DisconnectSwitch =>
        dflag := true;
      case HelpSwitch =>
        hflag := true;
      case KeyArg(k) =>
        b := builder.SetPassword(k);
        connFlag := true;
      case SsidArg(n) =>
        b := builder.SetSsid(n);
        connFlag := true;
      case TypeArg(t) =>
        var found, atype := MatchAuthType(t);
        if !found {
          BadAuthTypeSticks(opts, i + 1);
          return false, cfg, rmode;
        }
        b := builder.SetAuthType(atype);
      case VerboseSwitch =>
      case Unrecognised =>
      }
      i := i + 1;
    }
    assert opts[..i] == opts;
    if extra {
      return false, cfg, rmode;
    }
    if dflag && connFlag {
      return false, cfg, rmode;
    }
    if connFlag || dflag {
      cfg := builder.Build(time);
      if connFlag {
        if cfg.ssid == "" {
          return false, cfg, rmode;
        }
        rmode := Connect;
      } else if dflag {
        rmode := Disconnect;
      }
    }
    if hflag {
      if rmode == None {
        rmode := Help;
      }
    } else if rmode == None {
      return false, cfg, rmode;
    }
    ok := true;
  }

  /** The builder fields an option can set. */
  datatype Field = AdbCmdField | AuthTypeField | PasswordField | SsidField

  /** Whether `o` sets field `f`, and the argument it sets it from. */
  predicate Sets(o: Opt, f: Field) {
    match f
    case AdbCmdField => o.AdbCmdArg?
    case AuthTypeField => o.TypeArg?
    case PasswordField => o.KeyArg?
    case SsidField => o.SsidArg?
  }

  function Arg(o: Opt): string {
    match o
    case AdbCmdArg(c) => c
    case TypeArg(t) => t
    case KeyArg(k) => k
    case SsidArg(n) => n
    case _ => ""
  }

  /** The argument of the last option of `opts` that sets `f`, or `dflt` when none does. */
  function Latest(opts: seq<Opt>, f: Field, dflt: string): string
    decreases |opts|
  {
    if opts == [] then dflt
    else if Sets(opts[|opts| - 1], f) then Arg(opts[|opts| - 1])
    else Latest(opts[..|opts| - 1], f, dflt)
  }

  /** Whether `opts` holds the option `o`. */
  predicate Given(opts: seq<Opt>, o: Opt) {
    exists i :: 0 <= i < |opts| && opts[i] == o
  }

  /** Whether `opts` holds a `-s` or a `-k`. */
  predicate Connects(opts: seq<Opt>) {
    exists i :: 0 <= i < |opts| && (opts[i].KeyArg? || opts[i].SsidArg?)
  }

  /** Every `-t` of `opts` names a known auth type. */
  predicate KnownTypes(opts: seq<Opt>) {
    forall i :: 0 <= i < |opts| && opts[i].TypeArg? ==> Known(opts[i].atype)
  }

  /** What one more option adds to the occurrence predicates. */
  lemma Appended(p: seq<Opt>, o: Opt)
    ensures KnownTypes(p + [o]) <==> KnownTypes(p) && (o.TypeArg? ==> Known(o.atype))
    ensures forall x :: Given(p + [o], x) <==> Given(p, x) || o == x
    ensures Connects(p + [o]) <==> Connects(p) || o.KeyArg? || o.SsidArg?
  {
    var opts := p + [o];
    assert opts[|p|] == o;
    assert forall i :: 0 <= i < |p| ==> opts[i] == p[i];
  }

  /**
   * The option loop in closed form: it fails exactly when some `-t` is
   * unknown; otherwise each flag records whether its options occur, and each
   * field holds the last value given for it, or its default.
   */
  lemma {:induction false} ScanAllFacts(opts: seq<Opt>)
    ensures ScanAll(opts).Scanned? <==> KnownTypes(opts)
    ensures ScanAll(opts).Scanned? ==>
      var s := ScanAll(opts).s;
      s.help == Given(opts, HelpSwitch) && s.disconnect == Given(opts, DisconnectSwitch) &&
      s.connect == Connects(opts) &&
      s.adbCmd == Latest(opts, AdbCmdField, AdbCmdDefault) &&
      s.password == Latest(opts, PasswordField, "") && s.ssid == Latest(opts, SsidField, "") &&
      Known(Latest(opts, AuthTypeField, AuthTypes[0])) &&
      s.authType == Canonical(Latest(opts, AuthTypeField, AuthTypes[0]))
    decreases |opts|
  {
    if opts == [] {
      CanonicalSpelling(AuthTypes[0]);
    } else {
      var p, o := opts[..|opts| - 1], opts[|opts| - 1];
      assert opts == p + [o];
      ScanAllFacts(p);
      Appended(p, o);
      if o.TypeArg? {
        CanonicalSpelling(o.atype);
      }
    }
  }

  /**
   * parseClArgs in closed form. It succeeds exactly when every `-t` is
   * known, no argument is left over, connect (`-s`/`-k`) and disconnect
   * (`-d`) are not both asked for, a connect has a non-empty SSID, and some
   * mode or --help is given. On success the mode is Connect, else
   * Disconnect, else Help; on failure it stays None. A chosen mode carries
   * the built configuration: the last value given for each field or its
   * default ("adb", "WEP", empty), and the time's tag. Help leaves the
   * caller's configuration.
   */
  lemma ParseIff(opts: seq<Opt>, extra: bool, time: nat, cfgIn: Config)
    ensures var p := Outcome(opts, extra, time, cfgIn);
      var h, d, c := Given(opts, HelpSwitch), Given(opts, DisconnectSwitch), Connects(opts);
      var ssid := Latest(opts, SsidField, "");
      (p.ok <==> KnownTypes(opts) && !extra && !(d && c) && (c ==> ssid != "") && (h || d || c)) &&
      (p.ok ==> p.mode == (if c then Connect else if d then Disconnect else Help)) &&
      (!p.ok ==> p.mode == None) &&
      (p.mode == Help ==> p.cfg == cfgIn) &&
      (p.ok && p.mode != Help ==>
        Known(Latest(opts, AuthTypeField, AuthTypes[0])) &&
        p.cfg == Config(Latest(opts, AdbCmdField, AdbCmdDefault), Canonical(Latest(opts, AuthTypeField, AuthTypes[0])),
                        Latest(opts, PasswordField, ""), ssid, UniqTag(time)))
  {
    ScanAllFacts(opts);
  }

  /** An option the loop ignores (an unrecognised one, or -v) can be dropped from the prefix's scan. */
  lemma {:induction false} IgnoredScan(a: seq<Opt>, o: Opt, b: seq<Opt>)
    requires o == Unrecognised || o == VerboseSwitch
    ensures ScanAll(a + [o] + b) == ScanAll(a + b)
    decreases |b|
  {
    if b == [] {
      assert a + [o] + b == a + [o] && (a + [o])[..|a|] == a && a + b == a;
    } else {
      var q, x := b[..|b| - 1], b[|b| - 1];
      IgnoredScan(a, o, q);
      assert (a + [o] + b)[..|a + [o] + b| - 1] == a + [o] + q;
      assert (a + b)[..|a + b| - 1] == a + q;
    }
  }

  /**
   * An unrecognised option only prints its error, and -v only makes the
   * log verbose: removing either leaves parseClArgs's outcome unchanged.
   */
  lemma IgnoredOption(a: seq<Opt>, o: Opt, b: seq<Opt>, extra: bool, time: nat, cfgIn: Config)
    requires o == Unrecognised || o == VerboseSwitch
    ensures Outcome(a + [o] + b, extra, time, cfgIn) == Outcome(a + b, extra, time, cfgIn)
  {
    IgnoredScan(a, o, b);
  }

  /** --help given together with a mode keeps that mode, and any successful parse stays as it was. */
  lemma HelpKeepsMode(opts: seq<Opt>, extra: bool, time: nat, cfgIn: Config)
    requires Outcome(opts, extra, time, cfgIn).ok
    ensures Outcome(opts + [HelpSwitch], extra, time, cfgIn) == Outcome(opts, extra, time, cfgIn)
  {
    assert (opts + [HelpSwitch])[..|opts|] == opts;
  }

  /** How the process ends: with an exit status, or still in the poller's loop after the given rounds. */
  datatype Ending = Exits(code: int) | Loops

  /**
   * main: parse the command line into a default Config; exit 1 when that
   * fails and 0 for Help. Otherwise run connectWiFi or disconnectWiFi on a
   * new poller and controller; exit 255 when that fails, else run the
   * poller's loop and exit with the controller's exitCode().
   *
   * The system answers for the launch (`pipes`, `forkPid`, `w`), the clocks
   * (`time`, `now`) and the poller's rounds (`rounds`) are inputs.
   */
  method ExitStatus(opts: seq<Opt>, extra: bool, time: nat, adbOk: bool,
                    pipes: seq<ChildProc.PipeAnswer>, forkPid: int, now: int, w: ChildProc.WaitAnswers,
                    rounds: seq<Poller.Env>) returns (end: Ending)
    requires |pipes| == 3 && forkPid != 0
    ensures var p := Outcome(opts, extra, time, EmptyConfig);
      var spawned := ChildProc.PipeStage(ChildProc.FDefault | ChildProc.FStdErr, pipes).0 == 3 && forkPid > 0;
      (end == Exits(1) <==> !p.ok) &&
      (end == Exits(0) <==> p.ok && p.mode == Help) &&
      (end == Exits(255) <==> p.ok && p.mode in {Connect, Disconnect} && !spawned) &&
      (end == Loops <==> p.ok && p.mode in {Connect, Disconnect} && spawned)
  {
    var ok, cfg, rmode := ParseClArgs(opts, extra, time, EmptyConfig);
    if !ok {
      return Exits(1);
    }
    if rmode == Help {
      return Exits(0);
    }
    if rmode == Connect {
      end := Serve(cfg, true, adbOk, pipes, forkPid, now, w, rounds);
    } else {
      ParseIff(opts, extra, time, EmptyConfig);
      assert rmode == Disconnect;
      end := Serve(cfg, false, adbOk, pipes, forkPid, now, w, rounds);
    }
  }

  /**
   * main once a mode is chosen: connectWiFi (`connect`) or disconnectWiFi
   * on a new poller and a controller over `cfg`; 255 when that fails, else
   * the poller's loop, then the controller's exitCode(). The handlers init
   * registers are never enabled, so the loop's first round never ends.
   */
  method Serve(cfg: Config, connect: bool, adbOk: bool,
               pipes: seq<ChildProc.PipeAnswer>, forkPid: int, now: int, w: ChildProc.WaitAnswers,
               rounds: seq<Poller.Env>) returns (end: Ending)
    requires |pipes| == 3 && forkPid != 0
    ensures var spawned := ChildProc.PipeStage(ChildProc.FDefault | ChildProc.FStdErr, pipes).0 == 3 && forkPid > 0;
      (!spawned ==> end == Exits(255)) && (spawned ==> end == Loops)
  {
    var fpoll, adb, started := Startup(cfg, connect, adbOk, pipes, forkPid, now, w);
    if !started {
      return Exits(255);
    }
    end := Finish(fpoll, adb, rounds);
  }

  /**
   * connectWiFi or disconnectWiFi on a new poller and a new controller over
   * `cfg`: init, then the script's first task. It succeeds exactly when adb
   * was spawned, and then leaves the poller's table stuck.
   */
  method Startup(cfg: Config, connect: bool, adbOk: bool,
               pipes: seq<ChildProc.PipeAnswer>, forkPid: int, now: int, w: ChildProc.WaitAnswers)
    returns (fpoll: Poller.FilePoller, adb: Controller.AdbController, started: bool)
    requires |pipes| == 3 && forkPid != 0
    ensures fresh(fpoll) && fresh(fpoll.Objects()) && fpoll.Valid()
    ensures started <==> ChildProc.PipeStage(ChildProc.FDefault | ChildProc.FStdErr, pipes).0 == 3 && forkPid > 0
    ensures started ==> fpoll.Stuck()
  {
    fpoll := new Poller.FilePoller();
    adb := new Controller.AdbController(cfg, fpoll, adbOk);
    var run, calls := adb.Run(connect, pipes, forkPid, now, w);
    started := run == Controller.Returns(true);
  }

  /**
   * The end of main after a successful start: the poller's loop, then the
   * controller's exitCode(). The process stays in the loop unless a round
   * returns false; on a stuck table the first round never ends.
   */
  method Finish(fpoll: Poller.FilePoller, adb: Controller.AdbController, rounds: seq<Poller.Env>) returns (end: Ending)
    requires fpoll.Valid()
    modifies fpoll, fpoll.Objects()
    ensures old(fpoll.Stuck()) ==> end == Loops
    ensures end == Loops || end == Exits(adb.ExitCode())
  {
    var n, last := fpoll.Exec(rounds);
    if last != Poller.Returns(false) {
      return Loops;
    }
    end := Exits(adb.ExitCode());
  }
}
