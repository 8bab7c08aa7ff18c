# adbwifiswitch in Dafny

adbwifiswitch is a Linux command-line tool. It uses `adb` to make an
attached Android device join a Wi-Fi network, or leave it. The tool does this
through a small Android agent, `com.steinwurf.adbjoinwifi`. Here is how a run
goes:

- `main` parses the command line into a run mode and a `Config`.
- `AdbController` spawns `adb shell` as a `ChildProcess`, with pipes on its
  stdin, stdout and stderr.
- The controller registers one `FileHandler` per pipe with the `FilePoller`.
- The controller then drives a script of `AdbTask`s. The first task waits
  for the shell prompt twice and then moves on.
- Each handler reads into a `ReadBuffer`; stdin writes from a `WriteBuffer`.
  Timers live in a per-handler multimap ordered by deadline.

This project models that core in Dafny and proves properties of the model.
The modules follow the source files:

| module | file | source |
|---|---|---|
| `Buffers` | `buffers.dfy` | `Buffers.h`, `Buffers.cpp` |
| `Handlers` | `file_handler.dfy` | `FileHandler.h`, `FileHandler.cpp` |
| `Poller` | `file_poller.dfy` | `FilePoller.h`, `FilePoller.cpp` |
| `ChildProc` | `child_process.dfy` | `ChildProcess.h`, `ChildProcess.cpp` |
| `Configs` | `config.dfy` | `Config.h`, `Config.cpp` |
| `Tasks` | `adb_task.dfy` | `AdbTask.h`, `AdbTask.cpp`, `AdbContext.h` |
| `Controller` | `adb_controller.dfy` | `AdbController.h`, `AdbController.cpp` |
| `Cli` | `main.dfy` | `main.cpp` |

How the model is shaped:

- **Classes.** Objects whose fields the source updates in place are Dafny
  classes with `modifies` frames: the buffers, `FileHandler`,
  `FilePoller`, `ChildProcess`, `Config::Builder`, the tasks and their
  context, the controller, its stream handlers and the script.
- **Functions.** Pure logic is functions and lemmas: `Config` itself,
  command-line parsing in closed form, `to_string`, and the tag scanner of
  the logcat task.
- **Inputs.** The kernel is never called. Every system call the source makes
  is an input given as a parameter: `pipe`, `fcntl`, `fork`, `kill`,
  `waitpid`, `read`, `write` and `poll`. The same holds for the two clocks.
  A method returns the calls it makes, in order.
- **Assertions.** A source `assert` that a reachable state violates is the
  outcome `Aborts`. An `assert` that callers always satisfy is a
  `requires`.

Some behaviour of the source is modelled as written even though it looks
unintended:

- `ChildProcess::cleanup` closes only the descriptors that are negative, so
  valid pipe ends stay open. The handlers' destructors close them instead.
- `FilePoller::pollHandlers` spins for ever when a live handler is disabled.
  The `continue` there does not advance the iterator. This is not a corner
  case. A handler starts disabled (its flags are 0), and the only `setState`
  call in the program is `setState(false)` in the teardown. So the three
  handlers a successful init registers are never enabled. The first round
  of exec spins, no read, write or timer of adb's streams is ever served,
  and main never returns after a successful start.
- For a pending deadline that is not yet due, the timer part of the scan
  computes `now - deadline`, which is negative. The `poll()` timeout then
  means "no limit".
- The connect and disconnect scripts have three steps, but only the first
  step creates a task. Moving past it fails the null-task assertion.
- `AdbTaskWaitFirstPrompt::onDataReady` treats an empty chunk as a prompt,
  because `size() - 1` wraps to `npos`.
- `CtrlC` is the three characters NUL, `x`, `3`, not the byte 0x03.
- The configuration's unique tag joins the decimals of the time's bytes
  without a separator, so two times can give the same tag: bytes 1, 23 and
  bytes 12, 3 both give "123".

## Model

| member | source | states |
|---|---|---|
| Buffers.Zeros | adbwifiswitch/Buffers.cpp:9-13 | storage of `n` value-initialised chars: length `n`, every char NUL |
| Buffers.Buffer.constructor | adbwifiswitch/Buffers.cpp:9-13 | a new buffer holds nothing and owns `reserve` zeroed chars of storage |
| Buffers.Buffer.CutAll | adbwifiswitch/Buffers.cpp:15-18 | afterwards nothing is held and the storage is untouched |
| Buffers.Buffer.Cut | adbwifiswitch/Buffers.cpp:20-31 | exactly the first `size` held bytes are consumed; the rest stay in order; an emptied buffer rewinds its head to 0; `move` compacts the bytes to offset 0; without `move` the storage is untouched |
| Buffers.Buffer.Empty | adbwifiswitch/Buffers.cpp:33-36 | true iff the buffer holds no bytes |
| Buffers.Buffer.EndPtr | adbwifiswitch/Buffers.cpp:38-42 | the offset just past the held bytes; the storage from there on is exactly the free room |
| Buffers.Buffer.FilledSize | adbwifiswitch/Buffers.cpp:44-47 | the number of bytes held |
| Buffers.Buffer.HeadPtr | adbwifiswitch/Buffers.cpp:49-53 | the offset at which the held bytes lie in the storage |
| Buffers.Buffer.Reserve | adbwifiswitch/Buffers.cpp:55-61 | afterwards at least `size` bytes of room follow the held bytes, which are unchanged; the storage grows only when room was short, to exactly head + filled + size; `trim` moves the head to 0 |
| Buffers.Buffer.RestSize | adbwifiswitch/Buffers.cpp:63-67 | head, held bytes and free room add up to the capacity |
| Buffers.Buffer.Store | adbwifiswitch/Buffers.cpp:84 | memcpy: the storage at `p` holds `data`; everything else is unchanged |
| Buffers.Buffer.AddFilled | adbwifiswitch/Buffers.cpp:72-76 | the `size` bytes after the held ones join them; the storage and head are unchanged |
| Buffers.Buffer.Receive | adbwifiswitch/AdbController.cpp:293-301 | a read into readPtr followed by addFilled appends exactly the bytes read and uses up that much room |
| Buffers.Buffer.Head | adbwifiswitch/Buffers.h:31 | the head offset, where the held bytes start |
| Buffers.Buffer.ReadPtr | adbwifiswitch/Buffers.h:32 | the offset where the next read lands; the free room starts there and is not empty |
| Buffers.Buffer.Append | adbwifiswitch/Buffers.cpp:81-86 | the held bytes become the old ones followed by `data`; without `trim` the head stays |
| Buffers.Buffer.Ptr | adbwifiswitch/Buffers.h:40 | the head offset of a write buffer, where the pending bytes start |
| Buffers.Buffer.PushHead | adbwifiswitch/Buffers.h:41 | the first `size` pending bytes are dropped and the rest stay in order |
| Buffers.Buffer.Size | adbwifiswitch/Buffers.h:42 | equals filledSize |
| Buffers.FilledAfterOps | adbwifiswitch/Buffers.cpp:20-86 | after any run of appends and in-range cuts, the bytes held plus those cut equal the bytes held before plus those appended |
| Handlers.InsertPlacement | adbwifiswitch/FileHandler.cpp:66 | multimap emplace puts the new timer after every entry whose deadline is not later, and before the later ones |
| Handlers.InsertSorted | adbwifiswitch/FileHandler.cpp:66 | inserting keeps the timers in deadline order |
| Handlers.Drop | adbwifiswitch/FileHandler.cpp:70-76 | erasing by id never adds entries |
| Handlers.DropMembers | adbwifiswitch/FileHandler.cpp:70-76 | stopTimer's erase loop keeps exactly the entries whose id is not stopped |
| Handlers.DropSorted | adbwifiswitch/FileHandler.cpp:70-76 | erasing keeps the timers in deadline order |
| Handlers.DropIdempotent | adbwifiswitch/FileHandler.cpp:70-76 | stopping the same ids twice is the same as stopping them once |
| Handlers.ResetTimerLeavesOne | adbwifiswitch/FileHandler.cpp:61-68 | with reset_prev, exactly one timer of the id remains, at the new deadline; the timers of other ids are the same entries in the same order |
| Handlers.KeepPreviousTimers | adbwifiswitch/FileHandler.cpp:61-68 | without reset_prev, every old timer stays and the id gains exactly one entry |
| Handlers.Fire | adbwifiswitch/FileHandler.cpp:26-37 | checkTimer stops at the first entry that is not due; with nothing due it fires nothing and keeps every entry |
| Handlers.FireTakesFromList | adbwifiswitch/FileHandler.cpp:26-37 | every fired timer was pending and due; every remaining timer was pending; no entry is both fired and left |
| Handlers.FireStep | adbwifiswitch/FileHandler.cpp:28-36 | one round of the loop erases the earliest due entry and then applies the stops its callback makes |
| Handlers.FireOrdered | adbwifiswitch/FileHandler.cpp:26-37 | on ordered timers, timers fire in deadline order and every timer left is later than `now` |
| Handlers.NothingDue | adbwifiswitch/FileHandler.cpp:30-31 | when no deadline has passed, checkTimer changes nothing |
| Handlers.DefaultOnTimer | adbwifiswitch/FileHandler.h:23 | the base onTimer stops no timer |
| Handlers.FireDuePrefix | adbwifiswitch/FileHandler.cpp:26-37 | with callbacks that stop nothing, checkTimer fires exactly the leading entries with deadline up to `now` |
| Handlers.FileHandler.constructor | adbwifiswitch/FileHandler.cpp:13-17 | a new handler keeps its fd, is disabled, requests no write and has no timers |
| Handlers.FileHandler.GetFd | adbwifiswitch/FileHandler.h:12 | the descriptor given at construction |
| Handlers.FileHandler.SetState | adbwifiswitch/FileHandler.cpp:56-59 | only the enabled bit changes, to `enable`; every other flag bit and the timers stay |
| Handlers.FileHandler.SetWriteRequest | adbwifiswitch/FileHandler.cpp:78-81 | only the poll-out bit changes, to `enable`; every other flag bit and the timers stay |
| Handlers.FileHandler.StartTimer | adbwifiswitch/FileHandler.cpp:61-68 | the timer is due `ms` after `now` and is placed as emplace places it, after the id's old entries are erased when `resetPrev`; it returns true |
| Handlers.FileHandler.StopTimer | adbwifiswitch/FileHandler.cpp:70-76 | exactly the entries of that id are erased |
| Handlers.FileHandler.GetClosestTime | adbwifiswitch/FileHandler.cpp:39-44 | the earliest pending deadline, or time_point::max() when none is pending |
| Handlers.FileHandler.CheckTimer | adbwifiswitch/FileHandler.cpp:26-37 | the fired timers and those left are what Fire gives from the old timers |
| Handlers.FileHandler.Destroy | adbwifiswitch/FileHandler.cpp:19-24 | the destructor closes the descriptor unless it is -1 |
| Poller.Succ | adbwifiswitch/FilePoller.cpp:53-55 | the unsigned counter's increment: it wraps from 2^32-1 to 0 |
| Poller.FirstFreeUnique | adbwifiswitch/FilePoller.cpp:51-57 | getNextSeq's answer is determined by the counter and the table |
| Poller.FirstIdIsOne | adbwifiswitch/FilePoller.cpp:51-57 | on an empty table with the counter at BadHandlerId, the first id handed out is 1 |
| Poller.FreeWhenRoom | adbwifiswitch/FilePoller.cpp:51-57 | when some id other than the counter is free, getNextSeq hands out a free id |
| Poller.NextSeqFrom | adbwifiswitch/FilePoller.cpp:51-57 | the probing loop returns the first free id after the start in wrapping order, or the start once every id has been tried |
| Poller.ScanStart | adbwifiswitch/FilePoller.cpp:62-70 | the vectors are equalised to the shorter length; no entry is written yet; no timer candidate |
| Poller.Events | adbwifiswitch/FilePoller.cpp:88 | POLLIN and POLLERR are always requested; POLLOUT is requested iff a write is |
| Poller.Place | adbwifiswitch/FilePoller.cpp:91-97 | writing entry `k` overwrites it when it exists, else appends; nothing else changes |
| Poller.TimerStep | adbwifiswitch/FilePoller.cpp:100-119 | a due deadline zeroes the timeout and any pending one leaves it at or below zero; a non-positive timeout stays so; the handler may become a candidate, and the candidate bookkeeping stays consistent |
| Poller.ScanStep | adbwifiswitch/FilePoller.cpp:80-124 | one table entry: an expired handler is erased; a live disabled one makes the scan spin; a live enabled one is polled and considered for timers |
| Poller.Polled | adbwifiswitch/FilePoller.cpp:82-98 | only live, enabled handlers get a poll entry |
| Poller.Expired | adbwifiswitch/FilePoller.cpp:121-123 | exactly the registered ids whose handler is gone |
| Poller.ScanSpinsIff | adbwifiswitch/FilePoller.cpp:80-85 | the scan spins iff some live handler is disabled, and then at the first such one |
| Poller.FilePoller.StuckSpins | adbwifiswitch/FilePoller.cpp:80-85 | when some registered handler is alive and disabled, the scan of the table spins, whatever the vectors, timeout and clock |
| Poller.ScanIds | adbwifiswitch/FilePoller.cpp:80-124 | a completed scan writes one id per live enabled handler, in table order |
| Poller.ScanPollFds | adbwifiswitch/FilePoller.cpp:86-97 | each written pollfd carries its handler's fd and the events it asks for; entries beyond are untouched |
| Poller.ScanPrunes | adbwifiswitch/FilePoller.cpp:121-123 | a completed scan erases exactly the registrations whose handler has expired |
| Poller.ScanTimeoutStays | adbwifiswitch/FilePoller.cpp:104-114 | once the timeout is zero it stays zero; once it is at most zero it stays so |
| Poller.DueTimerZeroesTimeout | adbwifiswitch/FilePoller.cpp:104-107 | a polled handler with a due deadline forces the poll timeout to zero |
| Poller.PendingTimerNonPositive | adbwifiswitch/FilePoller.cpp:104-114 | any polled handler with a pending timer leaves the timeout at zero or below |
| Poller.FutureDeadlineGivesNegativeTimeout | adbwifiswitch/FilePoller.cpp:108-113 | a single future deadline makes the timeout negative |
| Poller.CandidatesCounted | adbwifiswitch/FilePoller.cpp:115-118 | firstTimer is the last candidate; moreTimers holds iff at least two handlers were candidates |
| Poller.SortedKeysEnumerate | adbwifiswitch/FilePoller.h:25 | the table's iteration order lists every id exactly once, increasing |
| Poller.SortedKeysMembers | adbwifiswitch/FilePoller.h:25 | the listing holds exactly the table's ids |
| Poller.SortedKeysOrdered | adbwifiswitch/FilePoller.h:25 | the listing is strictly increasing |
| Poller.Gated | adbwifiswitch/FilePoller.cpp:152-163 | no more callbacks run than are listed, and a disabled handler gets none |
| Poller.GatedTriggers | adbwifiswitch/FilePoller.cpp:152-163 | every callback made had its revents bit set |
| Poller.DispatchRule | adbwifiswitch/FilePoller.cpp:152-163 | a callback runs iff its bit is set and the handler is still enabled after the ones before; the order is read, error, write |
| Poller.DispatchFrom | adbwifiswitch/FilePoller.cpp:143-171 | the dispatch only removes registrations, never adds or rebinds one, and keeps an enabled bit per handler |
| Poller.DispatchOnlyReady | adbwifiswitch/FilePoller.cpp:143-171 | only a registered live handler whose entry reported the triggering event gets a callback |
| Poller.ConsiderTimer | adbwifiswitch/FilePoller.cpp:101-119 | the scan's timer bookkeeping on the source's variables computes TimerStep |
| Poller.Emit | adbwifiswitch/FilePoller.cpp:86-119 | the scan's work for a live enabled handler computes ScanStep's result |
| Poller.InOrder | adbwifiswitch/FilePoller.cpp:80 | the map iteration yields the ids in increasing order |
| Poller.Above | adbwifiswitch/FilePoller.cpp:180 | upper_bound's range: the ids strictly above `curr` |
| Poller.ToInt32 | adbwifiswitch/FilePoller.cpp:129 | the cast of the millisecond count to int keeps its low 32 bits as two's complement |
| Poller.PollTimeout | adbwifiswitch/FilePoller.cpp:129 | milliseconds::max() becomes -1; other counts are cast to int |
| Poller.FutureDeadlineBlocks | adbwifiswitch/FilePoller.cpp:108-133 | a single pending deadline up to 2^31 ms ahead makes poll() wait without limit |
| Poller.WithRevents | adbwifiswitch/FilePoller.cpp:133 | poll() writes revents into exactly the first `count` entries |
| Poller.StaleEntriesStillPoll | adbwifiswitch/FilePoller.cpp:62-133 | stale entries in the reused vectors keep poll() being called even when nothing is polled this round |
| Poller.FreshVectorsPollIffPolled | adbwifiswitch/FilePoller.cpp:31-36 | from empty vectors, poll() is called iff some handler got an entry |
| Poller.FilePoller.constructor | adbwifiswitch/FilePoller.cpp:7-10 | an empty table with the counter at BadHandlerId |
| Poller.FilePoller.GetNextSeq | adbwifiswitch/FilePoller.cpp:51-57 | the counter moves to the first free id after it, or back to where it started; the table is unchanged |
| Poller.FilePoller.AddHandler | adbwifiswitch/FilePoller.cpp:12-22 | the handler is registered under the id handed out unless that id is BadHandlerId or already taken; the id is returned either way |
| Poller.FilePoller.RemoveHandler | adbwifiswitch/FilePoller.cpp:38-42 | exactly that id leaves the table |
| Poller.FilePoller.Visit | adbwifiswitch/FilePoller.cpp:80-124 | one entry of the scan, as ScanStep says; the table loses exactly the ids it erases |
| Poller.FilePoller.ScanTable | adbwifiswitch/FilePoller.cpp:59-125 | the scan over the table in id order is ScanAll; only expired registrations are erased; the table invariant holds |
| Poller.FilePoller.ScanEntries | adbwifiswitch/FilePoller.cpp:62-125 | the scan loop computes ScanAll and erases exactly the expired registrations it passes |
| Poller.FilePoller.Run | adbwifiswitch/FilePoller.cpp:154-162 | under the callback oracle: the enabled bit read back is the one the effect leaves, and exactly the effect's ids leave the table; the oracle changes no timer or write request |
| Poller.FilePoller.Gate | adbwifiswitch/FilePoller.cpp:152-163 | a callback runs iff the handler is enabled and its bit is set; then the table and the enabled bit are as the oracle's effect says |
| Poller.FilePoller.DispatchEntry | adbwifiswitch/FilePoller.cpp:150-163 | under the callback oracle: the callbacks for one ready descriptor are those Gated gives, read, error then write |
| Poller.FilePoller.DispatchAt | adbwifiswitch/FilePoller.cpp:144-170 | under the callback oracle: entry `i` of the dispatch, as DispatchFrom says |
| Poller.FilePoller.Dispatch | adbwifiswitch/FilePoller.cpp:142-172 | under the callback oracle: the callbacks made, the final table and the enabled bits are DispatchFrom's; the oracle changes no timer or write request |
| Poller.FilePoller.TimerTargets | adbwifiswitch/FilePoller.cpp:174-203 | the timer phase checks only registered, live, enabled handlers |
| Poller.FilePoller.NextArmed | adbwifiswitch/FilePoller.cpp:180-186 | finds an armed id above `curr` iff one exists, and then the least |
| Poller.FilePoller.LeastArmedAbove | adbwifiswitch/FilePoller.cpp:180-186 | the search's answer is the unique least armed id above `curr` |
| Poller.FilePoller.CheckOne | adbwifiswitch/FilePoller.cpp:189 | under the timer oracle, which only stops timers: checkTimer on one handler changes only that handler's timers, as Remaining says |
| Poller.FilePoller.WalkStep | adbwifiswitch/FilePoller.cpp:179-192 | under the timer oracle: one step of the walk checks the next armed id, if there is one |
| Poller.FilePoller.WalkArmed | adbwifiswitch/FilePoller.cpp:176-193 | under the timer oracle: with several candidates every armed handler is checked once, in increasing id order, and its timers are Advanced's |
| Poller.FilePoller.FireTimers | adbwifiswitch/FilePoller.cpp:174-204 | under the timer oracle: the timer phase checks exactly its targets, in increasing id order; only their timers change |
| Poller.FilePoller.Serve | adbwifiswitch/FilePoller.cpp:127-206 | no entry gives true without poll(); otherwise poll() gets the entries written this round and the timeout, and a failure gives false; callbacks go only to ready registered handlers |
| Poller.FilePoller.PollHandlers | adbwifiswitch/FilePoller.cpp:59-207 | a round hangs iff the scan spins; otherwise it returns what Serve gives for the completed scan |
| Poller.FilePoller.PollOnce | adbwifiswitch/FilePoller.cpp:31-36 | a round from empty vectors returns true without poll() when nothing is polled, otherwise whether poll() succeeded |
| Poller.FilePoller.Exec | adbwifiswitch/FilePoller.cpp:24-29 | the loop runs rounds until one does not return true; on a table with a live disabled handler the first round hangs, so exec never returns |
| ChildProc.OpenPipe | adbwifiswitch/ChildProcess.cpp:139-151 | succeeds iff the pipe is made and, with fNonblock, the parent's end is made non-blocking; on an fcntl failure both ends are closed |
| ChildProc.ClosePipes | adbwifiswitch/ChildProcess.cpp:75-76 | both ends of each pipe are closed, in order |
| ChildProc.ReapsStopAtFirst | adbwifiswitch/ChildProcess.cpp:168-181 | reaping stops at the first answer other than 0 and keeps it |
| ChildProc.ReapsAllRunning | adbwifiswitch/ChildProcess.cpp:168-181 | three answers of 0 make three reaps with a sleep after each, and leave 0 |
| ChildProc.ReapsAtMostThree | adbwifiswitch/ChildProcess.cpp:168-181 | at most three non-blocking reaps; a non-zero result is one of the answers |
| ChildProc.ReapsOnlyReap | adbwifiswitch/ChildProcess.cpp:168-181 | the reap loop makes only waitpid(WNOHANG) calls and one-second sleeps, starting with a waitpid |
| ChildProc.WaitOutcome | adbwifiswitch/ChildProcess.cpp:153-215 | with no child, wait makes no call and returns true |
| ChildProc.WaitEscalation | adbwifiswitch/ChildProcess.cpp:153-215 | on a running child: at most three non-blocking reaps and one blocking reap; a signal only when forced or still running and not found gone; SIGKILL unless already sent; true iff the last reap answered the pid |
| ChildProc.PipeStage | adbwifiswitch/ChildProcess.cpp:53-78 | every needed pipe is opened (stderr's only with fStdErr) iff each OpenPipe succeeds |
| ChildProc.CloseNegative | adbwifiswitch/ChildProcess.cpp:37-42 | cleanup's loop closes only descriptors that are negative, never a valid one |
| ChildProc.ChildProcess.constructor | adbwifiswitch/ChildProcess.cpp:24-28 | no descriptors (-1), no child (pid -1), the given flags |
| ChildProc.ChildProcess.Wait | adbwifiswitch/ChildProcess.cpp:153-215 | the calls and result are WaitOutcome's; a child's pid becomes 0, so a second wait does nothing; descriptors untouched |
| ChildProc.ChildProcess.Cleanup | adbwifiswitch/ChildProcess.cpp:35-46 | negative descriptors are closed and reset to -1; valid ones stay; then wait without forcing |
| ChildProc.ChildProcess.CloseInvalid | adbwifiswitch/ChildProcess.cpp:37-42 | each negative descriptor is closed and reset; the others and the pid stay |
| ChildProc.ChildProcess.Exec | adbwifiswitch/ChildProcess.cpp:48-134 | succeeds iff every needed pipe opens and fork succeeds; then the parent keeps stdin's write end and the read ends and closes the child's ends; on failure nothing changes and every opened pipe is closed |
| ChildProc.ChildProcess.OpenPipes | adbwifiswitch/ChildProcess.cpp:53-78 | the pipe-making loop computes PipeStage |
| ChildProc.ChildProcess.ClosePrefix | adbwifiswitch/ChildProcess.cpp:74-77 | the two-level close loop closes both ends of the first `n` pipes |
| ChildProc.ChildProcess.Destroy | adbwifiswitch/ChildProcess.cpp:30-33 | the destructor is cleanup with a forced stop |
| Configs.Digit | adbwifiswitch/Config.cpp:18 | a decimal digit character denoting `d` |
| Configs.Decimal | adbwifiswitch/Config.cpp:18 | to_string gives one or more digits, a single digit exactly below 10 |
| Configs.DecimalValue | adbwifiswitch/Config.cpp:18 | reading to_string's digits back gives the value |
| Configs.ByteDecimal | adbwifiswitch/Config.cpp:18 | a byte prints as one to three digits with no leading zero |
| Configs.UniqTagShape | adbwifiswitch/Config.cpp:17-20 | the tag is empty iff the time is 0; it is all digits, one to three per byte |
| Configs.TagCollides | adbwifiswitch/Config.cpp:17-20 | two different times give the same tag "123" |
| Configs.ToString | adbwifiswitch/Config.cpp:25-31 | the text is as long as the five labels (32 characters) and the five fields together |
| Configs.ToStringFields | adbwifiswitch/Config.cpp:25-31 | each field appears verbatim after its label: adb command, SSID, key, auth type, tag |
| Configs.Builder.constructor | adbwifiswitch/Config.h:17 | every field empty |
| Configs.Builder.SetAdbCmd | adbwifiswitch/Config.h:19 | sets only the adb command and returns the same builder |
| Configs.Builder.SetAuthType | adbwifiswitch/Config.h:20 | sets only the auth type and returns the same builder |
| Configs.Builder.SetPassword | adbwifiswitch/Config.h:21 | sets only the password and returns the same builder |
| Configs.Builder.SetSsid | adbwifiswitch/Config.h:22 | sets only the SSID and returns the same builder |
| Configs.Builder.Build | adbwifiswitch/Config.cpp:9-23 | copies every field and appends the time's byte-wise decimal tag |
| Tasks.Context.constructor | adbwifiswitch/AdbContext.cpp:4-7 | the context keeps its configuration and has made no call |
| Tasks.Context.Write | adbwifiswitch/AdbContext.h:27 | writeStdIn: records the write and gives the context's answer |
| Tasks.Context.StartTimer | adbwifiswitch/AdbContext.h:28-29 | timerCtl(start): records the start and gives the context's answer |
| Tasks.Context.StopTimer | adbwifiswitch/AdbContext.h:28-29 | timerCtl(stop): records the stop |
| Tasks.Context.Start | adbwifiswitch/AdbContext.h:25 | startAdb: records the command line and gives the context's answer |
| Tasks.IntentParams | adbwifiswitch/AdbTask.cpp:160-182 | the `am start` line of the agent: 8 words for connect, 5 for disconnect, with the mode argument |
| Tasks.ArgValue | adbwifiswitch/AdbTask.cpp:160-170 | the value behind an argument's prefix |
| Tasks.ConnectArgsCarryWifi | adbwifiswitch/AdbTask.cpp:160-170 | the connect line carries the SSID, password and auth type verbatim, so two lines are equal iff those are; the disconnect line carries none |
| Tasks.LaunchesShareActivity | adbwifiswitch/AdbTask.cpp:160-182 | the two launches share the activity prefix and differ in the mode |
| Tasks.RFind | adbwifiswitch/AdbTask.cpp:89 | the last position of the char, or npos iff it does not occur |
| Tasks.IsPrompt | adbwifiswitch/AdbTask.cpp:88-90 | a chunk is a prompt iff it ends in '$' or is empty |
| Tasks.OnTagLine | adbwifiswitch/AdbTask.cpp:246-254 | Next iff the line holds the disconnect signature; never Fail |
| Tasks.NewlineFrom | adbwifiswitch/AdbTask.cpp:221 | the first newline at or after `i`, or the length |
| Tasks.LineVerdict | adbwifiswitch/AdbTask.cpp:230-233 | Next iff the line names the agent's tag and the disconnect signature |
| Tasks.TagScanConsumes | adbwifiswitch/AdbTask.cpp:215-236 | the bytes consumed end at a newline; a scan that runs through leaves exactly the unterminated tail |
| Tasks.TagScanNextIff | adbwifiswitch/AdbTask.cpp:215-236 | lookupTag answers Next iff some line names the tag and the signature; never Fail |
| Tasks.CleanupShape | adbwifiswitch/AdbTask.cpp:68-188 | cleanup writes once (the 6-byte exit for the prompt task, 3 bytes of CtrlC otherwise), then stops the task timer except in the logcat task |
| Tasks.StartWaitMs | adbwifiswitch/AdbTask.cpp:10-15 | the start timer is 30 s for logcat and 10 s otherwise |
| Tasks.Task.constructor | adbwifiswitch/AdbTask.cpp:47-51 | a task of its kind over the shared context, with no prompt seen |
| Tasks.Task.CreateIntentParams | adbwifiswitch/AdbTask.cpp:160-182 | appends the launch line to the command line |
| Tasks.Task.Start | adbwifiswitch/AdbTask.cpp:76-203 | arms the task timer on stdin; launch and logcat tasks then start adb only if it was armed; true iff every call succeeded |
| Tasks.Task.Cleanup | adbwifiswitch/AdbTask.cpp:68-188 | makes exactly CleanupCalls; the prompt task forgets the prompts it saw |
| Tasks.Task.OnDataReady | adbwifiswitch/AdbTask.cpp:85-145 | the whole chunk is consumed; the first stdout prompt is answered with a newline and a 3 s timer (cleanup and Fail if a call fails); the second gives Next; a launch task moves on at an empty chunk |
| Tasks.Task.OnTimer | adbwifiswitch/AdbTask.cpp:109-213 | every task cleans up and fails |
| Tasks.Task.LookupTag | adbwifiswitch/AdbTask.cpp:215-236 | stdout chunks go through TagScan; other streams are consumed whole with Continue |
| Controller.Script.constructor | adbwifiswitch/AdbController.h:105 | a script over the shared context, before its first step |
| Controller.Script.Reset | adbwifiswitch/AdbController.h:112 | back before the first step |
| Controller.Script.GetNextTask | adbwifiswitch/AdbController.cpp:22-35 | advances the cursor; only step 0 yields a task, a new WaitFirstPrompt on the shared context |
| Controller.ScriptSteps | adbwifiswitch/AdbController.cpp:22-39 | after `k` calls the cursor is k - 1, and hasNext holds iff k < 3 |
| Controller.Deliver | adbwifiswitch/AdbController.cpp:293 | read() delivers at most the requested count |
| Controller.ChunkSize | adbwifiswitch/AdbController.cpp:290-292 | the size asked for once the buffer is full: the next multiple of 1024 above twice the total |
| Controller.ReadRunBounds | adbwifiswitch/AdbController.cpp:285-305 | Read reports exactly the bytes it added, never more than the room; it fails its assertion iff the room fills before `max` bytes |
| Controller.WriteResult | adbwifiswitch/AdbController.cpp:307-315 | Write gives the count written, 0 for EAGAIN, and is negative iff write failed |
| Controller.TimerStepSorted | adbwifiswitch/AdbController.cpp:380-385 | a timerCtl call keeps a handler's timers in deadline order |
| Controller.TimersAfterSorted | adbwifiswitch/AdbController.cpp:380-385 | any run of context calls keeps every handler's timers ordered |
| Controller.StartArmsOne | adbwifiswitch/AdbController.cpp:380-385 | a task's start leaves exactly one task timer on stdin, at now + ms, and the other timers as they were |
| Controller.PromptStart | adbwifiswitch/AdbTask.cpp:76-83 | the prompt task's start writes nothing, arms its timer 10 s ahead and leaves stdout's and stderr's timers alone |
| Controller.PromptWrites | adbwifiswitch/AdbTask.cpp:91-99 | the answer to the first prompt writes exactly a newline |
| Controller.PromptTimers | adbwifiswitch/AdbTask.cpp:91-99 | the answer to the first prompt re-arms the task timer 3 s ahead and leaves the other timers alone |
| Controller.CleanupDisarms | adbwifiswitch/AdbTask.cpp:68-74 | a prompt or launch cleanup leaves no task timer on stdin |
| Controller.CleanupStops | adbwifiswitch/AdbTask.cpp:68-74 | a prompt or launch cleanup leaves the other stdin timers as they were |
| Controller.CleanupSparesOutput | adbwifiswitch/AdbTask.cpp:68-188 | no cleanup touches stdout's or stderr's timers |
| Controller.CleanupWrites | adbwifiswitch/AdbTask.cpp:68-188 | a cleanup writes exactly the shell's exit (prompt task) or CtrlC |
| Controller.Register | adbwifiswitch/FilePoller.cpp:17-21 | addHandler's effect on the table: only a good, untaken id gains the handler |
| Controller.RegisteredValues | adbwifiswitch/AdbController.cpp:182-188 | registering the three handlers adds no other handler object |
| Controller.RegisterUndone | adbwifiswitch/AdbController.cpp:136-139 | removing the ids registered undoes the registrations |
| Controller.EmptyTableRegisters | adbwifiswitch/FilePoller.cpp:51-57 | from an empty table, the three ids init asks for are all good |
| Controller.StreamHandler.constructor | adbwifiswitch/AdbController.cpp:234-238 | a handler over `fd` with empty default-sized buffers, not registered |
| Controller.StreamHandler.ReadTurn | adbwifiswitch/AdbController.cpp:289-302 | one turn of the read loop appends exactly what ReadStep says and uses up that much room |
| Controller.StreamHandler.Read | adbwifiswitch/AdbController.cpp:285-305 | the result and the bytes appended are ReadRun's |
| Controller.StreamHandler.ApplyTimer | adbwifiswitch/AdbController.cpp:380-385 | a start resets the id's timer, a stop erases it; flags untouched |
| Controller.StreamHandler.Put | adbwifiswitch/AdbController.cpp:349-354 | the bytes are appended to the write buffer and a write is requested; true |
| Controller.StreamHandler.Drain | adbwifiswitch/AdbController.cpp:323-337 | exactly the bytes written leave the buffer's front; the write request ends once the buffer is empty; on an error nothing changes |
| Controller.AdbController.constructor | adbwifiswitch/AdbController.cpp:89-94 | no handlers, script or task; the process flags fDefault and fStdErr |
| Controller.AdbController.ExitCode | adbwifiswitch/AdbController.cpp:119-122 | 0 iff a script exists with no step left, else 1 |
| Controller.AdbController.GetFH | adbwifiswitch/AdbController.cpp:155-169 | the handler of the stream |
| Controller.AdbController.GetFHStream | adbwifiswitch/AdbController.cpp:155-169 | the handler getFH gives carries that stream |
| Controller.AdbController.WriteStdInCall | adbwifiswitch/AdbController.cpp:375-378 | writeStdIn appends the bytes to stdin's buffer and requests a write |
| Controller.AdbController.TimerCtl | adbwifiswitch/AdbController.cpp:380-385 | timerCtl changes only the timers of the call's stream, as TimerStep says |
| Controller.AdbController.PerformOne | adbwifiswitch/AdbController.cpp:375-385 | one context call: its bytes go to stdin's buffer, its timer change to the handler of its stream |
| Controller.AdbController.Perform | adbwifiswitch/AdbController.cpp:375-385 | the calls since `mark` write their bytes in order and leave the timers TimersAfter gives |
| Controller.AdbController.Cleanup | adbwifiswitch/AdbController.cpp:127-144 | afterwards nothing is left and exitCode is 1; exactly the handlers' ids leave the poller; the calls are the process cleanup's, then the handlers' closes |
| Controller.AdbController.DropHandlers | adbwifiswitch/AdbController.cpp:132-143 | every handler is unregistered, disabled and released, closing its descriptor |
| Controller.AdbController.Release | adbwifiswitch/AdbController.cpp:136-143 | one handler: removed under its id, disabled, destroyed |
| Controller.AdbController.Init | adbwifiswitch/AdbController.cpp:171-199 | succeeds iff the spawn and the three registrations do, and on an empty table iff the spawn does; on success the handlers are over adb's descriptors and stdin's is registered, alive and disabled, so the poller's table is stuck; a failed registration cleans up |
| Controller.AdbController.Spawned | adbwifiswitch/AdbController.cpp:178-198 | init after the spawn: handlers registered, or a full cleanup that leaves only old registrations; on an empty table it always succeeds, and stdin's handler is left disabled |
| Controller.AdbController.Attach | adbwifiswitch/AdbController.cpp:178-190 | new handlers over the process's descriptors; true iff all three got an id, always so on an empty table; stdin's handler is disabled |
| Controller.AdbController.NewStreams | adbwifiswitch/AdbController.cpp:178-180 | three fresh, disabled handlers over the given descriptors with empty buffers and no timers |
| Controller.AdbController.MakeStreams | adbwifiswitch/AdbController.cpp:178-188 | three fresh, disabled handlers over the given descriptors, registered as RegisterAll says |
| Controller.AdbController.Adopt | adbwifiswitch/AdbController.cpp:178-180 | the controller's three handler members become the new handlers, with no script or task |
| Controller.AdbController.RegisterAll | adbwifiswitch/AdbController.cpp:182-188 | each handler is registered only when the one before got an id; on an empty table all three get one |
| Controller.AdbController.Enroll | adbwifiswitch/AdbController.cpp:182-188 | one registration: addHandler when due, BadHandlerId otherwise |
| Controller.AdbController.Retire | adbwifiswitch/AdbController.cpp:215 | the prompt task's cleanup writes the exit command and disarms its timer |
| Controller.AdbController.Begin | adbwifiswitch/AdbController.cpp:219-226 | the new task's start arms its 10 s timer on stdin and writes nothing; stdin's enabled bit stays |
| Controller.AdbController.Advance | adbwifiswitch/AdbController.cpp:214-228 | from before the first step, the prompt task starts and stdin's enabled bit stays; moving past it fails the null-task assertion |
| Controller.AdbController.SwitchTask | adbwifiswitch/AdbController.cpp:201-229 | Fail tears everything down and gives false; Continue changes nothing; Next advances the script |
| Controller.AdbController.Offer | adbwifiswitch/AdbController.cpp:262-268 | the whole buffer goes to the task and is consumed; the first stdout prompt writes a newline and arms 3 s; the second gives Next |
| Controller.AdbController.Hand | adbwifiswitch/AdbController.cpp:264 | the task's onDataReady with its context calls carried out, with the same effects as Offer |
| Controller.AdbController.Consume | adbwifiswitch/AdbController.cpp:262-268 | the task's verdict, then switchTask: the second prompt reaches the assertion past step 0 |
| Controller.AdbController.OnReadyToRead | adbwifiswitch/AdbController.cpp:246-269 | stdin becoming readable fails and tears down; stdout and stderr read, then hand the data to the task |
| Controller.AdbController.AfterRead | adbwifiswitch/AdbController.cpp:251-268 | a read error or an empty read fails and tears down; data goes to the task |
| Controller.AdbController.OnReadyToWrite | adbwifiswitch/AdbController.cpp:271-276 | stdin drains its buffer and fails on an error; the other streams assert |
| Controller.AdbController.OnTimer | adbwifiswitch/AdbController.cpp:278-283 | the task timer on stdin fails the task and tears everything down; any other timer asserts |
| Controller.AdbController.TimeOut | adbwifiswitch/AdbController.cpp:282 | the task's onTimer gives Fail |
| Controller.AdbController.OnError | adbwifiswitch/AdbController.cpp:240-244 | an error tears everything down and gives false; exitCode is then 1 |
| Controller.AdbController.Run | adbwifiswitch/AdbController.cpp:101-117 | a failed spawn gives false and changes no registration; success leaves the prompt task running with its 10 s timer; exitCode is 1; from an empty table it succeeds iff adb is spawned, and then the poller's table is stuck |
| Controller.AdbController.Launch | adbwifiswitch/AdbController.cpp:106-107 | a new script of the mode, whose first task starts; stdin's enabled bit stays |
| Cli.FirstFold | adbwifiswitch/main.cpp:108-114 | the index of the first matching auth type, within bounds |
| Cli.FirstFoldFinds | adbwifiswitch/main.cpp:108-114 | the loop finds a match iff there is one, and what it finds matches |
| Cli.CanonicalSpelling | adbwifiswitch/main.cpp:105-119 | `-t` accepts exactly the case variants of WEP and WSA and stores the canonical spelling |
| Cli.MatchAuthType | adbwifiswitch/main.cpp:107-118 | found iff the argument is a known type; it returns its canonical spelling |
| Cli.BadAuthTypeSticks | adbwifiswitch/main.cpp:115-118 | a rejected `-t` fails the parse whatever follows |
| Cli.ParseClArgs | adbwifiswitch/main.cpp:55-165 | the option loop and the checks after it give Outcome |
| Cli.ScanAllFacts | adbwifiswitch/main.cpp:75-130 | the loop fails iff some `-t` is unknown; each flag records its options; each field holds the last value given or its default |
| Cli.ParseIff | adbwifiswitch/main.cpp:55-165 | success iff types known, no leftovers, not both modes, a connect has an SSID, and a mode or --help; the mode is Connect, else Disconnect, else Help; the configuration is built from the options |
| Cli.IgnoredScan | adbwifiswitch/main.cpp:122-128 | an unrecognised option or -v does not change the loop's result |
| Cli.IgnoredOption | adbwifiswitch/main.cpp:122-128 | removing an unrecognised option or -v leaves the parse unchanged |
| Cli.HelpKeepsMode | adbwifiswitch/main.cpp:155-157 | adding --help to a successful parse changes nothing |
| Cli.ExitStatus | adbwifiswitch/main.cpp:176-209 | a parse failure exits 1 and Help 0, each exactly then; a connect or disconnect exits 255 iff adb is not spawned, and otherwise stays in the poller's loop for ever, so exitCode() is never reached |
| Cli.Serve | adbwifiswitch/main.cpp:190-208 | a failed spawn exits 255; a successful one never leaves the poller's loop |
| Cli.Startup | adbwifiswitch/main.cpp:189-202 | a new poller and controller run the mode; true iff adb is spawned, and then the poller's table is stuck |
| Cli.Finish | adbwifiswitch/main.cpp:204-207 | exec, then exitCode(): a stuck table never leaves the loop; any exit is the controller's exitCode() |

## Left out

- I/O, the clocks and fork: the kernel and clocks are inputs, and the child's side of fork (dup2, execlp) is not modelled, because it runs in a process the parent does not observe.
- poll(): its answer is an oracle; how the kernel picks ready descriptors is outside the program.
- Poller callbacks: inside the poller, a callback is an oracle saying which enabled bit and removed ids it leaves, and a timer callback one saying which timers it stops. The controller's handlers are modelled separately, as Controller methods, and are not wired into the poller's callbacks. This keeps the two frames apart. As written the dispatch and the timer phase are never reached, because the first scan spins (Poller.FilePoller.StuckSpins).
- Poller.FilePoller.Run: the program's stdout read callback hands the chunk to the task, whose answer to the first prompt puts a newline on stdin (requesting a write) and re-arms stdin's task timer; the oracle changes no timer or write request, so that effect is stated by Controller.AdbController.OnReadyToRead, Hand and Perform instead.
- Poller.FilePoller.Gate: states the table and enabled bit under the oracle only, for the reason given for Run.
- Poller.FilePoller.DispatchEntry: the same oracle; timers and write requests that a real callback changes on another handler are not tracked.
- Poller.FilePoller.DispatchAt: the same oracle, as for DispatchEntry.
- Poller.FilePoller.Dispatch: "timers and write requests unchanged" holds only of the oracle; in the program a stdout callback arms stdin's timer and requests a write on stdin, as Controller.AdbController.Hand states.
- Poller.FilePoller.CheckOne: the timer oracle only stops timers. The program's only timer is stdin's task timer, whose callback tears everything down (Controller.AdbController.OnTimer and Cleanup): every handler is disabled and unregistered, which the contract's fixed flags and armed set do not allow.
- Poller.FilePoller.WalkStep: the same timer oracle; a teardown inside checkTimer, which makes the real walk's next upper_bound find nothing, is not modelled.
- Poller.FilePoller.WalkArmed: the armed set is held fixed under the timer oracle; in the program a teardown in the first callback empties the table and ends the walk.
- Poller.FilePoller.FireTimers: only timers change under the timer oracle; the program's timer callback also disables and unregisters every handler, as Controller.AdbController.OnTimer states.
- Compilation: the source as written would not build. FHStdOut's and FHStdErr's overrides are declared but never defined, the AdbContext member of the controller is of an abstract class, and timerCtl's conditional expression mixes a bool and a void branch (adbwifiswitch/AdbController.cpp:384). The model gives each the behaviour its declaration and surrounding code make evident.
- Poller.TimerStep: the comparison `diff < timeout` of chrono durations is on integers here; with a timeout of milliseconds::max(), chrono's common-type conversion of the two durations can overflow, and that overflow is not modelled.
- Logger and the `-v` switch: logging has no effect on state, so the loggers are left out; `-v` is parsed and ignored.
- The Java agent on the device: it is outside this program; only the command lines sent to it are modelled.
- getopt_long and the usage text: the input is the option sequence getopt returns. In the source, the long options `disconnect` and `verbose` are declared `required_argument`, which would make them consume the next word; the model treats them as switches, as the short options `-d` and `-v` are. `-h` is not in the short option string, so it is an unrecognised option.
- Threads and locking: the program is single-threaded; shared_ptr and weak_ptr reference counts are not modelled. The destruction of a handler is the `alive` flag going false.
- WaitConnectLog's and WaitDisconnectLog's onDataReady: the first has no return statement and the second is declared but never defined, so neither has a behaviour to model. No script creates these tasks, and the logcat task is modelled through LookupTag.
- The failed-start branch of switchTask is not reached: the controller's context always arms the timer, so start succeeds.
- Script steps 1 and 2 give no task; switchTask then fails its assertion, which is the outcome Aborts.
- Controller.StreamHandler.Read: the size requested once the buffer is full is ChunkSize, but readPtr's assertion fails before it is used, so Read gives ReadAborts there.
- Handlers.FileHandler.StopTimer: the C++ function is declared bool but has no return statement, so no result is modelled.
- Buffers.Buffer.Append: the C++ function returns nothing despite its declared type, so no result is modelled.
- Controller.AdbController.TimerCtl: the conversion of steady_clock durations to milliseconds is not modelled; times are integer milliseconds throughout.
- Poller.FilePoller.Exec: only the count of rounds and how the loop ends are stated; each round's effect is stated by PollHandlers.
- Controller.AdbController.Init: requires a torn-down controller, which is how main calls it (once, on a new controller).
- Controller.AdbController.TimeOut: states only the verdict; the calls it makes are the task's cleanup, stated by Tasks.Task.OnTimer and the Cleanup lemmas.
- Controller.AdbController.Run: states the first task's timer but not the other handlers' timers, which are empty on a new controller.
- Cli.Serve: states the exit, not the controller's state, because the poller rounds are inputs.
