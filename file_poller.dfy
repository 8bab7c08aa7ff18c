/**
 * The poll loop (FilePoller): a table from handler id to a non-owning
 * reference to a FileHandler, an id allocator, and one round of polling:
 * scan the table, call poll(), dispatch the ready descriptors, fire timers.
 *
 * poll() itself and the steady clock are inputs: a round is given the clock
 * readings and what poll() answers. A weak reference that no longer locks is
 * a handler whose `alive` flag is false. The callbacks a ready descriptor
 * triggers belong to the controller; here an oracle says, per callback, what
 * it leaves behind that the poller can observe (the handler's enabled bit and
 * the ids it removed from the table).
 */
module Poller {
  import opened Handlers

  type HandlerId = U32Int

  /** FilePoller::BadHandlerId, also the initial value of the counter. */
  const BadHandlerId: HandlerId := 0

  /** Event bits of struct pollfd (Linux values). */
  const POLLIN: bv16 := 0x1
  const POLLOUT: bv16 := 0x4
  const POLLERR: bv16 := 0x8

  /** std::chrono::milliseconds::max(): the timeout exec passes. */
  const MsMax: int := 0x7FFF_FFFF_FFFF_FFFF

  /** The id after `x`, wrapping at 2^32 like an unsigned int. */
  function Succ(x: HandlerId): (r: HandlerId)
    ensures r == (x + 1) % U32
  {
    if x == U32 - 1 then 0 else x + 1
  }

  /** `x` advanced `j` times. */
  function Add(x: HandlerId, j: nat): (r: HandlerId)
    ensures r == (x + j) % U32
  {
    (x + j) % U32
  }

  /** An id getNextSeq may hand out: not BadHandlerId and not registered. */
  predicate Free(x: HandlerId, keys: set<HandlerId>) {
    x != BadHandlerId && x !in keys
  }

  /**
   * What getNextSeq answers from counter value `start`: the first free id
   * after `start` in wrapping order, or `start` itself once every other id
   * has been tried.
   */
  predicate FirstFreeAfter(start: HandlerId, keys: set<HandlerId>, r: HandlerId) {
    exists d :: 1 <= d <= U32 && r == Add(start, d) &&
      (forall j :: 0 < j < d ==> !Free(Add(start, j), keys)) &&
      (d == U32 || Free(r, keys))
  }

  /** The answer is determined: two ids that both fit the description are equal. */
  lemma {:induction false} FirstFreeUnique(start: HandlerId, keys: set<HandlerId>, r1: HandlerId, r2: HandlerId)
    requires FirstFreeAfter(start, keys, r1) && FirstFreeAfter(start, keys, r2)
    ensures r1 == r2
  {
    var d1 :| 1 <= d1 <= U32 && r1 == Add(start, d1) &&
      (forall j :: 0 < j < d1 ==> !Free(Add(start, j), keys)) && (d1 == U32 || Free(r1, keys));
    var d2 :| 1 <= d2 <= U32 && r2 == Add(start, d2) &&
      (forall j :: 0 < j < d2 ==> !Free(Add(start, j), keys)) && (d2 == U32 || Free(r2, keys));
    if d1 < d2 {
      assert d1 < U32;
    } else if d2 < d1 {
      assert d2 < U32;
    }
  }

  /** The counter starts at BadHandlerId, so on an empty table the first id handed out is 1. */
  lemma FirstIdIsOne(r: HandlerId)
    requires FirstFreeAfter(BadHandlerId, {}, r)
    ensures r == 1
  {
    assert FirstFreeAfter(BadHandlerId, {}, 1) by {
      assert Add(BadHandlerId, 1) == 1 && Free(1, {});
    }
    FirstFreeUnique(BadHandlerId, {}, r, 1);
  }

  /** When some id other than the start value is free, the answer is a free id. */
  lemma FreeWhenRoom(start: HandlerId, keys: set<HandlerId>, r: HandlerId, x: HandlerId)
    requires FirstFreeAfter(start, keys, r)
    requires x != start && Free(x, keys)
    ensures Free(r, keys)
  {
    var d :| 1 <= d <= U32 && r == Add(start, d) &&
      (forall j :: 0 < j < d ==> !Free(Add(start, j), keys)) && (d == U32 || Free(r, keys));
    StepsTo(start, x);
  }

  /** Every id other than `start` is reached from `start` in fewer than 2^32 wrapping steps. */
  lemma StepsTo(start: HandlerId, x: HandlerId)
    ensures x != start ==> 0 < (x - start) % U32 < U32 && Add(start, (x - start) % U32) == x
  {
  }

  /**
   * The probing loop of getNextSeq: advance from `start` (with wrap-around)
   * while the id is BadHandlerId or registered, and stop on coming back to
   * `start`.
   */
  method NextSeqFrom(start: HandlerId, keys: set<HandlerId>) returns (r: HandlerId)
    ensures FirstFreeAfter(start, keys, r)
    ensures r == start || Free(r, keys)
  {
    r := Succ(start);
    ghost var d: nat := 1;
    while (r == BadHandlerId || r in keys) && r != start
      invariant 1 <= d <= U32 && r == Add(start, d)
      invariant forall j :: 0 < j < d ==> !Free(Add(start, j), keys)
      invariant d == U32 ==> r == start
      decreases U32 - d
    {
      r := Succ(r);
      d := d + 1;
    }
  }

  datatype PollFd = PollFd(fd: int, events: bv16, revents: bv16)

  /** What the scan reads from one handler. */
  datatype View = View(alive: bool, enabled: bool, writeRequired: bool, fd: int, closest: Time)

  /**
   * The running state of the scan: the reused pollfd and id vectors, how many
   * entries this round has written, the timeout, the timer candidate
   * (firstTimer, moreTimers), and two records that are not variables of the
   * source: the ids marked as timer candidates, in order, and the ids whose
   * registration was erased.
   */
  datatype ScanState = ScanState(
    pfd: seq<PollFd>, ind: seq<HandlerId>, count: nat, timeout: int,
    first: HandlerId, more: bool, marked: seq<HandlerId>, pruned: set<HandlerId>)

  /**
   * The scan either completes, or reaches a live handler that is disabled:
   * there it `continue`s without advancing the iterator and nothing it reads
   * changes again, so it stays on that entry for ever.
   */
  datatype Scan = Spins(at: HandlerId, prunedBefore: set<HandlerId>) | Done(st: ScanState)

  /** The state before the first entry: the equalised vectors, no entry written yet, no candidate. */
  function ScanStart(pfd: seq<PollFd>, ind: seq<HandlerId>, timeout: int): (st: ScanState)
    ensures |st.pfd| == |st.ind| == (if |pfd| < |ind| then |pfd| else |ind|)
    ensures st.pfd == pfd[..|st.pfd|] && st.ind == ind[..|st.ind|]
  {
    var n := if |pfd| < |ind| then |pfd| else |ind|;
    ScanState(pfd[..n], ind[..n], 0, timeout, BadHandlerId, false, [], {})
  }

  /** The events asked for: always POLLIN|POLLERR, and POLLOUT when a write is requested. */
  function Events(writeRequired: bool): (e: bv16)
    ensures e & POLLIN == POLLIN && e & POLLERR == POLLERR
    ensures (e & POLLOUT == POLLOUT) <==> writeRequired
  {
    POLLIN | POLLERR | (if writeRequired then POLLOUT else 0)
  }

  /**
   * Writing entry `k` of a reused vector: overwrite when it already has that
   * entry, push_back otherwise. (The source compares the count with the size
   * the vector had before the scan; the two tests agree because entries are
   * written in order from 0.)
   */
  function Place<T>(s: seq<T>, k: nat, x: T): (r: seq<T>)
    requires k <= |s|
    ensures |r| == if k < |s| then |s| else k + 1
    ensures r[k] == x && r[..k] == s[..k] && (k < |s| ==> r[k + 1..] == s[k + 1..])
  {
    if k < |s| then s[k := x] else s + [x]
  }

  /** Records `id` as the newest timer candidate. */
  function Mark(st: ScanState, id: HandlerId): ScanState {
    st.(more := st.first != BadHandlerId, first := id, marked := st.marked + [id])
  }

  /**
   * The timer part of the scan for one handler whose earliest deadline is
   * `closest`. A due deadline forces the timeout to zero. A later one is
   * considered only while the timeout is not zero, and its difference is
   * computed as now - deadline, which is negative.
   */
  function TimerStep(st: ScanState, id: HandlerId, closest: Time, now: Time): (r: ScanState)
    ensures r.pfd == st.pfd && r.ind == st.ind && r.count == st.count && r.pruned == st.pruned
    ensures (st.timeout <= 0 ==> r.timeout <= 0) && (st.timeout == 0 ==> r.timeout == 0)
    ensures closest != TimeMax && closest <= now ==> r.timeout == 0
    ensures closest != TimeMax ==> r.timeout <= 0
    ensures r.marked == st.marked || r.marked == st.marked + [id]
    ensures id != BadHandlerId && CandidatesAgree(st) ==> CandidatesAgree(r)
  {
    if closest == TimeMax then st
    else if closest <= now then Mark(st.(timeout := 0), id)
    else if st.timeout != 0 && now - closest < st.timeout then Mark(st.(timeout := now - closest), id)
    else st
  }

  /** One entry of the table. */
  function ScanStep(st: ScanState, id: HandlerId, v: View, now: Time): (r: Scan)
    requires st.count <= |st.pfd| == |st.ind|
    ensures r.Done? ==> r.st.count <= |r.st.pfd| == |r.st.ind|
    ensures r.Spins? <==> v.alive && !v.enabled
    ensures r.Spins? ==> r == Spins(id, st.pruned)
    ensures r.Done? ==> r.st.count == st.count + (if v.alive then 1 else 0)
    ensures r.Done? ==> r.st.ind == if v.alive then Place(st.ind, st.count, id) else st.ind
    ensures r.Done? ==> r.st.pfd == if v.alive then Place(st.pfd, st.count, PollFd(v.fd, Events(v.writeRequired), 0)) else st.pfd
    ensures r.Done? ==> r.st.pruned == if v.alive then st.pruned else st.pruned + {id}
    ensures r.Done? ==> (st.timeout <= 0 ==> r.st.timeout <= 0) && (st.timeout == 0 ==> r.st.timeout == 0)
    ensures r.Done? && v.alive && v.closest != TimeMax && v.closest <= now ==> r.st.timeout == 0
    ensures r.Done? && v.alive && v.closest != TimeMax ==> r.st.timeout <= 0
    ensures r.Done? ==> r.st.marked == st.marked || (v.alive && v.enabled && r.st.marked == st.marked + [id])
    ensures r.Done? && id != BadHandlerId && CandidatesAgree(st) ==> CandidatesAgree(r.st)
  {
    if !v.alive then Done(st.(pruned := st.pruned + {id}))
    else if !v.enabled then Spins(id, st.pruned)
    else
      var e := PollFd(v.fd, Events(v.writeRequired), 0);
      var placed := st.(pfd := Place(st.pfd, st.count, e), ind := Place(st.ind, st.count, id), count := st.count + 1);
      Done(TimerStep(placed, id, v.closest, now))
  }

  /** The scan over the registered ids in table order, reading each handler's view. */
  function ScanAll(st: ScanState, ids: seq<HandlerId>, views: map<HandlerId, View>, now: Time): (r: Scan)
    requires st.count <= |st.pfd| == |st.ind|
    requires forall id :: id in ids ==> id in views
    ensures r.Done? ==> r.st.count <= |r.st.pfd| == |r.st.ind|
    decreases |ids|
  {
    if ids == [] then Done(st)
    else
      match ScanStep(st, ids[0], views[ids[0]], now)
      case Spins(a, p) => Spins(a, p)
      case Done(next) => ScanAll(next, ids[1..], views, now)
  }

  /** The ids of live, enabled handlers, in table order: those that get a poll entry. */
  function Polled(ids: seq<HandlerId>, views: map<HandlerId, View>): (r: seq<HandlerId>)
    requires forall id :: id in ids ==> id in views
    ensures forall id :: id in r ==> id in ids && views[id].alive && views[id].enabled
    ensures |r| <= |ids|
  {
    if ids == [] then []
    else (if views[ids[0]].alive && views[ids[0]].enabled then [ids[0]] else []) + Polled(ids[1..], views)
  }

  /** The ids whose handler no longer exists. */
  function Expired(ids: seq<HandlerId>, views: map<HandlerId, View>): (r: set<HandlerId>)
    requires forall id :: id in ids ==> id in views
    ensures forall id :: id in r <==> id in ids && !views[id].alive
  {
    set id | id in ids && !views[id].alive
  }

  /** Some registered handler is live but disabled. */
  predicate HasLiveDisabled(ids: seq<HandlerId>, views: map<HandlerId, View>)
    requires forall id :: id in ids ==> id in views
  {
    exists k :: 0 <= k < |ids| && views[ids[k]].alive && !views[ids[k]].enabled
  }

  /**
   * The scan completes exactly when no registered handler is live and
   * disabled; otherwise it stops for ever at the first such entry, after
   * erasing the expired entries before it.
   */
  lemma {:induction false} ScanSpinsIff(st: ScanState, ids: seq<HandlerId>, views: map<HandlerId, View>, now: Time)
    requires st.count <= |st.pfd| == |st.ind|
    requires forall id :: id in ids ==> id in views
    ensures ScanAll(st, ids, views, now).Spins? <==> HasLiveDisabled(ids, views)
    ensures ScanAll(st, ids, views, now).Spins? ==>
      var a := ScanAll(st, ids, views, now).at;
      a in ids && views[a].alive && !views[a].enabled
    decreases |ids|
  {
    if ids != [] {
      var v := views[ids[0]];
      if !v.alive || v.enabled {
        var next := ScanStep(st, ids[0], v, now).st;
        ScanSpinsIff(next, ids[1..], views, now);
        if HasLiveDisabled(ids, views) {
          var k :| 0 <= k < |ids| && views[ids[k]].alive && !views[ids[k]].enabled;
          assert k > 0 && ids[1..][k - 1] == ids[k];
        }
        if HasLiveDisabled(ids[1..], views) {
          var k :| 0 <= k < |ids[1..]| && views[ids[1..][k]].alive && !views[ids[1..][k]].enabled;
          assert ids[1..][k] == ids[k + 1];
        }
      } else {
        assert views[ids[0]].alive && !views[ids[0]].enabled;
      }
    }
  }

  /** A completed scan writes one id per live enabled handler, in table order, from position `count` on. */
  lemma {:induction false} ScanIds(st: ScanState, ids: seq<HandlerId>, views: map<HandlerId, View>, now: Time)
    requires st.count <= |st.pfd| == |st.ind|
    requires forall id :: id in ids ==> id in views
    ensures ScanAll(st, ids, views, now).Done? ==>
      var r := ScanAll(st, ids, views, now).st;
      r.count == st.count + |Polled(ids, views)| &&
      r.ind[..r.count] == st.ind[..st.count] + Polled(ids, views) &&
      (r.count < |st.ind| ==> r.ind[r.count..] == st.ind[r.count..])
    decreases |ids|
  {
    if ids != [] && ScanAll(st, ids, views, now).Done? {
      var v := views[ids[0]];
      var next := ScanStep(st, ids[0], v, now).st;
      assert ScanAll(st, ids, views, now) == ScanAll(next, ids[1..], views, now);
      ScanIds(next, ids[1..], views, now);
      var r := ScanAll(next, ids[1..], views, now).st;
      var rest := Polled(ids[1..], views);
      if v.alive {
        assert Polled(ids, views) == [ids[0]] + rest;
        PlacedPrefix(st.ind, st.count, ids[0], r.count);
        ConcatAssoc(st.ind[..st.count], [ids[0]], rest);
      } else {
        assert Polled(ids, views) == rest;
      }
    }
  }

  /** Placing `x` at `k` extends the prefix before `k` by `x` and keeps what lies past `k`. */
  lemma PlacedPrefix<T>(s: seq<T>, k: nat, x: T, c: nat)
    requires k <= |s| && k < c
    ensures Place(s, k, x)[..k + 1] == s[..k] + [x]
    ensures c < |s| ==> Place(s, k, x)[c..] == s[c..]
  {
    var r := Place(s, k, x);
    assert r[..k + 1] == r[..k] + [r[k]];
    if c < |s| {
      assert r[c..] == r[k + 1..][c - k - 1..];
      assert s[c..] == s[k + 1..][c - k - 1..];
    }
  }

  /**
   * The pollfd entries a completed scan writes: for each position it fills,
   * the descriptor of the handler whose id it wrote there, with
   * POLLIN|POLLERR and POLLOUT when that handler requests a write. Entries
   * before and after are left as they were; the vector only grows when the
   * handlers outnumber its entries.
   */
  lemma {:induction false} ScanPollFds(st: ScanState, ids: seq<HandlerId>, views: map<HandlerId, View>, now: Time)
    requires st.count <= |st.pfd| == |st.ind|
    requires forall id :: id in ids ==> id in views
    requires forall k :: 0 <= k < st.count ==> st.ind[k] in views
    requires forall k :: 0 <= k < st.count ==> st.pfd[k] == PollFd(views[st.ind[k]].fd, Events(views[st.ind[k]].writeRequired), 0)
    ensures ScanAll(st, ids, views, now).Done? ==>
      var r := ScanAll(st, ids, views, now).st;
      (forall k :: 0 <= k < r.count ==> (r.ind[k] in views &&
        r.pfd[k] == PollFd(views[r.ind[k]].fd, Events(views[r.ind[k]].writeRequired), 0))) &&
      |r.pfd| == (if r.count < |st.pfd| then |st.pfd| else r.count) &&
      (r.count < |st.pfd| ==> r.pfd[r.count..] == st.pfd[r.count..])
    decreases |ids|
  {
    if ids != [] {
      var v := views[ids[0]];
      var step := ScanStep(st, ids[0], v, now);
      if step.Done? {
        var next := step.st;
        if v.alive {
          assert next.ind[st.count] == ids[0];
          forall k | 0 <= k < next.count
            ensures next.ind[k] in views && next.pfd[k] == PollFd(views[next.ind[k]].fd, Events(views[next.ind[k]].writeRequired), 0)
          {
            if k < st.count {
              assert next.ind[k] == st.ind[k] && next.pfd[k] == st.pfd[k];
            }
          }
        }
        ScanPollFds(next, ids[1..], views, now);
        if ScanAll(st, ids, views, now).Done? {
          assert ScanAll(st, ids, views, now) == ScanAll(next, ids[1..], views, now);
          var r := ScanAll(next, ids[1..], views, now).st;
          ScanIds(next, ids[1..], views, now);
          assert |next.pfd| == (if next.count < |st.pfd| then |st.pfd| else next.count);
          if r.count < |st.pfd| {
            assert next.pfd[r.count..] == st.pfd[r.count..];
          }
        }
      }
    }
  }

  /** A completed scan erases exactly the registrations whose handler has expired. */
  lemma {:induction false} ScanPrunes(st: ScanState, ids: seq<HandlerId>, views: map<HandlerId, View>, now: Time)
    requires st.count <= |st.pfd| == |st.ind|
    requires forall id :: id in ids ==> id in views
    ensures ScanAll(st, ids, views, now).Done? ==>
      ScanAll(st, ids, views, now).st.pruned == st.pruned + Expired(ids, views)
    decreases |ids|
  {
    if ids != [] {
      var v := views[ids[0]];
      var step := ScanStep(st, ids[0], v, now);
      if step.Done? {
        ScanPrunes(step.st, ids[1..], views, now);
        assert Expired(ids, views) == (if v.alive then {} else {ids[0]}) + Expired(ids[1..], views);
      }
    }
  }

  /** The handlers that get a poll entry and have a pending timer. */
  predicate HasPending(ids: seq<HandlerId>, views: map<HandlerId, View>, due: bool, now: Time)
    requires forall id :: id in ids ==> id in views
  {
    exists k :: 0 <= k < |ids| && views[ids[k]].alive && views[ids[k]].enabled &&
      views[ids[k]].closest != TimeMax && (due ==> views[ids[k]].closest <= now)
  }

  /** Once the timeout is zero it stays zero, and once it is at most zero it stays so, to the end of the scan. */
  lemma {:induction false} ScanTimeoutStays(st: ScanState, ids: seq<HandlerId>, views: map<HandlerId, View>, now: Time)
    requires st.count <= |st.pfd| == |st.ind|
    requires forall id :: id in ids ==> id in views
    ensures ScanAll(st, ids, views, now).Done? && st.timeout <= 0 ==> ScanAll(st, ids, views, now).st.timeout <= 0
    ensures ScanAll(st, ids, views, now).Done? && st.timeout == 0 ==> ScanAll(st, ids, views, now).st.timeout == 0
    decreases |ids|
  {
    if ids != [] && ScanAll(st, ids, views, now).Done? {
      var next := ScanStep(st, ids[0], views[ids[0]], now).st;
      ScanTimeoutStays(next, ids[1..], views, now);
    }
  }

  /** A polled handler whose earliest deadline has passed forces the poll timeout to zero. */
  lemma {:induction false} DueTimerZeroesTimeout(st: ScanState, ids: seq<HandlerId>, views: map<HandlerId, View>, now: Time)
    requires st.count <= |st.pfd| == |st.ind|
    requires forall id :: id in ids ==> id in views
    requires HasPending(ids, views, true, now)
    ensures ScanAll(st, ids, views, now).Done? ==> ScanAll(st, ids, views, now).st.timeout == 0
    decreases |ids|
  {
    var k :| 0 <= k < |ids| && views[ids[k]].alive && views[ids[k]].enabled &&
      views[ids[k]].closest != TimeMax && views[ids[k]].closest <= now;
    if ScanAll(st, ids, views, now).Done? {
      var next := ScanStep(st, ids[0], views[ids[0]], now).st;
      if k == 0 {
        assert next.timeout == 0;
        ScanTimeoutStays(next, ids[1..], views, now);
      } else {
        assert ids[1..][k - 1] == ids[k];
        DueTimerZeroesTimeout(next, ids[1..], views, now);
      }
    }
  }

  /**
   * Any polled handler with a pending timer leaves the timeout at zero or
   * below, whatever it started as: a due deadline gives zero, and a later one
   * yields now - deadline, a negative duration.
   */
  lemma {:induction false} PendingTimerNonPositive(st: ScanState, ids: seq<HandlerId>, views: map<HandlerId, View>, now: Time)
    requires st.count <= |st.pfd| == |st.ind|
    requires forall id :: id in ids ==> id in views
    requires HasPending(ids, views, false, now)
    ensures ScanAll(st, ids, views, now).Done? ==> ScanAll(st, ids, views, now).st.timeout <= 0
    decreases |ids|
  {
    var k :| 0 <= k < |ids| && views[ids[k]].alive && views[ids[k]].enabled && views[ids[k]].closest != TimeMax;
    if ScanAll(st, ids, views, now).Done? {
      var next := ScanStep(st, ids[0], views[ids[0]], now).st;
      ScanTimeoutStays(next, ids[1..], views, now);
      if k == 0 {
      } else {
        assert ids[1..][k - 1] == ids[k];
        PendingTimerNonPositive(next, ids[1..], views, now);
      }
    }
  }

  /** The single handler of exec's first round with a deadline still ahead: the timeout becomes negative. */
  lemma FutureDeadlineGivesNegativeTimeout(id: HandlerId, v: View, now: Time)
    requires id != BadHandlerId && v.alive && v.enabled && now < v.closest < TimeMax
    ensures var r := ScanAll(ScanStart([], [], MsMax), [id], map[id := v], now);
      r.Done? && r.st.timeout == now - v.closest < 0 && r.st.first == id && !r.st.more
  {
    var st := ScanStart([], [], MsMax);
    var next := ScanStep(st, id, v, now).st;
    assert next.timeout == now - v.closest;
    assert ScanAll(st, [id], map[id := v], now) == ScanAll(next, [], map[id := v], now);
  }

  /** How firstTimer and moreTimers relate to the candidates marked so far. */
  predicate CandidatesAgree(st: ScanState) {
    (st.more <==> |st.marked| >= 2) &&
    (st.marked == [] ==> st.first == BadHandlerId) &&
    (st.marked != [] ==> st.first == st.marked[|st.marked| - 1] != BadHandlerId)
  }

  /**
   * Over registered (hence non-zero) ids, firstTimer ends as the last
   * candidate marked and moreTimers is true exactly when at least two
   * handlers were marked.
   */
  lemma {:induction false} CandidatesCounted(st: ScanState, ids: seq<HandlerId>, views: map<HandlerId, View>, now: Time)
    requires st.count <= |st.pfd| == |st.ind|
    requires forall id :: id in ids ==> id in views && id != BadHandlerId
    requires CandidatesAgree(st)
    ensures ScanAll(st, ids, views, now).Done? ==> CandidatesAgree(ScanAll(st, ids, views, now).st)
    decreases |ids|
  {
    if ids != [] && ScanAll(st, ids, views, now).Done? {
      var next := ScanStep(st, ids[0], views[ids[0]], now).st;
      CandidatesCounted(next, ids[1..], views, now);
    }
  }

  /** The scan from entry `i` of a list: one step, then the scan from entry `i + 1`. */
  lemma ScanAllFrom(st: ScanState, ids: seq<HandlerId>, i: nat, views: map<HandlerId, View>, now: Time)
    requires st.count <= |st.pfd| == |st.ind|
    requires forall x :: x in ids ==> x in views
    requires i < |ids|
    ensures var step := ScanStep(st, ids[i], views[ids[i]], now);
      ScanAll(st, ids[i..], views, now) == if step.Spins? then step else ScanAll(step.st, ids[i + 1..], views, now)
  {
    assert ids[i..][0] == ids[i] && ids[i..][1..] == ids[i + 1..];
  }

  /** Erasing a set of keys and then the keys of a larger set erases the larger set. */
  lemma EraseMore<K, V>(m: map<K, V>, a: set<K>, b: set<K>)
    requires a <= b
    ensures m - a - (b - a) == m - b
  {
  }

  /** The least id of a non-empty set. */
  ghost function Least(s: set<HandlerId>): (m: HandlerId)
    requires s != {}
    ensures m in s && forall k :: k in s ==> m <= k
    decreases |s|
  {
    var x :| x in s;
    var rest := s - {x};
    if rest == {} then
      assert forall k :: k in s ==> k == x by {
        forall k | k in s ensures k == x {
          assert k == x || k in rest;
        }
      }
      x
    else
      var m := Least(rest);
      assert forall k :: k in s ==> k == x || k in rest;
      if x < m then x else m
  }

  /** The ids of `s` in increasing order, least first. */
  ghost function SortedKeys(s: set<HandlerId>): (r: seq<HandlerId>)
    ensures forall id :: id in r ==> id in s
    decreases |s|
  {
    if s == {} then [] else [Least(s)] + SortedKeys(s - {Least(s)})
  }

  /** `order` lists the ids of `s` in increasing order. */
  ghost predicate Enumerates(order: seq<HandlerId>, s: set<HandlerId>) {
    (forall i, j :: 0 <= i < j < |order| ==> order[i] < order[j]) &&
    (forall id :: id in order <==> id in s)
  }

  /** SortedKeys lists exactly the ids of its set, in strictly increasing order. */
  lemma SortedKeysEnumerate(s: set<HandlerId>)
    ensures Enumerates(SortedKeys(s), s)
  {
    SortedKeysMembers(s);
    SortedKeysOrdered(s);
  }

  /** SortedKeys lists every id of its set. */
  lemma {:induction false} SortedKeysMembers(s: set<HandlerId>)
    ensures forall id :: id in SortedKeys(s) <==> id in s
    decreases |s|
  {
    if s != {} {
      var m := Least(s);
      SortedKeysMembers(s - {m});
      assert SortedKeys(s) == [m] + SortedKeys(s - {m});
    }
  }

  /** SortedKeys lists its ids in strictly increasing order. */
  lemma {:induction false} SortedKeysOrdered(s: set<HandlerId>)
    ensures forall i, j :: 0 <= i < j < |SortedKeys(s)| ==> SortedKeys(s)[i] < SortedKeys(s)[j]
    decreases |s|
  {
    if s != {} {
      var m := Least(s);
      var r := SortedKeys(s - {m});
      SortedKeysOrdered(s - {m});
      assert SortedKeys(s) == [m] + r;
      PrependLeast(m, r, s - {m});
    }
  }

  /** An id below every id of an increasing listing, put in front of it, keeps it increasing. */
  lemma PrependLeast(m: HandlerId, r: seq<HandlerId>, rest: set<HandlerId>)
    requires forall i, j :: 0 <= i < j < |r| ==> r[i] < r[j]
    requires forall id :: id in r ==> id in rest
    requires forall x :: x in rest ==> m < x
    ensures forall i, j :: 0 <= i < j < |[m] + r| ==> ([m] + r)[i] < ([m] + r)[j]
  {
    var k := [m] + r;
    forall i, j | 0 <= i < j < |k| ensures k[i] < k[j] {
      assert k[j] == r[j - 1] && r[j - 1] in rest;
      if i > 0 {
        assert k[i] == r[i - 1];
      }
    }
  }

  /** No id is listed twice. */
  lemma SortedKeysDistinct(s: set<HandlerId>, i: nat)
    requires i < |SortedKeys(s)|
    ensures forall k :: i < k < |SortedKeys(s)| ==> SortedKeys(s)[k] != SortedKeys(s)[i]
  {
    SortedKeysEnumerate(s);
  }

  /** The callbacks the poller can make on a ready handler, in the order it tries them. */
  datatype Callback = ReadyToRead | Error | ReadyToWrite

  /**
   * What a callback leaves behind that the poller observes: whether its
   * handler is still enabled, and the ids it removed from the table (a
   * controller that tears down removes all of them).
   */
  datatype Effect = Effect(enabled: bool, removed: set<HandlerId>)

  /** The revents bit that triggers a callback. */
  function Trigger(cb: Callback): bv16 {
    match cb
    case ReadyToRead => POLLIN
    case Error => POLLERR
    case ReadyToWrite => POLLOUT
  }

  /** poll() reported the event that triggers `cb`: its revents bit is set. */
  predicate Fires(rev: bv16, cb: Callback) {
    rev & Trigger(cb) != 0
  }

  /**
   * The gated callbacks for one ready descriptor: each callback of `cbs` in
   * turn runs when its bit is set and the handler is enabled at that point,
   * and the handler's enabled bit is then whatever the callback left.
   * Result: the callbacks made, the final enabled bit, the ids removed.
   */
  function Gated(id: HandlerId, rev: bv16, en: bool, cbs: seq<Callback>, after: (HandlerId, Callback) -> Effect): (r: (seq<Callback>, bool, set<HandlerId>))
    ensures |r.0| <= |cbs|
    ensures !en ==> r == ([], en, {})
    decreases |cbs|
  {
    if cbs == [] then ([], en, {})
    else if en && Fires(rev, cbs[0]) then
      var e := after(id, cbs[0]);
      var rest := Gated(id, rev, e.enabled, cbs[1..], after);
      ([cbs[0]] + rest.0, rest.1, e.removed + rest.2)
    else Gated(id, rev, en, cbs[1..], after)
  }

  /** Only callbacks of the list whose bit is set are made. */
  lemma {:induction false} GatedTriggers(id: HandlerId, rev: bv16, en: bool, cbs: seq<Callback>, after: (HandlerId, Callback) -> Effect)
    ensures forall c :: c in Gated(id, rev, en, cbs, after).0 ==> c in cbs && Fires(rev, c)
    decreases |cbs|
  {
    if cbs != [] {
      if en && Fires(rev, cbs[0]) {
        GatedTriggers(id, rev, after(id, cbs[0]).enabled, cbs[1..], after);
      } else {
        GatedTriggers(id, rev, en, cbs[1..], after);
      }
    }
  }

  /** Read, then error, then write. */
  const DispatchOrder: seq<Callback> := [ReadyToRead, Error, ReadyToWrite]

  /**
   * The dispatch rule for one ready descriptor: a callback runs exactly when
   * its bit is set and the handler is enabled after the callbacks before it
   * (enabled at the start for the read callback), and the callbacks come in
   * the order read, error, write. The final enabled bit is what the last
   * callback left, and the removed ids are those of the callbacks that ran.
   */
  lemma DispatchRule(id: HandlerId, rev: bv16, en: bool, after: (HandlerId, Callback) -> Effect)
    ensures var g := Gated(id, rev, en, DispatchOrder, after);
      var readRuns := en && Fires(rev, ReadyToRead);
      var en1 := if readRuns then after(id, ReadyToRead).enabled else en;
      var errorRuns := en1 && Fires(rev, Error);
      var en2 := if errorRuns then after(id, Error).enabled else en1;
      var writeRuns := en2 && Fires(rev, ReadyToWrite);
      var en3 := if writeRuns then after(id, ReadyToWrite).enabled else en2;
      g.0 == (if readRuns then [ReadyToRead] else []) + (if errorRuns then [Error] else []) + (if writeRuns then [ReadyToWrite] else []) &&
      g.1 == en3 &&
      g.2 == (if readRuns then after(id, ReadyToRead).removed else {}) + (if errorRuns then after(id, Error).removed else {}) +
             (if writeRuns then after(id, ReadyToWrite).removed else {})
  {
    var o1: seq<Callback> := [Error, ReadyToWrite];
    assert DispatchOrder == [ReadyToRead] + o1 && o1 == [Error] + [ReadyToWrite];
    var readRuns := en && Fires(rev, ReadyToRead);
    var en1 := if readRuns then after(id, ReadyToRead).enabled else en;
    var errorRuns := en1 && Fires(rev, Error);
    var en2 := if errorRuns then after(id, Error).enabled else en1;
    var writeRuns := en2 && Fires(rev, ReadyToWrite);
    var c := if writeRuns then [ReadyToWrite] else [];
    var rc := if writeRuns then after(id, ReadyToWrite).removed else {};
    GatedLast(id, rev, en2, ReadyToWrite, after);
    var g2 := Gated(id, rev, en2, [ReadyToWrite], after);
    GatedPrefix(id, rev, en1, Error, [ReadyToWrite], after, g2.0, g2.1, g2.2);
    var g1 := Gated(id, rev, en1, o1, after);
    GatedPrefix(id, rev, en, ReadyToRead, o1, after, g1.0, g1.1, g1.2);
    var a, b := if readRuns then [ReadyToRead] else [], if errorRuns then [Error] else [];
    var ra, rb := if readRuns then after(id, ReadyToRead).removed else {}, if errorRuns then after(id, Error).removed else {};
    ConcatAssoc(a, b, c);
    UnionAssoc(ra, rb, rc);
  }

  /** Gated on one callback: it runs when due, and then decides the enabled bit. */
  lemma GatedLast(id: HandlerId, rev: bv16, en: bool, c: Callback, after: (HandlerId, Callback) -> Effect)
    ensures var due := en && Fires(rev, c);
      Gated(id, rev, en, [c], after) ==
        (if due then [c] else [], if due then after(id, c).enabled else en, if due then after(id, c).removed else {})
  {
    assert [c][1..] == [];
    if en && Fires(rev, c) {
      assert [c] + [] == [c] && after(id, c).removed + {} == after(id, c).removed;
    }
  }

  /**
   * Gated on a callback followed by more: the head's call when due, then
   * what the rest makes from the enabled bit it leaves.
   */
  lemma GatedPrefix(id: HandlerId, rev: bv16, en: bool, c: Callback, rest: seq<Callback>, after: (HandlerId, Callback) -> Effect,
                    made: seq<Callback>, last: bool, removed: set<HandlerId>)
    requires var due := en && Fires(rev, c);
      Gated(id, rev, if due then after(id, c).enabled else en, rest, after) == (made, last, removed)
    ensures var due := en && Fires(rev, c);
      Gated(id, rev, en, [c] + rest, after) ==
        ((if due then [c] else []) + made, last, (if due then after(id, c).removed else {}) + removed)
  {
    assert ([c] + rest)[1..] == rest;
    if !(en && Fires(rev, c)) {
      assert [] + made == made && {} + removed == removed;
    }
  }

  lemma ConcatAssoc<T>(a: seq<T>, b: seq<T>, c: seq<T>)
    ensures a + (b + c) == (a + b) + c
  {
  }

  lemma UnionAssoc<T>(a: set<T>, b: set<T>, c: set<T>)
    ensures a + (b + c) == (a + b) + c
  {
  }

  /** Erasing two sets of keys one after the other erases their union. */
  lemma EraseTwice<K, V>(m: map<K, V>, a: set<K>, b: set<K>)
    ensures m - a - b == m - (a + b)
  {
  }

  /** The callbacks made on one handler, each paired with its id. */
  function Tagged(id: HandlerId, cbs: seq<Callback>): (r: seq<(HandlerId, Callback)>)
    ensures |r| == |cbs| && forall k :: 0 <= k < |cbs| ==> r[k] == (id, cbs[k])
  {
    seq(|cbs|, k requires 0 <= k < |cbs| => (id, cbs[k]))
  }

  /** The revents field of every entry. */
  function Revents(pfd: seq<PollFd>): (r: seq<bv16>)
    ensures |r| == |pfd| && forall k :: 0 <= k < |pfd| ==> r[k] == pfd[k].revents
  {
    seq(|pfd|, k requires 0 <= k < |pfd| => pfd[k].revents)
  }

  /** The revents poll() reported for entry `i` (none beyond what it answered). */
  function Revent(revs: seq<bv16>, i: nat): bv16 {
    if i < |revs| then revs[i] else 0
  }

  /**
   * The dispatch over the first `count` entries from entry `i` on, against
   * the table as it is when each entry is reached (callbacks may remove ids),
   * the set of handlers still alive, and the enabled bit of each handler
   * object. Result: the (id, callback) pairs in order, the final table, the
   * final enabled bits.
   */
  function DispatchFrom(i: nat, count: nat, ind: seq<HandlerId>, revs: seq<bv16>,
                        table: map<HandlerId, FileHandler>, live: set<FileHandler>, en: map<FileHandler, bool>,
                        after: (HandlerId, Callback) -> Effect): (r: (seq<(HandlerId, Callback)>, map<HandlerId, FileHandler>, map<FileHandler, bool>))
    requires count <= |ind|
    requires forall id :: id in table ==> table[id] in en
    ensures forall id :: id in r.1 ==> id in table && r.1[id] == table[id]
    ensures r.2.Keys == en.Keys
    decreases count - i
  {
    if i >= count then ([], table, en)
    else
      var id := ind[i];
      var rev := Revent(revs, i);
      if rev == 0 || id !in table || table[id] !in live then
        DispatchFrom(i + 1, count, ind, revs, table, live, en, after)
      else
        var h := table[id];
        var d := Gated(id, rev, en[h], DispatchOrder, after);
        var en2 := if d.0 == [] then en else en[h := d.1];
        var rest := DispatchFrom(i + 1, count, ind, revs, table - d.2, live, en2, after);
        (Tagged(id, d.0) + rest.0, rest.1, rest.2)
  }

  /**
   * Only a registered, live handler whose entry reported events gets
   * callbacks: every pair of the dispatch names the id written at some
   * ready entry, still registered when that entry is reached.
   */
  lemma {:induction false} DispatchOnlyReady(i: nat, count: nat, ind: seq<HandlerId>, revs: seq<bv16>,
                        table: map<HandlerId, FileHandler>, live: set<FileHandler>, en: map<FileHandler, bool>,
                        after: (HandlerId, Callback) -> Effect)
    requires count <= |ind|
    requires forall id :: id in table ==> table[id] in en
    ensures forall p :: p in DispatchFrom(i, count, ind, revs, table, live, en, after).0 ==>
      p.0 in table && table[p.0] in live &&
      exists k :: i <= k < count && ind[k] == p.0 && Fires(Revent(revs, k), p.1)
    decreases count - i
  {
    if i < count {
      var id := ind[i];
      var rev := Revent(revs, i);
      if rev == 0 || id !in table || table[id] !in live {
        DispatchOnlyReady(i + 1, count, ind, revs, table, live, en, after);
      } else {
        var h := table[id];
        var d := Gated(id, rev, en[h], DispatchOrder, after);
        var en2 := if d.0 == [] then en else en[h := d.1];
        DispatchOnlyReady(i + 1, count, ind, revs, table - d.2, live, en2, after);
        var here := Tagged(id, d.0);
        forall p | p in here ensures p.0 in table && table[p.0] in live &&
          exists k :: i <= k < count && ind[k] == p.0 && Fires(Revent(revs, k), p.1)
        {
          var j :| 0 <= j < |here| && here[j] == p;
          GatedTriggers(id, rev, en[h], DispatchOrder, after);
          assert d.0[j] in d.0;
        }
      }
    }
  }

  /**
   * The timer part of the scan for one polled handler, on the variables
   * timeout, firstTimer and moreTimers (and the record of candidates).
   */
  method ConsiderTimer(timeout: int, first: HandlerId, more: bool, marked: seq<HandlerId>, id: HandlerId, timer: Time, now: Time)
    returns (timeout': int, first': HandlerId, more': bool, marked': seq<HandlerId>)
    ensures var r := TimerStep(ScanState([], [], 0, timeout, first, more, marked, {}), id, timer, now);
      timeout' == r.timeout && first' == r.first && more' == r.more && marked' == r.marked
  {
    timeout', first', more', marked' := timeout, first, more, marked;
    if timer != TimeMax {
      var useTimer := false;
      if timer <= now {
        useTimer := true;
        timeout' := 0;
      } else if timeout' != 0 {
        var diff := now - timer;
        if diff < timeout' {
          timeout' := diff;
          useTimer := true;
        }
      }
      if useTimer {
        more' := first' != BadHandlerId;
        first' := id;
        marked' := marked' + [id];
      }
    }
  }

  /**
   * The work of the scan for a live enabled handler: write its poll entry at
   * position `count` (overwriting or appending), count it, and consider its
   * earliest deadline as a timer candidate.
   */
  method Emit(pfd: seq<PollFd>, ind: seq<HandlerId>, count: nat, timeout: int, first: HandlerId, more: bool,
              marked: seq<HandlerId>, id: HandlerId, fd: int, writeRequired: bool, timer: Time, now: Time)
    returns (pfd': seq<PollFd>, ind': seq<HandlerId>, count': nat, timeout': int, first': HandlerId, more': bool, marked': seq<HandlerId>)
    requires count <= |pfd| == |ind|
    ensures var st := ScanState(pfd, ind, count, timeout, first, more, marked, {});
      ScanStep(st, id, View(true, true, writeRequired, fd, timer), now) ==
      Done(ScanState(pfd', ind', count', timeout', first', more', marked', {}))
  {
    var e := PollFd(fd, Events(writeRequired), 0);
    if count < |pfd| {
      pfd' := pfd[count := e];
      ind' := ind[count := id];
    } else {
      pfd' := pfd + [e];
      ind' := ind + [id];
    }
    count' := count + 1;
    ghost var placed := ScanState(pfd', ind', count', timeout, first, more, marked, {});
    TimerStepFields(placed, id, timer, now);
    timeout', first', more', marked' := ConsiderTimer(timeout, first, more, marked, id, timer, now);
  }

  /** The scan step for a live handler does not depend on the erased ids recorded so far. */
  lemma ScanStepLive(st: ScanState, id: HandlerId, v: View, now: Time)
    requires st.count <= |st.pfd| == |st.ind| && v.alive && v.enabled
    ensures ScanStep(st, id, v, now).st == ScanStep(st.(pruned := {}), id, v, now).st.(pruned := st.pruned)
  {
  }

  /** The timer step only looks at the timer fields of the scan state. */
  lemma TimerStepFields(st: ScanState, id: HandlerId, timer: Time, now: Time)
    ensures var r := TimerStep(ScanState([], [], 0, st.timeout, st.first, st.more, st.marked, {}), id, timer, now);
      TimerStep(st, id, timer, now) == st.(timeout := r.timeout, first := r.first, more := r.more, marked := r.marked)
  {
  }

  /** The ids of a set in increasing order: the order in which std::map iterates its keys. */
  method InOrder(keys: set<HandlerId>) returns (ids: seq<HandlerId>)
    ensures ids == SortedKeys(keys)
  {
    ids := [];
    var todo := keys;
    while todo != {}
      invariant ids + SortedKeys(todo) == SortedKeys(keys)
      decreases |todo|
    {
      var id :| id in todo && forall k :: k in todo ==> id <= k;
      assert id == Least(todo);
      assert SortedKeys(todo) == [id] + SortedKeys(todo - {id});
      assert ids + SortedKeys(todo) == (ids + [id]) + SortedKeys(todo - {id});
      ids := ids + [id];
      todo := todo - {id};
    }
    assert SortedKeys(todo) == [];
    assert ids + [] == ids;
  }

  /** The timers a handler keeps after the timer phase checks it under id `id`. */
  function Remaining(ts: seq<TimerEntry>, now: Time, onTimer: (HandlerId, TimerId) -> set<TimerId>, id: HandlerId): seq<TimerEntry> {
    Fire(ts, now, t => onTimer(id, t)).1
  }

  /** The ids of `s` above `curr`. */
  function Above(s: set<HandlerId>, curr: HandlerId): (r: set<HandlerId>)
    ensures forall x :: x in r <==> x in s && x > curr
  {
    set x | x in s && x > curr
  }

  /** Listing the ids above `curr` starts with the least of them, then lists those above it. */
  lemma SortedAbove(s: set<HandlerId>, curr: HandlerId)
    requires Above(s, curr) != {}
    ensures var m := Least(Above(s, curr));
      m > curr && SortedKeys(Above(s, curr)) == [m] + SortedKeys(Above(s, m))
  {
    var m := Least(Above(s, curr));
    assert Above(s, curr) - {m} == Above(s, m);
  }

  /**
   * One step of the timer walk: checking the least id above `curr` extends
   * the ids checked so far by that id.
   */
  lemma CheckedStep(checked: seq<HandlerId>, targets: set<HandlerId>, curr: HandlerId)
    requires checked + SortedKeys(Above(targets, curr)) == SortedKeys(targets)
    requires Above(targets, curr) != {}
    ensures var next := Least(Above(targets, curr));
      next > curr && (checked + [next]) + SortedKeys(Above(targets, next)) == SortedKeys(targets)
  {
    var next := Least(Above(targets, curr));
    SortedAbove(targets, curr);
    ConcatAssoc(checked, [next], SortedKeys(Above(targets, next)));
  }

  /** A value of C's int: the count truncated to its low 32 bits, read as two's complement. */
  function ToInt32(x: int): (r: int)
    ensures -0x8000_0000 <= r < 0x8000_0000 && (x - r) % 0x1_0000_0000 == 0
    ensures -0x8000_0000 <= x < 0x8000_0000 ==> r == x
  {
    var m := x % 0x1_0000_0000;
    if m < 0x8000_0000 then m else m - 0x1_0000_0000
  }

  /** poll_timeo: -1 (wait for ever) for milliseconds::max(), otherwise the count cast to int. */
  function PollTimeout(timeout: int): (r: int)
    ensures -0x8000_0000 <= r < 0x8000_0000
    ensures timeout == MsMax ==> r == -1
    ensures timeout != MsMax ==> (timeout - r) % 0x1_0000_0000 == 0
    ensures timeout != MsMax && -0x8000_0000 <= timeout < 0x8000_0000 ==> r == timeout
  {
    if timeout == MsMax then -1 else ToInt32(timeout)
  }

  /**
   * A poll() timeout below zero means no limit. A single polled handler whose
   * deadline lies ahead by at most 2^31 ms makes exec's round wait without
   * limit instead of until that deadline.
   */
  lemma FutureDeadlineBlocks(id: HandlerId, v: View, now: Time)
    requires id != BadHandlerId && v.alive && v.enabled && now < v.closest < TimeMax
    requires v.closest - now <= 0x8000_0000
    ensures var r := ScanAll(ScanStart([], [], MsMax), [id], map[id := v], now);
      r.Done? && PollTimeout(r.st.timeout) < 0
  {
    FutureDeadlineGivesNegativeTimeout(id, v, now);
  }

  /** What poll() answers: its return value and the revents of the entries it was given. */
  datatype PollAnswer = PollAnswer(ret: int, revents: seq<bv16>)

  /** The arguments of a poll() call: the number of entries and the timeout. */
  datatype PollCall = PollCall(nfds: nat, timeout: int)

  /** The vector after poll() wrote revents into its first `count` entries. */
  function WithRevents(pfd: seq<PollFd>, count: nat, revs: seq<bv16>): (r: seq<PollFd>)
    ensures |r| == |pfd|
    ensures forall k :: 0 <= k < |pfd| ==>
      r[k] == if k < count then pfd[k].(revents := Revent(revs, k)) else pfd[k]
  {
    seq(|pfd|, k requires 0 <= k < |pfd| => if k < count then pfd[k].(revents := Revent(revs, k)) else pfd[k])
  }

  /** The outside world of one round: the clock readings, poll()'s answer and the callbacks' effects. */
  datatype Env = Env(now: Time, poll: PollCall -> PollAnswer, after: (HandlerId, Callback) -> Effect,
                     later: Time, onTimer: (HandlerId, TimerId) -> set<TimerId>)

  datatype Option<T> = None | Some(value: T)

  /** How a round ends: it never returns (the scan spins), or it returns pollHandlers' result. */
  datatype Round = Hangs(at: HandlerId) | Returns(ok: bool)

  /**
   * Stale entries keep the round going: when the reused vectors are longer
   * than the entries written this round (in particular when nothing is
   * polled), poll() is still called, with that smaller count.
   */
  lemma StaleEntriesStillPoll(pfd: seq<PollFd>, ind: seq<HandlerId>, timeout: int, ids: seq<HandlerId>,
                              views: map<HandlerId, View>, now: Time)
    requires forall id :: id in ids ==> id in views
    requires |pfd| > 0 && |ind| > 0
    ensures var r := ScanAll(ScanStart(pfd, ind, timeout), ids, views, now);
      r.Done? ==> r.st.pfd != [] && r.st.count == |Polled(ids, views)|
  {
    var st := ScanStart(pfd, ind, timeout);
    ScanIds(st, ids, views, now);
    ScanPollFds(st, ids, views, now);
  }

  /** From empty vectors, poll() is called exactly when some handler got an entry. */
  lemma FreshVectorsPollIffPolled(timeout: int, ids: seq<HandlerId>, views: map<HandlerId, View>, now: Time)
    requires forall id :: id in ids ==> id in views
    ensures var r := ScanAll(ScanStart([], [], timeout), ids, views, now);
      r.Done? ==> (r.st.pfd != [] <==> Polled(ids, views) != []) && |r.st.pfd| == r.st.count
  {
    var st := ScanStart([], [], timeout);
    ScanIds(st, ids, views, now);
    ScanPollFds(st, ids, views, now);
  }

  /** The timer lists after the handlers listed in `checked` had their timers checked. */
  function Advanced(t0: map<HandlerId, seq<TimerEntry>>, checked: seq<HandlerId>, now: Time,
                    onTimer: (HandlerId, TimerId) -> set<TimerId>): (r: map<HandlerId, seq<TimerEntry>>)
    ensures r.Keys == t0.Keys
  {
    map x | x in t0 :: if x in checked then Remaining(t0[x], now, onTimer, x) else t0[x]
  }

  lemma AdvancedNone(t0: map<HandlerId, seq<TimerEntry>>, now: Time, onTimer: (HandlerId, TimerId) -> set<TimerId>)
    ensures Advanced(t0, [], now, onTimer) == t0
  {
  }

  /** Checking one more id, not checked before, updates just its entry. */
  lemma AdvancedStep(t0: map<HandlerId, seq<TimerEntry>>, checked: seq<HandlerId>, next: HandlerId, now: Time,
                     onTimer: (HandlerId, TimerId) -> set<TimerId>)
    requires next in t0 && next !in checked
    ensures var a := Advanced(t0, checked, now, onTimer);
      Advanced(t0, checked + [next], now, onTimer) == a[next := Remaining(a[next], now, onTimer, next)]
  {
  }

  /** A handler as the scan sees it. */
  ghost function ViewOf(h: FileHandler): View
    reads h
  {
    View(h.alive, h.IsEnabled(), h.WriteRequired(), h.fd, h.GetClosestTime())
  }

  class FilePoller {
    /** m_seq: the last id handed out. */
    var counter: HandlerId
    /** m_hndList: id to non-owning handler reference, iterated in increasing id order. */
    var handlers: map<HandlerId, FileHandler>

    ghost function Objects(): set<FileHandler>
      reads this
    {
      handlers.Values
    }

    /**
     * The table invariant: BadHandlerId is never registered, every handler
     * keeps its timers in order, and no handler object is registered twice.
     */
    ghost predicate Valid()
      reads this, Objects()
    {
      BadHandlerId !in handlers &&
      (forall id :: id in handlers ==> handlers[id].Valid()) &&
      (forall a, b :: a in handlers && b in handlers && a != b ==> handlers[a] != handlers[b])
    }

    /** The enabled bit of every registered handler object. */
    ghost function Enabled(): map<FileHandler, bool>
      reads this, Objects()
    {
      map o | o in Objects() :: o.IsEnabled()
    }

    /** The registered handler objects that are still alive. */
    ghost function Live(): set<FileHandler>
      reads this, Objects()
    {
      set o | o in Objects() && o.alive
    }

    /** What the scan would read from every registered handler. */
    ghost function Views(): map<HandlerId, View>
      reads this, Objects()
    {
      map id | id in handlers :: ViewOf(handlers[id])
    }

    /**
     * Some registered handler is alive but disabled. A handler starts
     * disabled and only setState(true) enables it, so a table of handlers
     * nobody enabled is stuck.
     */
    ghost predicate Stuck()
      reads this, Objects()
    {
      exists id :: id in handlers && handlers[id].alive && !handlers[id].IsEnabled()
    }

    /** On a stuck table the scan spins, whatever vectors, timeout and clock it starts from. */
    lemma StuckSpins(pfd: seq<PollFd>, ind: seq<HandlerId>, timeout: int, now: Time)
      requires Stuck()
      ensures ScanAll(ScanStart(pfd, ind, timeout), SortedKeys(handlers.Keys), Views(), now).Spins?
    {
      var id :| id in handlers && handlers[id].alive && !handlers[id].IsEnabled();
      var ids := SortedKeys(handlers.Keys);
      SortedKeysMembers(handlers.Keys);
      var k :| 0 <= k < |ids| && ids[k] == id;
      assert Views()[ids[k]].alive && !Views()[ids[k]].enabled;
      ScanSpinsIff(ScanStart(pfd, ind, timeout), ids, Views(), now);
    }

    /** An empty table; the counter starts at BadHandlerId. */
    constructor ()
      ensures Valid() && counter == BadHandlerId && handlers == map[]
    {
      counter := BadHandlerId;
      handlers := map[];
    }

    /** getNextSeq: advance the counter to the next free id (or back to where it started). */
    method GetNextSeq() returns (id: HandlerId)
      modifies this
      ensures handlers == old(handlers) && counter == id
      ensures FirstFreeAfter(old(counter), handlers.Keys, id)
      ensures id == old(counter) || Free(id, handlers.Keys)
    {
      id := NextSeqFrom(counter, handlers.Keys);
      counter := id;
    }

    /**
     * addHandler: allocate an id and register the handler under it unless the
     * id is BadHandlerId; the id is returned either way. Like
     * std::map::emplace, an id that is already registered keeps its handler.
     */
    method AddHandler(h: FileHandler) returns (id: HandlerId)
      requires Valid() && h.Valid() && h !in Objects()
      modifies this
      ensures Valid() && counter == id
      ensures FirstFreeAfter(old(counter), old(handlers).Keys, id)
      ensures handlers == if id != BadHandlerId && id !in old(handlers) then old(handlers)[id := h] else old(handlers)
    {
      id := GetNextSeq();
      if id != BadHandlerId && id !in handlers {
        handlers := handlers[id := h];
      }
    }

    /** removeHandler: erase that id and nothing else. */
    method RemoveHandler(id: HandlerId)
      requires Valid()
      modifies this
      ensures Valid() && counter == old(counter)
      ensures handlers == old(handlers) - {id}
    {
      handlers := handlers - {id};
    }

    /**
     * One entry of the scan: erase an expired registration, stop at a live
     * disabled one, or write the poll entry and timer candidate of a live
     * enabled one.
     */
    method Visit(st: ScanState, id: HandlerId, ghost v: View, now: Time) returns (r: Scan)
      requires id in handlers && id !in st.pruned && st.count <= |st.pfd| == |st.ind|
      requires ViewOf(handlers[id]) == v
      modifies this
      ensures counter == old(counter)
      ensures r == ScanStep(st, id, v, now)
      ensures r.Spins? ==> handlers == old(handlers)
      ensures r.Done? ==> st.pruned <= r.st.pruned && handlers == old(handlers) - (r.st.pruned - st.pruned)
    {
      var h := handlers[id];
      if !h.alive {
        handlers := handlers - {id};
        r := Done(st.(pruned := st.pruned + {id}));
        assert r.st.pruned - st.pruned == {id};
      } else if !h.IsEnabled() {
        r := Spins(id, st.pruned);
      } else {
        ScanStepLive(st, id, v, now);
        var pfd, ind, count, to, first, more, marked :=
          Emit(st.pfd, st.ind, st.count, st.timeout, st.first, st.more, st.marked, id, h.GetFd(), h.WriteRequired(), h.GetClosestTime(), now);
        r := Done(ScanState(pfd, ind, count, to, first, more, marked, st.pruned));
        assert handlers == old(handlers) - {};
      }
    }

    /**
     * The scan of pollHandlers: equalise the reused vectors, then walk the
     * table in increasing id order, erasing expired registrations and writing
     * a poll entry and the timer candidate for each live enabled handler.
     * `order` is the ids visited.
     */
    method ScanTable(timeout: int, pfd0: seq<PollFd>, ind0: seq<HandlerId>, now: Time) returns (scan: Scan)
      requires Valid()
      modifies this
      ensures Valid() && counter == old(counter)
      ensures scan == ScanAll(ScanStart(pfd0, ind0, timeout), SortedKeys(old(handlers).Keys), old(Views()), now)
      ensures handlers == old(handlers) - (if scan.Done? then scan.st.pruned else scan.prunedBefore)
    {
      scan := ScanEntries(timeout, pfd0, ind0, now);
    }

    /** The scan proper, without the table invariant. */
    /**
     * One turn of the scan loop: visit the `i`-th id of the table's listing
     * and carry the rest of the scan forward.
     */
    method ScanNext(st: ScanState, ghost h0: map<HandlerId, FileHandler>, ids: seq<HandlerId>, i: nat,
                    ghost views: map<HandlerId, View>, now: Time) returns (r: Scan)
      requires i < |ids| && ids == SortedKeys(h0.Keys) && handlers == h0 - st.pruned
      requires forall k :: i <= k < |ids| ==> ids[k] in handlers && ids[k] !in st.pruned
      requires forall id :: id in ids ==> id in views
      requires forall id :: id in handlers ==> id in views && ViewOf(handlers[id]) == views[id]
      requires st.count <= |st.pfd| == |st.ind|
      modifies this
      ensures counter == old(counter)
      ensures forall id :: id in handlers ==> id in views && ViewOf(handlers[id]) == views[id]
      ensures r.Spins? ==> r == ScanAll(st, ids[i..], views, now) && r.prunedBefore == st.pruned && handlers == old(handlers)
      ensures r.Done? ==> handlers == h0 - r.st.pruned && r.st.count <= |r.st.pfd| == |r.st.ind|
      ensures r.Done? ==> ScanAll(r.st, ids[i + 1..], views, now) == ScanAll(st, ids[i..], views, now)
      ensures r.Done? ==> forall k :: i < k < |ids| ==> ids[k] in handlers && ids[k] !in r.st.pruned
    {
      var id := ids[i];
      SortedKeysDistinct(h0.Keys, i);
      r := Visit(st, id, views[id], now);
      ScanAllFrom(st, ids, i, views, now);
      if r.Done? {
        EraseMore(h0, st.pruned, r.st.pruned);
      }
    }

    method ScanEntries(timeout: int, pfd0: seq<PollFd>, ind0: seq<HandlerId>, now: Time) returns (scan: Scan)
      modifies this
      ensures counter == old(counter)
      ensures scan == ScanAll(ScanStart(pfd0, ind0, timeout), SortedKeys(old(handlers).Keys), old(Views()), now)
      ensures handlers == old(handlers) - (if scan.Done? then scan.st.pruned else scan.prunedBefore)
    {
      var st := ScanStart(pfd0, ind0, timeout);
      ghost var start := st;
      ghost var views := Views();
      var ids := InOrder(handlers.Keys);
      ghost var whole := ScanAll(start, ids, views, now);
      assert ids[0..] == ids;
      var i := 0;
      while i < |ids|
        invariant 0 <= i <= |ids|
        invariant handlers == old(handlers) - st.pruned && counter == old(counter)
        invariant forall k :: i <= k < |ids| ==> ids[k] in handlers && ids[k] !in st.pruned
        invariant forall id :: id in ids ==> id in views
        invariant forall id :: id in handlers ==> id in views && ViewOf(handlers[id]) == views[id]
        invariant st.count <= |st.pfd| == |st.ind| && ScanAll(st, ids[i..], views, now) == whole
      {
        var r := ScanNext(st, old(handlers), ids, i, views, now);
        if r.Spins? {
          scan := r;
          return;
        }
        st := r.st;
        i := i + 1;
      }
      scan := Done(st);
    }

    /**
     * One callback of a ready handler, with the effect the oracle gives it:
     * the handler's enabled bit becomes what the callback left, and the ids
     * it removed leave the table. Answers the enabled bit read back.
     */
    method Run(h: FileHandler, id: HandlerId, cb: Callback, after: (HandlerId, Callback) -> Effect) returns (enabled: bool)
      modifies this, h
      ensures enabled == h.IsEnabled() == after(id, cb).enabled
      ensures h.timers == old(h.timers) && h.alive == old(h.alive) && h.WriteRequired() == old(h.WriteRequired())
      ensures handlers == old(handlers) - after(id, cb).removed && counter == old(counter)
    {
      var e := after(id, cb);
      h.SetState(e.enabled);
      handlers := handlers - e.removed;
      enabled := h.IsEnabled();
    }

    /**
     * One gate of the dispatch: when the handler is enabled and the
     * callback's bit is set, run the callback and read the enabled bit back.
     */
    method Gate(h: FileHandler, id: HandlerId, cb: Callback, rev: bv16, enabled: bool, after: (HandlerId, Callback) -> Effect)
      returns (enabled': bool, ran: bool)
      modifies this, h
      ensures ran == (enabled && Fires(rev, cb))
      ensures ran ==> enabled' == h.IsEnabled() == after(id, cb).enabled && handlers == old(handlers) - after(id, cb).removed
      ensures !ran ==> enabled' == enabled && handlers == old(handlers) && h.flags == old(h.flags)
      ensures h.timers == old(h.timers) && h.alive == old(h.alive) && h.WriteRequired() == old(h.WriteRequired())
      ensures counter == old(counter)
    {
      enabled', ran := enabled, false;
      if enabled && Fires(rev, cb) {
        enabled' := Run(h, id, cb, after);
        ran := true;
      }
    }

    /**
     * The callbacks for one ready descriptor whose handler is registered and
     * alive: read when POLLIN is set, then error when POLLERR is set, then
     * write when POLLOUT is set, each only while the handler is enabled.
     */
    method DispatchEntry(h: FileHandler, id: HandlerId, rev: bv16, after: (HandlerId, Callback) -> Effect) returns (cbs: seq<Callback>)
      modifies this, h
      ensures var g := Gated(id, rev, old(h.IsEnabled()), DispatchOrder, after);
        cbs == g.0 && handlers == old(handlers) - g.2 && h.IsEnabled() == g.1
      ensures h.timers == old(h.timers) && h.alive == old(h.alive) && h.WriteRequired() == old(h.WriteRequired())
      ensures cbs == [] ==> h.flags == old(h.flags)
      ensures counter == old(counter)
    {
      ghost var whole := Gated(id, rev, h.IsEnabled(), DispatchOrder, after);
      ghost var gone: set<HandlerId> := {};
      var enabled := h.IsEnabled();
      cbs := [];
      assert DispatchOrder[0..] == DispatchOrder && [] + whole.0 == whole.0 && {} + whole.2 == whole.2;
      for k := 0 to |DispatchOrder|
        invariant var g := Gated(id, rev, enabled, DispatchOrder[k..], after);
          whole == (cbs + g.0, g.1, gone + g.2)
        invariant handlers == old(handlers) - gone && counter == old(counter)
        invariant enabled == h.IsEnabled() && (cbs == [] ==> h.flags == old(h.flags))
        invariant h.timers == old(h.timers) && h.alive == old(h.alive) && h.WriteRequired() == old(h.WriteRequired())
      {
        var cb := DispatchOrder[k];
        ghost var rest := Gated(id, rev, enabled, DispatchOrder[k + 1..], after);
        var ran;
        enabled, ran := Gate(h, id, cb, rev, enabled, after);
        if ran {
          EraseTwice(old(handlers), gone, after(id, cb).removed);
          ghost var later := Gated(id, rev, enabled, DispatchOrder[k + 1..], after);
          ConcatAssoc(cbs, [cb], later.0);
          UnionAssoc(gone, after(id, cb).removed, later.2);
          gone := gone + after(id, cb).removed;
          cbs := cbs + [cb];
        }
      }
      assert DispatchOrder[|DispatchOrder|..] == [];
    }

    /**
     * Entry `i` of the dispatch: when it reported events and its id is still
     * registered to a live handler, run that handler's callbacks. `en` is the
     * enabled bit of every handler object, before and after.
     */
    method DispatchAt(i: nat, count: nat, pfd: seq<PollFd>, ind: seq<HandlerId>, after: (HandlerId, Callback) -> Effect,
                      ghost objs: set<FileHandler>, ghost live: set<FileHandler>, ghost en: map<FileHandler, bool>)
      returns (cbs: seq<Callback>, ghost en': map<FileHandler, bool>)
      requires i < count <= |pfd| && count <= |ind|
      requires forall id :: id in handlers ==> handlers[id] in objs
      requires forall o :: o in objs ==> (o in live <==> o.alive)
      requires en.Keys == objs && forall o :: o in objs ==> en[o] == o.IsEnabled()
      modifies this, objs
      ensures forall id :: id in handlers ==> handlers[id] in objs
      ensures en'.Keys == objs && forall o :: o in objs ==> en'[o] == o.IsEnabled()
      ensures forall o :: o in objs ==>
        o.timers == old(o.timers) && o.alive == old(o.alive) && o.WriteRequired() == old(o.WriteRequired())
      ensures counter == old(counter)
      ensures var r := DispatchFrom(i, count, ind, Revents(pfd), old(handlers), live, en, after);
        var rest := DispatchFrom(i + 1, count, ind, Revents(pfd), handlers, live, en', after);
        r == (Tagged(ind[i], cbs) + rest.0, rest.1, rest.2)
    {
      var id := ind[i];
      assert Revent(Revents(pfd), i) == pfd[i].revents;
      cbs := [];
      en' := en;
      if pfd[i].revents != 0 && id in handlers && handlers[id].alive {
        var h := handlers[id];
        ghost var d := Gated(id, pfd[i].revents, en[h], DispatchOrder, after);
        cbs := DispatchEntry(h, id, pfd[i].revents, after);
        en' := if cbs == [] then en else en[h := d.1];
      } else {
        ghost var rest := DispatchFrom(i + 1, count, ind, Revents(pfd), handlers, live, en', after);
        assert Tagged(id, cbs) + rest.0 == rest.0;
      }
    }

    /**
     * The dispatch of pollHandlers once poll() reported events: walk the
     * first `count` entries and, for each entry with events whose id is
     * still registered to a live handler, run its callbacks.
     */
    method Dispatch(count: nat, pfd: seq<PollFd>, ind: seq<HandlerId>, after: (HandlerId, Callback) -> Effect)
      returns (calls: seq<(HandlerId, Callback)>)
      requires Valid() && count <= |pfd| && count <= |ind|
      modifies this, Objects()
      ensures Valid()
      ensures var r := DispatchFrom(0, count, ind, Revents(pfd), old(handlers), old(Live()), old(Enabled()), after);
        calls == r.0 && handlers == r.1 && forall o :: o in old(Objects()) ==> o.IsEnabled() == r.2[o]
      ensures forall o :: o in old(Objects()) ==>
        o.timers == old(o.timers) && o.alive == old(o.alive) && o.WriteRequired() == old(o.WriteRequired())
      ensures counter == old(counter)
    {
      ghost var objs := Objects();
      ghost var live := Live();
      ghost var en := Enabled();
      ghost var spec := DispatchFrom(0, count, ind, Revents(pfd), handlers, live, en, after);
      calls := [];
      var i := 0;
      while i < count
        invariant i <= count && counter == old(counter)
        invariant forall id :: id in handlers ==> handlers[id] in objs
        invariant en.Keys == objs && forall o :: o in objs ==> en[o] == o.IsEnabled()
        invariant forall o :: o in objs ==>
          o.timers == old(o.timers) && o.alive == old(o.alive) && o.WriteRequired() == old(o.WriteRequired())
        invariant var rest := DispatchFrom(i, count, ind, Revents(pfd), handlers, live, en, after);
          calls + rest.0 == spec.0 && rest.1 == spec.1 && rest.2 == spec.2
      {
        ghost var rest := DispatchFrom(i, count, ind, Revents(pfd), handlers, live, en, after);
        var cbs;
        cbs, en := DispatchAt(i, count, pfd, ind, after, objs, live, en);
        ghost var next := DispatchFrom(i + 1, count, ind, Revents(pfd), handlers, live, en, after);
        assert calls + (Tagged(ind[i], cbs) + next.0) == (calls + Tagged(ind[i], cbs)) + next.0;
        calls := calls + Tagged(ind[i], cbs);
        i := i + 1;
      }
    }

    /** The registered ids whose handler is alive and enabled. */
    ghost function Armed(): set<HandlerId>
      reads this, Objects()
    {
      set id | id in handlers && handlers[id].alive && handlers[id].IsEnabled()
    }

    /**
     * The ids the timer phase checks: none without a candidate; every armed
     * id when the scan marked more than one; otherwise the candidate, if it
     * is still armed.
     */
    ghost function TimerTargets(first: HandlerId, more: bool): (r: set<HandlerId>)
      reads this, Objects()
      ensures r <= Armed()
    {
      if first == BadHandlerId then {}
      else if more then Armed()
      else if first in Armed() then {first}
      else {}
    }

    /**
     * The search of the timer phase: the least registered id above `curr`
     * whose handler is alive and enabled, if there is one.
     */
    function NextArmed(curr: HandlerId): (r: (bool, HandlerId))
      reads this, Objects()
      ensures r.0 <==> Above(Armed(), curr) != {}
      ensures r.0 ==> r.1 == Least(Above(Armed(), curr))
    {
      if exists x :: x in handlers && x > curr && handlers[x].alive && handlers[x].IsEnabled() then
        LeastArmedAbove(curr);
        var next :| next in handlers && next > curr && handlers[next].alive && handlers[next].IsEnabled() &&
          forall y :: y in handlers && y > curr && handlers[y].alive && handlers[y].IsEnabled() ==> next <= y;
        (true, next)
      else
        assert forall x :: x !in Above(Armed(), curr);
        (false, curr)
    }

    /** The least armed id above `curr` is the unique armed id above `curr` below all others. */
    lemma LeastArmedAbove(curr: HandlerId)
      requires exists x :: x in handlers && x > curr && handlers[x].alive && handlers[x].IsEnabled()
      ensures Above(Armed(), curr) != {}
      ensures var least := Least(Above(Armed(), curr));
        least in handlers && least > curr && handlers[least].alive && handlers[least].IsEnabled() &&
        forall y :: y in handlers && y > curr && handlers[y].alive && handlers[y].IsEnabled() ==> least <= y
      ensures forall n ::
        (n in handlers && n > curr && handlers[n].alive && handlers[n].IsEnabled() &&
         forall y :: y in handlers && y > curr && handlers[y].alive && handlers[y].IsEnabled() ==> n <= y) ==>
        n == Least(Above(Armed(), curr))
    {
      var above := Above(Armed(), curr);
      var w :| w in handlers && w > curr && handlers[w].alive && handlers[w].IsEnabled();
      assert w in above;
      var least := Least(above);
      forall y | y in handlers && y > curr && handlers[y].alive && handlers[y].IsEnabled()
        ensures least <= y
      {
        assert y in above;
      }
    }

    /** The timer list of every registered handler. */
    ghost function TimersOf(): map<HandlerId, seq<TimerEntry>>
      reads this, Objects()
    {
      map x | x in handlers :: handlers[x].timers
    }

    /** The flag word and liveness of every registered handler. */
    ghost function StateOf(): map<HandlerId, (bv32, bool)>
      reads this, Objects()
    {
      map x | x in handlers :: (handlers[x].flags, handlers[x].alive)
    }

    /** checkTimer on the handler registered under `id`; no other handler changes. */
    method CheckOne(id: HandlerId, now: Time, onTimer: (HandlerId, TimerId) -> set<TimerId>)
      requires Valid() && id in handlers
      modifies handlers[id]
      ensures Valid() && Armed() == old(Armed()) && StateOf() == old(StateOf())
      ensures TimersOf() == old(TimersOf())[id := Remaining(old(TimersOf())[id], now, onTimer, id)]
    {
      var h := handlers[id];
      var fired := h.CheckTimer(now, t => onTimer(id, t));
      assert Armed() == old(Armed());
      assert StateOf() == old(StateOf());
    }

    /**
     * The timer walk's state: the armed set and the handlers' flags are as
     * at the start, `checked` lists in order the armed ids up to `curr`, and
     * exactly those have had their timers checked.
     */
    ghost predicate Walked(checked: seq<HandlerId>, curr: HandlerId, targets: set<HandlerId>,
                           t0: map<HandlerId, seq<TimerEntry>>, s0: map<HandlerId, (bv32, bool)>,
                           now: Time, onTimer: (HandlerId, TimerId) -> set<TimerId>)
      reads this, Objects()
    {
      Valid() && Armed() == targets && StateOf() == s0 &&
      checked + SortedKeys(Above(targets, curr)) == SortedKeys(targets) &&
      (forall x :: x in checked ==> x <= curr) &&
      TimersOf() == Advanced(t0, checked, now, onTimer)
    }

    /** One step of the timer walk: find the next armed id above `curr` and check its timers. */
    method WalkStep(curr: HandlerId, ghost checked: seq<HandlerId>, ghost targets: set<HandlerId>,
                    ghost t0: map<HandlerId, seq<TimerEntry>>, ghost s0: map<HandlerId, (bv32, bool)>,
                    now: Time, onTimer: (HandlerId, TimerId) -> set<TimerId>)
      returns (found: bool, next: HandlerId)
      requires Walked(checked, curr, targets, t0, s0, now, onTimer)
      modifies Objects()
      ensures found <==> Above(targets, curr) != {}
      ensures !found ==> Walked(checked, curr, targets, t0, s0, now, onTimer)
      ensures found ==> next > curr && Walked(checked + [next], next, targets, t0, s0, now, onTimer)
    {
      var r := NextArmed(curr);
      found, next := r.0, r.1;
      if found {
        assert next in targets && next in handlers && next in t0;
        CheckedStep(checked, targets, curr);
        assert next !in checked && forall x :: x in checked + [next] ==> x <= next;
        AdvancedStep(t0, checked, next, now, onTimer);
        CheckOne(next, now, onTimer);
      }
    }

    /**
     * The walk of the timer phase when the scan marked several candidates:
     * from id 0, repeatedly find the next armed id above the last one and
     * check its handler's timers.
     */
    method WalkArmed(now: Time, onTimer: (HandlerId, TimerId) -> set<TimerId>) returns (checked: seq<HandlerId>)
      requires Valid()
      modifies Objects()
      ensures Valid() && checked == SortedKeys(old(Armed()))
      ensures StateOf() == old(StateOf())
      ensures TimersOf() == Advanced(old(TimersOf()), checked, now, onTimer)
    {
      ghost var targets := Armed();
      ghost var t0 := TimersOf();
      ghost var s0 := StateOf();
      checked := [];
      var curr: HandlerId := 0;
      assert Above(targets, curr) == targets;
      assert checked + SortedKeys(targets) == SortedKeys(targets);
      AdvancedNone(t0, now, onTimer);
      while true
        invariant Walked(checked, curr, targets, t0, s0, now, onTimer)
        decreases U32 - curr
      {
        var found, next := WalkStep(curr, checked, targets, t0, s0, now, onTimer);
        if !found {
          break;
        }
        checked := checked + [next];
        curr := next;
      }
      assert Above(targets, curr) == {};
      assert checked + [] == checked;
    }

    /**
     * The timer phase of pollHandlers, run when the scan found a candidate:
     * with several candidates, check every armed handler in increasing id
     * order; with one, check that handler if it is still registered, alive
     * and enabled. `checked` lists the ids checked, in order.
     */
    method FireTimers(first: HandlerId, more: bool, now: Time, onTimer: (HandlerId, TimerId) -> set<TimerId>)
      returns (checked: seq<HandlerId>)
      requires Valid() && first != BadHandlerId
      modifies Objects()
      ensures Valid()
      ensures checked == SortedKeys(old(TimerTargets(first, more)))
      ensures StateOf() == old(StateOf())
      ensures TimersOf() == Advanced(old(TimersOf()), checked, now, onTimer)
    {
      ghost var targets := TimerTargets(first, more);
      if more {
        checked := WalkArmed(now, onTimer);
      } else {
        checked := [];
        assert SortedKeys({}) == [];
        AdvancedNone(TimersOf(), now, onTimer);
        if first in handlers {
          var h := handlers[first];
          if h.alive && h.IsEnabled() {
            assert Least({first}) == first && {first} - {first} == {};
            assert SortedKeys({first}) == [first];
            AdvancedStep(TimersOf(), [], first, now, onTimer);
            CheckOne(first, now, onTimer);
            checked := [first];
          }
        }
      }
    }

    /**
     * The part of a round after a completed scan left `st`: with no entry at
     * all return true; otherwise call poll() on the entries written this
     * round, return false when it fails, dispatch the ready entries when it
     * reports any, then run the timer phase with the clock read again
     * (`later`) when the scan found a candidate.
     */
    method Serve(st: ScanState, poll: PollCall -> PollAnswer, after: (HandlerId, Callback) -> Effect,
                 later: Time, onTimer: (HandlerId, TimerId) -> set<TimerId>)
      returns (ok: bool, pfd: seq<PollFd>, call: Option<PollCall>, calls: seq<(HandlerId, Callback)>, checked: seq<HandlerId>)
      requires Valid() && st.count <= |st.pfd| == |st.ind|
      modifies this, Objects()
      ensures Valid() && counter == old(counter) && Objects() <= old(Objects())
      ensures call == None <==> st.pfd == []
      ensures st.pfd == [] ==> ok && pfd == [] && calls == [] && checked == [] && handlers == old(handlers)
      ensures st.pfd != [] ==>
        var c := PollCall(st.count, PollTimeout(st.timeout));
        var ans := poll(c);
        call == Some(c) && pfd == WithRevents(st.pfd, st.count, ans.revents) && (ok <==> ans.ret >= 0) &&
        (ans.ret <= 0 ==> calls == []) &&
        (ans.ret < 0 || st.first == BadHandlerId ==> checked == []) &&
        (ans.ret < 0 ==> handlers == old(handlers))
      ensures forall p :: p in calls ==>
        p.0 in old(handlers) && exists k :: 0 <= k < st.count && st.ind[k] == p.0 && Fires(pfd[k].revents, p.1)
    {
      call, calls, checked := None, [], [];
      pfd := st.pfd;
      if pfd == [] {
        return true, pfd, call, calls, checked;
      }
      var c := PollCall(st.count, PollTimeout(st.timeout));
      call := Some(c);
      var ans := poll(c);
      pfd := WithRevents(pfd, st.count, ans.revents);
      if ans.ret < 0 {
        return false, pfd, call, calls, checked;
      }
      if ans.ret > 0 {
        ghost var table, live, en := handlers, Live(), Enabled();
        calls := Dispatch(st.count, pfd, st.ind, after);
        DispatchOnlyReady(0, st.count, st.ind, Revents(pfd), table, live, en, after);
      }
      if st.first != BadHandlerId {
        checked := FireTimers(st.first, st.more, later, onTimer);
      }
      ok := true;
    }

    /**
     * pollHandlers(timeout, pfd, ind): one round, on the vectors the caller
     * keeps between rounds. Scan the table, then serve the entries written.
     * Returns how the round ends, the vectors as left for the next round, the
     * poll() call made (if any), the callbacks made and the ids whose timers
     * were checked.
     */
    method PollHandlers(timeout: int, pfd0: seq<PollFd>, ind0: seq<HandlerId>, now: Time,
                        poll: PollCall -> PollAnswer, after: (HandlerId, Callback) -> Effect,
                        later: Time, onTimer: (HandlerId, TimerId) -> set<TimerId>)
      returns (round: Round, pfd: seq<PollFd>, ind: seq<HandlerId>, call: Option<PollCall>,
               calls: seq<(HandlerId, Callback)>, checked: seq<HandlerId>)
      requires Valid()
      modifies this, Objects()
      ensures Valid() && counter == old(counter) && Objects() <= old(Objects())
      ensures var scan := ScanAll(ScanStart(pfd0, ind0, timeout), SortedKeys(old(handlers).Keys), old(Views()), now);
        (round.Hangs? <==> scan.Spins?) &&
        (scan.Spins? ==>
          round == Hangs(scan.at) && call == None && calls == [] && checked == [] &&
          handlers == old(handlers) - scan.prunedBefore) &&
        (scan.Done? ==> ind == scan.st.ind && (call == None <==> scan.st.pfd == []))
      ensures var scan := ScanAll(ScanStart(pfd0, ind0, timeout), SortedKeys(old(handlers).Keys), old(Views()), now);
        scan.Done? && scan.st.pfd == [] ==>
          round == Returns(true) && pfd == [] && calls == [] && checked == [] && handlers == old(handlers) - scan.st.pruned
      ensures var scan := ScanAll(ScanStart(pfd0, ind0, timeout), SortedKeys(old(handlers).Keys), old(Views()), now);
        scan.Done? && scan.st.pfd != [] ==>
          var c := PollCall(scan.st.count, PollTimeout(scan.st.timeout));
          var ans := poll(c);
          call == Some(c) && pfd == WithRevents(scan.st.pfd, scan.st.count, ans.revents) &&
          round == Returns(ans.ret >= 0) &&
          (ans.ret <= 0 ==> calls == []) &&
          (ans.ret < 0 || scan.st.first == BadHandlerId ==> checked == []) &&
          (ans.ret < 0 ==> handlers == old(handlers) - scan.st.pruned)
      ensures forall p :: p in calls ==>
        p.0 in old(handlers) && exists k :: 0 <= k < |ind| && ind[k] == p.0 && k < |pfd| && Fires(pfd[k].revents, p.1)
    {
      var scan := ScanTable(timeout, pfd0, ind0, now);
      if scan.Spins? {
        return Hangs(scan.at), [], [], None, [], [];
      }
      var ok;
      ind := scan.st.ind;
      ok, pfd, call, calls, checked := Serve(scan.st, poll, after, later, onTimer);
      round := Returns(ok);
    }

    /** pollHandlers(timeout): one round on fresh, empty vectors. */
    method PollOnce(timeout: int, now: Time, poll: PollCall -> PollAnswer, after: (HandlerId, Callback) -> Effect,
                    later: Time, onTimer: (HandlerId, TimerId) -> set<TimerId>) returns (round: Round)
      requires Valid()
      modifies this, Objects()
      ensures Valid() && counter == old(counter)
      ensures var scan := ScanAll(ScanStart([], [], timeout), SortedKeys(old(handlers).Keys), old(Views()), now);
        (round.Hangs? <==> scan.Spins?) &&
        (scan.Done? && Polled(SortedKeys(old(handlers).Keys), old(Views())) == [] ==> round == Returns(true)) &&
        (scan.Done? && Polled(SortedKeys(old(handlers).Keys), old(Views())) != [] ==>
          round == Returns(poll(PollCall(scan.st.count, PollTimeout(scan.st.timeout))).ret >= 0))
    {
      ghost var ids, views := SortedKeys(handlers.Keys), Views();
      SortedKeysEnumerate(handlers.Keys);
      FreshVectorsPollIffPolled(timeout, ids, views, now);
      var pfd, ind, call, calls, checked;
      round, pfd, ind, call, calls, checked := PollHandlers(timeout, [], [], now, poll, after, later, onTimer);
    }

    /**
     * exec: rounds with the largest timeout on vectors kept from one round to
     * the next, for as long as pollHandlers returns true. The rounds' clock
     * readings and system answers are given in `envs`; the loop stops early
     * exactly when a round hangs or returns false, and `last` is that round
     * (Returns(true) when every given round returned true). On a stuck
     * table the first round hangs, so exec never returns.
     */
    method Exec(envs: seq<Env>) returns (rounds: nat, last: Round)
      requires Valid()
      modifies this, Objects()
      ensures Valid() && counter == old(counter)
      ensures rounds <= |envs| && (last == Returns(true) <==> rounds == |envs|)
      ensures old(Stuck()) ==> rounds == 0 && (|envs| > 0 ==> last.Hangs?)
    {
      ghost var stuck := Stuck();
      if stuck && |envs| > 0 {
        StuckSpins([], [], MsMax, envs[0].now);
      }
      var pfd: seq<PollFd>, ind: seq<HandlerId> := [], [];
      rounds, last := 0, Returns(true);
      while rounds < |envs|
        invariant rounds <= |envs| && last == Returns(true)
        invariant Valid() && counter == old(counter) && Objects() <= old(Objects())
        invariant stuck ==> rounds == 0
        invariant stuck && rounds == 0 && |envs| > 0 ==>
          ScanAll(ScanStart(pfd, ind, MsMax), SortedKeys(handlers.Keys), Views(), envs[0].now).Spins?
      {
        var e := envs[rounds];
        var call, calls, checked;
        var r;
        r, pfd, ind, call, calls, checked := PollHandlers(MsMax, pfd, ind, e.now, e.poll, e.after, e.later, e.onTimer);
        if r != Returns(true) {
          last := r;
          return;
        }
        rounds := rounds + 1;
      }
    }
  }
}
