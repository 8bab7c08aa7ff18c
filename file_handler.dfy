/**
 * Per-descriptor handler state (FileHandler): the descriptor, two flag bits
 * (enabled, write requested) and a deadline-ordered multimap of timers.
 *
 * Time points of the steady clock are integers in milliseconds; the clock is
 * never read here, callers pass `now`. The multimap is a sequence kept in
 * deadline order, a new entry going after every entry with an equal deadline
 * (where std::multimap::emplace puts it).
 */
module Handlers {

  const U32: int := 0x1_0000_0000

  /** An `unsigned int`. */
  type U32Int = x: int | 0 <= x < U32

  type TimerId = U32Int

  /** A point of the steady clock, in milliseconds. */
  type Time = int

  /** steady_clock::time_point::max(), what getClosestTime answers when no timer is pending. */
  const TimeMax: Time := 0x7FFF_FFFF_FFFF_FFFF

  /** Flag bits of m_flags. */
  const StateFlag: bv32 := 0x1
  const PollOutFlag: bv32 := 0x2

  datatype TimerEntry = TimerEntry(deadline: Time, id: TimerId)

  ghost predicate Sorted(ts: seq<TimerEntry>) {
    forall i, j :: 0 <= i < j < |ts| ==> ts[i].deadline <= ts[j].deadline
  }

  /** Number of leading entries whose deadline is at or before `d`. */
  function Split(ts: seq<TimerEntry>, d: Time): (k: nat)
    ensures k <= |ts|
  {
    if ts == [] || ts[0].deadline > d then 0 else 1 + Split(ts[1..], d)
  }

  /** std::multimap::emplace: the new entry goes after every entry whose deadline is not later. */
  function Insert(ts: seq<TimerEntry>, e: TimerEntry): seq<TimerEntry>
  {
    if ts == [] || ts[0].deadline > e.deadline then [e] + ts
    else [ts[0]] + Insert(ts[1..], e)
  }

  /** The new entry is placed right after the leading entries whose deadline is not later than its own. */
  lemma {:induction false} InsertPlacement(ts: seq<TimerEntry>, e: TimerEntry)
    ensures Insert(ts, e) == ts[..Split(ts, e.deadline)] + [e] + ts[Split(ts, e.deadline)..]
  {
    if ts != [] && ts[0].deadline <= e.deadline {
      InsertPlacement(ts[1..], e);
      assert ts == [ts[0]] + ts[1..];
    }
  }

  /** The entries whose id is not in `ids`, in their order. */
  function Drop(ts: seq<TimerEntry>, ids: set<TimerId>): (r: seq<TimerEntry>)
    ensures |r| <= |ts|
  {
    if ts == [] then []
    else if ts[0].id in ids then Drop(ts[1..], ids)
    else [ts[0]] + Drop(ts[1..], ids)
  }

  /** Drop keeps exactly the entries whose id is not in `ids`. */
  lemma {:induction false} DropMembers(ts: seq<TimerEntry>, ids: set<TimerId>)
    ensures forall e :: e in Drop(ts, ids) <==> e in ts && e.id !in ids
  {
    if ts != [] {
      DropMembers(ts[1..], ids);
      assert ts == [ts[0]] + ts[1..];
    }
  }

  /** The entries with id `id`, in their order. */
  function Only(ts: seq<TimerEntry>, id: TimerId): (r: seq<TimerEntry>)
    ensures forall e :: e in r <==> e in ts && e.id == id
  {
    if ts == [] then []
    else if ts[0].id == id then [ts[0]] + Only(ts[1..], id)
    else Only(ts[1..], id)
  }

  lemma {:induction false} DropAppend(a: seq<TimerEntry>, b: seq<TimerEntry>, ids: set<TimerId>)
    ensures Drop(a + b, ids) == Drop(a, ids) + Drop(b, ids)
  {
    if a != [] {
      assert (a + b)[1..] == a[1..] + b;
      DropAppend(a[1..], b, ids);
    } else {
      assert a + b == b;
    }
  }

  /** The position facts the erase loop of stopTimer relies on. */
  lemma Splice(kept: seq<TimerEntry>, ts: seq<TimerEntry>, n: nat)
    requires n < |ts|
    ensures (kept + ts[n..])[|kept|] == ts[n]
    ensures (kept + ts[n..])[..|kept|] + (kept + ts[n..])[|kept| + 1..] == kept + ts[n + 1..]
    ensures kept + ts[n..] == (kept + [ts[n]]) + ts[n + 1..]
  {
    var t := kept + ts[n..];
    assert t[..|kept|] == kept;
    assert t[|kept| + 1..] == ts[n + 1..];
    assert ts[n..] == [ts[n]] + ts[n + 1..];
  }

  /** Extending a prefix by one entry extends what Drop keeps by that entry, unless its id is dropped. */
  lemma DropStep(ts: seq<TimerEntry>, n: nat, ids: set<TimerId>)
    requires n < |ts|
    ensures Drop(ts[..n + 1], ids) == Drop(ts[..n], ids) + (if ts[n].id in ids then [] else [ts[n]])
  {
    assert ts[..n + 1] == ts[..n] + [ts[n]];
    DropAppend(ts[..n], [ts[n]], ids);
  }

  lemma {:induction false} OnlyAppend(a: seq<TimerEntry>, b: seq<TimerEntry>, id: TimerId)
    ensures Only(a + b, id) == Only(a, id) + Only(b, id)
  {
    if a != [] {
      assert (a + b)[1..] == a[1..] + b;
      OnlyAppend(a[1..], b, id);
    } else {
      assert a + b == b;
    }
  }

  /** Dropping entries keeps a deadline-ordered list ordered. */
  lemma {:induction false} DropSorted(ts: seq<TimerEntry>, ids: set<TimerId>)
    requires Sorted(ts)
    ensures Sorted(Drop(ts, ids))
  {
    if ts != [] {
      SortedTail(ts);
      DropSorted(ts[1..], ids);
      if ts[0].id !in ids {
        HeadEarliest(ts);
        DropMembers(ts[1..], ids);
        SortedCons(ts[0], Drop(ts[1..], ids));
      }
    }
  }

  /** A new entry lands after the entries not later than it and before the later ones, so order is kept. */
  lemma {:induction false} InsertSorted(ts: seq<TimerEntry>, e: TimerEntry)
    requires Sorted(ts)
    ensures Sorted(Insert(ts, e))
    ensures forall i :: 0 <= i < Split(ts, e.deadline) ==> ts[i].deadline <= e.deadline
    ensures forall i :: Split(ts, e.deadline) <= i < |ts| ==> ts[i].deadline > e.deadline
  {
    SplitBounds(ts, e.deadline);
    InsertPlacement(ts, e);
    var k := Split(ts, e.deadline);
    var r := Insert(ts, e);
    assert |r| == |ts| + 1;
    assert forall i :: 0 <= i < k ==> r[i] == ts[i];
    assert r[k] == e;
    assert forall i :: k < i < |r| ==> r[i] == ts[i - 1];
    forall i, j | 0 <= i < j < |r| ensures r[i].deadline <= r[j].deadline {
      if j < k {
      } else if j == k {
      } else if i < k {
        assert ts[i].deadline <= ts[j - 1].deadline;
      } else if i == k {
      } else {
        assert ts[i - 1].deadline <= ts[j - 1].deadline;
      }
    }
  }

  lemma {:induction false} SplitBounds(ts: seq<TimerEntry>, d: Time)
    requires Sorted(ts)
    ensures forall i :: 0 <= i < Split(ts, d) ==> ts[i].deadline <= d
    ensures forall i :: Split(ts, d) <= i < |ts| ==> ts[i].deadline > d
  {
    if ts != [] && ts[0].deadline <= d {
      SplitBounds(ts[1..], d);
      forall i | 0 <= i < Split(ts, d) ensures ts[i].deadline <= d {
        if i > 0 { assert ts[i] == ts[1..][i - 1]; }
      }
      forall i | Split(ts, d) <= i < |ts| ensures ts[i].deadline > d {
        assert ts[i] == ts[1..][i - 1];
      }
    }
  }

  /**
   * startTimer with reset_prev: afterwards exactly one entry carries `id`,
   * it has the new deadline, and the entries of every other id are the same
   * entries in the same order.
   */
  lemma ResetTimerLeavesOne(ts: seq<TimerEntry>, e: TimerEntry)
    ensures Only(Insert(Drop(ts, {e.id}), e), e.id) == [e]
    ensures Drop(Insert(Drop(ts, {e.id}), e), {e.id}) == Drop(ts, {e.id})
  {
    var d := Drop(ts, {e.id});
    var k := Split(d, e.deadline);
    DropMembers(ts, {e.id});
    InsertPlacement(d, e);
    assert d == d[..k] + d[k..];
    assert forall x :: x in d[..k] ==> x in d;
    assert forall x :: x in d[k..] ==> x in d;
    ResetOnly(d[..k], d[k..], e);
    ResetDrop(d[..k], d[k..], e);
    DropIdempotent(ts, {e.id});
  }

  /** An entry put between two runs that lack its id is the only one with that id. */
  lemma ResetOnly(a: seq<TimerEntry>, b: seq<TimerEntry>, e: TimerEntry)
    requires forall x :: x in a ==> x.id != e.id
    requires forall x :: x in b ==> x.id != e.id
    ensures Only(a + [e] + b, e.id) == [e]
  {
    OnlyAppend(a + [e], b, e.id);
    OnlyAppend(a, [e], e.id);
    OnlyNone(a, e.id);
    OnlyNone(b, e.id);
  }

  /** Dropping that entry's id again gives back the two runs. */
  lemma ResetDrop(a: seq<TimerEntry>, b: seq<TimerEntry>, e: TimerEntry)
    requires forall x :: x in a ==> x.id != e.id
    requires forall x :: x in b ==> x.id != e.id
    ensures Drop(a + [e] + b, {e.id}) == a + b
  {
    DropAppend(a + [e], b, {e.id});
    DropAppend(a, [e], {e.id});
    assert [e][1..] == [];
    assert Drop([e], {e.id}) == [];
    DropNone(a, {e.id});
    DropNone(b, {e.id});
    assert a + [] == a;
  }

  /** Without reset, the earlier entries of the id stay and the new one follows the ones not later than it. */
  lemma KeepPreviousTimers(ts: seq<TimerEntry>, e: TimerEntry)
    ensures forall x :: x in ts ==> x in Insert(ts, e)
    ensures |Only(Insert(ts, e), e.id)| == |Only(ts, e.id)| + 1
  {
    var k := Split(ts, e.deadline);
    InsertPlacement(ts, e);
    assert ts == ts[..k] + ts[k..];
    OnlyAppend(ts[..k] + [e], ts[k..], e.id);
    OnlyAppend(ts[..k], [e], e.id);
    OnlyAppend(ts[..k], ts[k..], e.id);
  }

  lemma {:induction false} OnlyNone(ts: seq<TimerEntry>, id: TimerId)
    requires forall x :: x in ts ==> x.id != id
    ensures Only(ts, id) == []
  {
    if ts != [] {
      assert ts[0] in ts;
      assert forall x :: x in ts[1..] ==> x in ts;
      OnlyNone(ts[1..], id);
    }
  }

  lemma {:induction false} DropNone(ts: seq<TimerEntry>, ids: set<TimerId>)
    requires forall x :: x in ts ==> x.id !in ids
    ensures Drop(ts, ids) == ts
  {
    if ts != [] {
      assert ts[0] in ts;
      assert forall x :: x in ts[1..] ==> x in ts;
      DropNone(ts[1..], ids);
      assert ts == [ts[0]] + ts[1..];
    }
  }

  lemma DropIdempotent(ts: seq<TimerEntry>, ids: set<TimerId>)
    ensures Drop(Drop(ts, ids), ids) == Drop(ts, ids)
  {
    DropMembers(ts, ids);
    DropNone(Drop(ts, ids), ids);
  }

  /**
   * The effect of checkTimer(now): entries are taken from the front while the
   * earliest deadline is not later than `now`; each is erased and then its
   * callback runs, which may stop timers of this handler (`onTimer` gives the
   * ids it stops). Result: the fired entries in firing order and the entries left.
   */
  function Fire(ts: seq<TimerEntry>, now: Time, onTimer: TimerId -> set<TimerId>): (r: (seq<TimerEntry>, seq<TimerEntry>))
    ensures r.1 == [] || r.1[0].deadline > now
    ensures (ts == [] || ts[0].deadline > now) ==> r.0 == [] && r.1 == ts
    decreases |ts|
  {
    if ts == [] || ts[0].deadline > now then ([], ts)
    else
      var rest := Drop(ts[1..], onTimer(ts[0].id));
      var next := Fire(rest, now, onTimer);
      ([ts[0]] + next.0, next.1)
  }

  /**
   * checkTimer only takes entries out: every fired entry was pending and due,
   * every entry left was pending, and no entry is both fired and left or fired twice.
   */
  lemma {:induction false} FireTakesFromList(ts: seq<TimerEntry>, now: Time, onTimer: TimerId -> set<TimerId>)
    ensures forall e :: e in Fire(ts, now, onTimer).0 ==> e in ts && e.deadline <= now
    ensures forall e :: e in Fire(ts, now, onTimer).1 ==> e in ts
    ensures |Fire(ts, now, onTimer).0| + |Fire(ts, now, onTimer).1| <= |ts|
    decreases |ts|
  {
    if ts != [] && ts[0].deadline <= now {
      var rest := Drop(ts[1..], onTimer(ts[0].id));
      FireTakesFromList(rest, now, onTimer);
      DropMembers(ts[1..], onTimer(ts[0].id));
      assert forall e :: e in rest ==> e in ts;
    }
  }

  /** One round of checkTimer: a due first entry is fired, then its callback's stops are applied. */
  lemma FireStep(ts: seq<TimerEntry>, now: Time, onTimer: TimerId -> set<TimerId>)
    requires Sorted(ts) && ts != [] && ts[0].deadline <= now
    ensures Sorted(Drop(ts[1..], onTimer(ts[0].id)))
    ensures Fire(ts, now, onTimer).0 == [ts[0]] + Fire(Drop(ts[1..], onTimer(ts[0].id)), now, onTimer).0
    ensures Fire(ts, now, onTimer).1 == Fire(Drop(ts[1..], onTimer(ts[0].id)), now, onTimer).1
  {
    SortedTail(ts);
    DropSorted(ts[1..], onTimer(ts[0].id));
  }

  lemma SortedTail(ts: seq<TimerEntry>)
    requires Sorted(ts) && ts != []
    ensures Sorted(ts[1..])
  {
    forall i, j | 0 <= i < j < |ts| - 1 ensures ts[1..][i].deadline <= ts[1..][j].deadline {
      assert ts[1..][i] == ts[i + 1] && ts[1..][j] == ts[j + 1];
    }
  }

  /** In an ordered list no entry is earlier than the first. */
  lemma HeadEarliest(ts: seq<TimerEntry>)
    requires Sorted(ts) && ts != []
    ensures forall e :: e in ts ==> ts[0].deadline <= e.deadline
  {
    forall e | e in ts ensures ts[0].deadline <= e.deadline {
      var k :| 0 <= k < |ts| && ts[k] == e;
    }
  }

  /** On an ordered list the fired entries come in non-decreasing deadline order and every entry left is later than `now`. */
  lemma {:induction false} FireOrdered(ts: seq<TimerEntry>, now: Time, onTimer: TimerId -> set<TimerId>)
    requires Sorted(ts)
    ensures Sorted(Fire(ts, now, onTimer).0)
    ensures Sorted(Fire(ts, now, onTimer).1)
    ensures forall e :: e in Fire(ts, now, onTimer).1 ==> e.deadline > now
    decreases |ts|
  {
    if ts == [] {
    } else if ts[0].deadline <= now {
      var rest := Drop(ts[1..], onTimer(ts[0].id));
      DropSorted(ts[1..], onTimer(ts[0].id));
      FireOrdered(rest, now, onTimer);
      HeadEarliest(ts);
      FireTakesFromList(rest, now, onTimer);
      DropMembers(ts[1..], onTimer(ts[0].id));
      var next := Fire(rest, now, onTimer);
      assert forall e :: e in next.0 ==> e in ts;
      SortedCons(ts[0], next.0);
    } else {
      HeadEarliest(ts);
    }
  }

  /** An entry not later than every entry of an ordered list can be put in front of it. */
  lemma SortedCons(e: TimerEntry, ts: seq<TimerEntry>)
    requires Sorted(ts) && forall x :: x in ts ==> e.deadline <= x.deadline
    ensures Sorted([e] + ts)
  {
    var r := [e] + ts;
    forall i, j | 0 <= i < j < |r| ensures r[i].deadline <= r[j].deadline {
      assert r[j] == ts[j - 1];
      if i > 0 {
        assert r[i] == ts[i - 1];
      }
    }
  }

  /** When every deadline is later than `now`, checkTimer fires nothing and keeps every entry. */
  lemma NothingDue(ts: seq<TimerEntry>, now: Time, onTimer: TimerId -> set<TimerId>)
    requires forall e :: e in ts ==> e.deadline > now
    ensures Fire(ts, now, onTimer) == ([], ts)
  {
    if ts != [] {
      assert ts[0] in ts;
    }
  }

  /** The default onTimer does nothing (and answers false): it stops no timer. */
  function DefaultOnTimer(id: TimerId): (stops: set<TimerId>)
    ensures stops == {}
  {
    {}
  }

  /** With callbacks that stop nothing, checkTimer fires exactly the due prefix of an ordered list. */
  lemma {:induction false} FireDuePrefix(ts: seq<TimerEntry>, now: Time)
    ensures Fire(ts, now, DefaultOnTimer) == (ts[..Split(ts, now)], ts[Split(ts, now)..])
    decreases |ts|
  {
    if ts != [] && ts[0].deadline <= now {
      DropNone(ts[1..], {});
      FireDuePrefix(ts[1..], now);
      assert ts[..Split(ts, now)] == [ts[0]] + ts[1..][..Split(ts[1..], now)];
    }
  }

  class FileHandler {
    /** m_fd: the descriptor given at construction; nothing reassigns it. */
    const fd: int
    /** m_flags: StateFlag (enabled) and PollOutFlag (write requested). */
    var flags: bv32
    /** m_timers, in multimap order. */
    var timers: seq<TimerEntry>
    /** False once the owning side has destroyed the handler (what a weak reference observes). */
    var alive: bool

    ghost predicate Valid()
      reads this
    {
      Sorted(timers)
    }

    /** A new handler is disabled, requests no write and has no timers. */
    constructor (fd: int)
      ensures Valid() && this.fd == fd && flags == 0 && timers == [] && alive
      ensures !IsEnabled() && !WriteRequired()
    {
      this.fd := fd;
      flags := 0;
      timers := [];
      alive := true;
    }

    function GetFd(): (r: int)
      ensures r == fd
    {
      fd
    }

    predicate IsFlag(flag: bv32)
      reads this
    {
      flags & flag == flag
    }

    predicate IsEnabled()
      reads this
    {
      IsFlag(StateFlag)
    }

    predicate WriteRequired()
      reads this
    {
      IsFlag(PollOutFlag)
    }

    /** setState: only the enabled bit changes. */
    method SetState(enable: bool)
      modifies this
      ensures timers == old(timers) && alive == old(alive)
      ensures IsEnabled() == enable && WriteRequired() == old(WriteRequired())
      ensures flags & !StateFlag == old(flags) & !StateFlag
    {
      if enable {
        flags := flags | StateFlag;
      } else {
        flags := flags & !StateFlag;
      }
    }

    /** setWriteRequest: only the poll-out bit changes. */
    method SetWriteRequest(enable: bool)
      modifies this
      ensures timers == old(timers) && alive == old(alive)
      ensures WriteRequired() == enable && IsEnabled() == old(IsEnabled())
      ensures flags & !PollOutFlag == old(flags) & !PollOutFlag
    {
      if enable {
        flags := flags | PollOutFlag;
      } else {
        flags := flags & !PollOutFlag;
      }
    }

    /**
     * startTimer(timerId, ms, reset_prev = true): the deadline is `now + ms`;
     * with reset_prev the entries of the id are removed first. Always true.
     */
    method StartTimer(timerId: TimerId, ms: int, resetPrev: bool, now: Time) returns (ok: bool)
      requires Valid()
      modifies this
      ensures Valid() && ok
      ensures flags == old(flags) && alive == old(alive)
      ensures timers == Insert(if resetPrev then Drop(old(timers), {timerId}) else old(timers), TimerEntry(now + ms, timerId))
    {
      var deadline := now + ms;
      if resetPrev {
        StopTimer(timerId);
      }
      InsertSorted(timers, TimerEntry(deadline, timerId));
      timers := Insert(timers, TimerEntry(deadline, timerId));
      ok := true;
    }

    /**
     * stopTimer(timerId): erase every entry with that id while walking the
     * multimap. (The C++ function is declared bool but has no return
     * statement; no value is modelled.)
     */
    method StopTimer(timerId: TimerId)
      requires Valid()
      modifies this
      ensures Valid() && flags == old(flags) && alive == old(alive)
      ensures timers == Drop(old(timers), {timerId})
    {
      ghost var orig := timers;
      ghost var n := 0;
      ghost var kept: seq<TimerEntry> := [];
      var i := 0;
      while i < |timers|
        invariant 0 <= n <= |orig| && i == |kept|
        invariant kept == Drop(orig[..n], {timerId})
        invariant timers == kept + orig[n..]
        invariant flags == old(flags) && alive == old(alive)
        decreases |timers| - i
      {
        DropStep(orig, n, {timerId});
        Splice(kept, orig, n);
        if timers[i].id == timerId {
          timers := timers[..i] + timers[i + 1..];
        } else {
          kept := kept + [orig[n]];
          i := i + 1;
        }
        n := n + 1;
      }
      assert orig[..n] == orig;
      DropSorted(orig, {timerId});
    }

    /** getClosestTime: the earliest pending deadline, or TimeMax when none is pending. */
    function GetClosestTime(): (t: Time)
      reads this
      ensures timers == [] ==> t == TimeMax
      ensures timers != [] ==> t == timers[0].deadline
      ensures Valid() ==> forall e :: e in timers ==> t <= e.deadline || t == TimeMax
    {
      if timers != [] then
        assert Valid() ==> forall e :: e in timers ==> timers[0].deadline <= e.deadline by {
          if Valid() {
            forall e | e in timers ensures timers[0].deadline <= e.deadline {
              var k :| 0 <= k < |timers| && timers[k] == e;
            }
          }
        }
        timers[0].deadline
      else TimeMax
    }

    /**
     * checkTimer(now): while the earliest entry is due, erase it and then call
     * onTimer with its id. The callback only stops timers of this handler.
     */
    method CheckTimer(now: Time, onTimer: TimerId -> set<TimerId>) returns (fired: seq<TimerEntry>)
      requires Valid()
      modifies this
      ensures Valid() && flags == old(flags) && alive == old(alive)
      ensures (fired, timers) == Fire(old(timers), now, onTimer)
    {
      ghost var whole := Fire(timers, now, onTimer);
      fired := [];
      assert whole.0 == fired + Fire(timers, now, onTimer).0;
      while true
        invariant Valid() && flags == old(flags) && alive == old(alive)
        invariant whole.0 == fired + Fire(timers, now, onTimer).0
        invariant whole.1 == Fire(timers, now, onTimer).1
        decreases |timers|
      {
        if timers == [] || timers[0].deadline > now {
          assert Fire(timers, now, onTimer) == ([], timers);
          assert fired + [] == fired;
          break;
        }
        var entry := timers[0];
        ghost var firedBefore := fired;
        FireStep(timers, now, onTimer);
        timers := timers[1..];
        fired := fired + [entry];
        var stops := onTimer(entry.id);
        timers := Drop(timers, stops);
        assert firedBefore + ([entry] + Fire(timers, now, onTimer).0) == fired + Fire(timers, now, onTimer).0;
      }
    }

    /** The destructor: the descriptor is closed unless it is -1. */
    method Destroy() returns (closed: seq<int>)
      modifies this
      ensures !alive && flags == old(flags) && timers == old(timers)
      ensures closed == if fd != -1 then [fd] else []
    {
      alive := false;
      closed := if fd != -1 then [fd] else [];
    }
  }
}
