/** The fixed-window rate limiter that guards login and token refresh. */
module RateLimiting {
  import opened Results

  /** Requests let through since `windowStart`. */
  datatype LimitInfo = LimitInfo(count: int, windowStart: int)

  datatype Verdict = Verdict(allowed: bool, info: LimitInfo)

  function Lookup(table: map<string, LimitInfo>, key: string): Option<LimitInfo> {
    if key in table then Some(table[key]) else None
  }

  /** What one call decides, and the entry it leaves behind: a refused call leaves the entry as it was. */
  function Decide(entry: Option<LimitInfo>, now: int, maxReq: int, window: int): Verdict {
    if entry.None? || now - entry.value.windowStart > window then Verdict(true, LimitInfo(1, now))
    else if entry.value.count + 1 > maxReq then Verdict(false, entry.value)
    else Verdict(true, entry.value.(count := entry.value.count + 1))
  }

  class RateLimiter {
    var keyLimit: map<string, LimitInfo>
    const maxReq: int
    const window: int

    constructor (maxReq: int, window: int)
      ensures keyLimit == map[] && this.maxReq == maxReq && this.window == window
    {
      this.keyLimit := map[];
      this.maxReq := maxReq;
      this.window := window;
    }

    /** One call at time `now`; the mutex of the original makes it atomic. */
    method Allow(key: string, now: int) returns (allowed: bool)
      modifies this`keyLimit
      ensures var verdict := Decide(Lookup(old(keyLimit), key), now, maxReq, window);
        allowed == verdict.allowed && keyLimit == old(keyLimit)[key := verdict.info]
    {
      if key !in keyLimit || now - keyLimit[key].windowStart > window {
        keyLimit := keyLimit[key := LimitInfo(1, now)];
        return true;
      }
      var info := keyLimit[key];
      info := info.(count := info.count + 1);
      if info.count > maxReq {
        assert keyLimit == keyLimit[key := keyLimit[key]];
        return false;
      }
      keyLimit := keyLimit[key := info];
      return true;
    }
  }

  // ----- Runs -----

  datatype Call = Call(key: string, now: int)

  datatype Limits = Limits(maxReq: int, window: int)

  /** The table after a run of calls. */
  function TableAfter(calls: seq<Call>, lim: Limits): map<string, LimitInfo> {
    if calls == [] then map[]
    else
      var before := TableAfter(calls[..|calls| - 1], lim);
      var last := calls[|calls| - 1];
      before[last.key := Decide(Lookup(before, last.key), last.now, lim.maxReq, lim.window).info]
  }

  /** Whether the last call of a run is let through. */
  predicate LastAllowed(calls: seq<Call>, lim: Limits)
    requires calls != []
  {
    var last := calls[|calls| - 1];
    Decide(Lookup(TableAfter(calls[..|calls| - 1], lim), last.key), last.now, lim.maxReq, lim.window).allowed
  }

  ghost predicate InTimeOrder(calls: seq<Call>) {
    forall i, j :: 0 <= i < j < |calls| ==> calls[i].now <= calls[j].now
  }

  /** Calls on `key` with a time in `[from, to]` that were let through. */
  function AllowedBetween(calls: seq<Call>, lim: Limits, key: string, from: int, to: int): nat {
    if calls == [] then 0
    else
      var last := calls[|calls| - 1];
      AllowedBetween(calls[..|calls| - 1], lim, key, from, to)
      + if last.key == key && from <= last.now <= to && LastAllowed(calls, lim) then 1 else 0
  }

  /** Calls on `key` that were let through while the entry's window began at `start`. */
  function AllowedInWindow(calls: seq<Call>, lim: Limits, key: string, start: int): nat {
    if calls == [] then 0
    else
      AllowedInWindow(calls[..|calls| - 1], lim, key, start)
      + if calls[|calls| - 1].key == key && LastAllowed(calls, lim)
           && key in TableAfter(calls, lim) && TableAfter(calls, lim)[key].windowStart == start
        then 1 else 0
  }

  /** A window lets through its limit, but never fewer than the call that opens it. */
  function WindowCap(maxReq: int): int {
    if maxReq < 1 then 1 else maxReq
  }

  /** The entry of a key never starts in the future and never counts past the cap. */
  lemma {:induction false} EntryBounds(calls: seq<Call>, lim: Limits, key: string)
    requires InTimeOrder(calls)
    ensures key in TableAfter(calls, lim) ==>
      var info := TableAfter(calls, lim)[key];
      && 1 <= info.count <= WindowCap(lim.maxReq)
      && calls != [] && info.windowStart <= calls[|calls| - 1].now
  {
    if calls != [] {
      EntryBounds(calls[..|calls| - 1], lim, key);
    }
  }

  /** What an interval no longer than the window can have collected so far:
      everything in the current window, one full window more, or two full windows with the current one beyond it. */
  ghost predicate IntervalBound(calls: seq<Call>, lim: Limits, key: string, from: int, to: int) {
    var n := AllowedBetween(calls, lim, key, from, to);
    match Lookup(TableAfter(calls, lim), key)
    case None => n == 0
    case Some(info) =>
      || n <= info.count
      || (n <= WindowCap(lim.maxReq) + info.count && from <= info.windowStart)
      || (n <= 2 * WindowCap(lim.maxReq) && to < info.windowStart)
  }

  lemma {:induction false} NothingBefore(calls: seq<Call>, lim: Limits, key: string, from: int, to: int)
    requires InTimeOrder(calls)
    requires calls != [] ==> calls[|calls| - 1].now < from
    ensures AllowedBetween(calls, lim, key, from, to) == 0
  {
    if calls != [] {
      NothingBefore(calls[..|calls| - 1], lim, key, from, to);
    }
  }

  lemma {:induction false} IntervalBoundHolds(calls: seq<Call>, lim: Limits, key: string, from: int, to: int)
    requires InTimeOrder(calls) && 0 <= lim.window && to - from <= lim.window
    ensures IntervalBound(calls, lim, key, from, to)
  {
    if calls != [] {
      var before := calls[..|calls| - 1];
      IntervalBoundHolds(before, lim, key, from, to);
      EntryBounds(before, lim, key);
      if calls[|calls| - 1].now < from {
        NothingBefore(before, lim, key, from, to);
      }
    }
  }

  /** Any interval no longer than the window lets at most twice the cap through, whatever other keys do. */
  lemma SlidingIntervalBound(calls: seq<Call>, lim: Limits, key: string, from: int, to: int)
    requires InTimeOrder(calls) && 0 <= lim.window && to - from <= lim.window
    ensures AllowedBetween(calls, lim, key, from, to) <= 2 * WindowCap(lim.maxReq)
  {
    IntervalBoundHolds(calls, lim, key, from, to);
    EntryBounds(calls, lim, key);
  }

  /** A counting window's own calls are exactly what its entry counted, so it never passes the cap. */
  lemma {:induction false} CountingWindowBound(calls: seq<Call>, lim: Limits, key: string, start: int)
    requires InTimeOrder(calls) && 0 <= lim.window
    ensures AllowedInWindow(calls, lim, key, start) <= WindowCap(lim.maxReq)
    ensures key in TableAfter(calls, lim) && TableAfter(calls, lim)[key].windowStart == start ==>
      AllowedInWindow(calls, lim, key, start) == TableAfter(calls, lim)[key].count
    ensures (key in TableAfter(calls, lim) ==> TableAfter(calls, lim)[key].windowStart < start) ==>
      AllowedInWindow(calls, lim, key, start) == 0
  {
    if calls != [] {
      var before := calls[..|calls| - 1];
      CountingWindowBound(before, lim, key, start);
      EntryBounds(before, lim, key);
      EntryBounds(calls, lim, key);
    }
  }

  /** The configured limit bounds every counting window of every run exactly when it is at least one. */
  lemma LimitRespectedIffPositive(lim: Limits)
    requires 0 <= lim.window
    ensures lim.maxReq >= 1 <==>
      forall calls, key, start | InTimeOrder(calls) :: AllowedInWindow(calls, lim, key, start) <= lim.maxReq
  {
    if lim.maxReq >= 1 {
      forall calls, key, start | InTimeOrder(calls)
        ensures AllowedInWindow(calls, lim, key, start) <= lim.maxReq
      {
        CountingWindowBound(calls, lim, key, start);
      }
    } else {
      var one := [Call("k", 0)];
      CountingWindowBound(one, lim, "k", 0);
      assert one[..0] == [];
      assert InTimeOrder(one) && AllowedInWindow(one, lim, "k", 0) == 1;
    }
  }

  // ----- Which calls are let through -----

  /** The key's window is still open at the time. */
  predicate WindowOpen(calls: seq<Call>, lim: Limits, key: string, now: int) {
    key in TableAfter(calls, lim) && now - TableAfter(calls, lim)[key].windowStart <= lim.window
  }

  /** A call is let through exactly if no window of its key is open, or the open one has let fewer through than the
      limit. */
  lemma AllowedExactly(calls: seq<Call>, lim: Limits)
    requires calls != [] && InTimeOrder(calls) && 0 <= lim.window
    ensures var before, last := calls[..|calls| - 1], calls[|calls| - 1];
      LastAllowed(calls, lim) <==>
        !WindowOpen(before, lim, last.key, last.now)
        || AllowedInWindow(before, lim, last.key, TableAfter(before, lim)[last.key].windowStart) < lim.maxReq
  {
    var before, key := calls[..|calls| - 1], calls[|calls| - 1].key;
    if key in TableAfter(before, lim) {
      CountingWindowBound(before, lim, key, TableAfter(before, lim)[key].windowStart);
    }
  }

  /** What an entry counted was let through since its window began. */
  lemma {:induction false} CountedSince(calls: seq<Call>, lim: Limits, key: string, from: int, to: int)
    requires InTimeOrder(calls) && (calls != [] ==> calls[|calls| - 1].now <= to)
    ensures key in TableAfter(calls, lim) && from <= TableAfter(calls, lim)[key].windowStart ==>
      AllowedBetween(calls, lim, key, from, to) >= TableAfter(calls, lim)[key].count
  {
    if calls != [] {
      CountedSince(calls[..|calls| - 1], lim, key, from, to);
      EntryBounds(calls[..|calls| - 1], lim, key);
    }
  }

  /** A call with fewer than the limit let through on its key over the last window length is always let through. */
  lemma BelowLimitAllowed(calls: seq<Call>, lim: Limits)
    requires calls != [] && InTimeOrder(calls) && 0 <= lim.window
    requires var before, last := calls[..|calls| - 1], calls[|calls| - 1];
      AllowedBetween(before, lim, last.key, last.now - lim.window, last.now) < lim.maxReq
    ensures LastAllowed(calls, lim)
  {
    var before, last := calls[..|calls| - 1], calls[|calls| - 1];
    CountedSince(before, lim, last.key, last.now - lim.window, last.now);
  }

  /** A call on one key leaves every other key's entry alone. */
  lemma KeysAreIndependent(calls: seq<Call>, lim: Limits, call: Call, key: string)
    requires key != call.key
    ensures Lookup(TableAfter(calls + [call], lim), key) == Lookup(TableAfter(calls, lim), key)
  {
    assert (calls + [call])[..|calls|] == calls;
  }
}
