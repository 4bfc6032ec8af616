/** Row locks of concurrent ledger calls: each call takes its locks one by one and keeps them to its end. */
module LockOrder {

  ghost predicate Ascending(plan: seq<int>) {
    forall a, b :: 0 <= a < b < |plan| ==> plan[a] < plan[b]
  }

  // ----- The plans of the ledger calls -----

  /** Transfers and transfer reversals lock both locations; guarded expenses, transaction and payment
      reversals and opening balances lock the one location they touch. */
  datatype Call = MoveFunds(from: int, to: int) | TouchLocation(location: int)

  /** Two locations are locked in ascending id, whichever way the money moves. */
  function LockPlan(call: Call): (plan: seq<int>)
    ensures call.MoveFunds? && call.from != call.to ==>
      Ascending(plan) && multiset(plan) == multiset{call.from, call.to}
    ensures call.TouchLocation? ==> Ascending(plan) && multiset(plan) == multiset{call.location}
  {
    match call
    case MoveFunds(from, to) => if from > to then [to, from] else [from, to]
    case TouchLocation(location) => [location]
  }

  /** A call with the locks it takes in order, how many it holds, and whether it has ended. */
  datatype Caller = Caller(plan: seq<int>, held: nat, done: bool)

  type State = seq<Caller>

  ghost predicate Holds(c: Caller, lock: int) {
    !c.done && c.held <= |c.plan| && lock in c.plan[..c.held]
  }

  ghost predicate Free(s: State, lock: int) {
    forall j :: 0 <= j < |s| ==> !Holds(s[j], lock)
  }

  /** `i` waits for a lock that `j` holds. */
  ghost predicate WaitsFor(s: State, i: nat, j: nat) {
    && i < |s| && j < |s| && i != j
    && Blockable(s, i) && Holds(s[j], Wanted(s, i))
  }

  ghost predicate CanAdvance(s: State, i: nat) {
    && i < |s| && !s[i].done && s[i].held <= |s[i].plan|
    && (s[i].held < |s[i].plan| ==> Free(s, s[i].plan[s[i].held]))
  }

  /** Take the next lock, or commit and release everything when the plan is complete. */
  function Advance(s: State, i: nat): State
    requires i < |s|
  {
    if s[i].held < |s[i].plan| then s[i := s[i].(held := s[i].held + 1)]
    else s[i := s[i].(done := true)]
  }

  /** An error or a crash rolls the call back and releases everything. */
  function Abort(s: State, i: nat): State
    requires i < |s|
  {
    s[i := s[i].(done := true)]
  }

  function Arrive(s: State, plan: seq<int>): State {
    s + [Caller(plan, 0, false)]
  }

  datatype Event = Advances(caller: nat) | Aborts(caller: nat) | Arrives(call: Call)

  ghost predicate Enabled(s: State, e: Event) {
    match e
    case Advances(i) => CanAdvance(s, i)
    case Aborts(i) => i < |s|
    case Arrives(call) => call.MoveFunds? ==> call.from != call.to
  }

  function Apply(s: State, e: Event): State
    requires e.Arrives? || e.caller < |s|
  {
    match e
    case Advances(i) => Advance(s, i)
    case Aborts(i) => Abort(s, i)
    case Arrives(call) => Arrive(s, LockPlan(call))
  }

  /** `trace` is a run from no callers at all, with any interleaving. */
  ghost predicate IsRun(trace: seq<State>, events: seq<Event>) {
    && |trace| == |events| + 1 && trace[0] == []
    && forall k :: 0 <= k < |events| ==> Enabled(trace[k], events[k]) && trace[k + 1] == Apply(trace[k], events[k])
  }

  /** Nothing but call `i` changes. */
  ghost predicate OnlyCaller(s: State, i: nat, t: State) {
    |t| == |s| && forall j :: 0 <= j < |s| && j != i ==> t[j] == s[j]
  }

  /** An advancing call takes exactly its next lock, or ends when it has them all; an ended or aborted call holds
      nothing; a new call begins with no lock, after the others. */
  lemma EventEffect(s: State, e: Event)
    requires Enabled(s, e)
    ensures var t := Apply(s, e);
      match e
      case Advances(i) =>
        && OnlyCaller(s, i, t) && t[i].plan == s[i].plan && (t[i].done <==> s[i].held == |s[i].plan|)
        && (forall lock :: Holds(t[i], lock) <==>
              s[i].held < |s[i].plan| && (Holds(s[i], lock) || lock == s[i].plan[s[i].held]))
      case Aborts(i) => OnlyCaller(s, i, t) && t[i].done && forall lock :: !Holds(t[i], lock)
      case Arrives(call) =>
        && |t| == |s| + 1 && (forall j :: 0 <= j < |s| ==> t[j] == s[j])
        && !t[|s|].done && t[|s|].plan == LockPlan(call) && forall lock :: !Holds(t[|s|], lock)
  {
    if e.Advances? && s[e.caller].held < |s[e.caller].plan| {
      forall lock
        ensures Holds(Apply(s, e)[e.caller], lock) <==>
          Holds(s[e.caller], lock) || lock == s[e.caller].plan[s[e.caller].held]
      {
        AcquireHolds(s[e.caller], lock);
      }
    }
  }

  ghost predicate Exclusive(s: State) {
    forall i, j, lock :: 0 <= i < |s| && 0 <= j < |s| && Holds(s[i], lock) && Holds(s[j], lock) ==> i == j
  }

  ghost predicate Valid(s: State) {
    && (forall i :: 0 <= i < |s| ==> Ascending(s[i].plan) && s[i].held <= |s[i].plan|)
    && Exclusive(s)
  }

  lemma AcquireHolds(c: Caller, lock: int)
    requires !c.done && c.held < |c.plan|
    ensures Holds(c.(held := c.held + 1), lock) <==> Holds(c, lock) || lock == c.plan[c.held]
  {
    assert c.plan[..c.held + 1] == c.plan[..c.held] + [c.plan[c.held]];
  }

  /** A call that takes one more free lock. */
  lemma TakingKeepsValid(s: State, i: nat)
    requires Valid(s) && CanAdvance(s, i) && s[i].held < |s[i].plan|
    ensures Valid(Advance(s, i))
  {
    var t := Advance(s, i);
    forall j, lock | 0 <= j < |t| && Holds(t[i], lock) && Holds(t[j], lock)
      ensures i == j
    {
      AcquireHolds(s[i], lock);
    }
  }

  /** A call that ends holds nothing any more. */
  lemma EndingKeepsValid(s: State, i: nat)
    requires Valid(s) && i < |s|
    ensures Valid(Abort(s, i))
  {
    var t := Abort(s, i);
    forall j, lock | 0 <= j < |t| && Holds(t[j], lock)
      ensures j != i && Holds(s[j], lock)
    {
    }
  }

  lemma ArrivingKeepsValid(s: State, plan: seq<int>)
    requires Valid(s) && Ascending(plan)
    ensures Valid(Arrive(s, plan))
  {
    var t := Arrive(s, plan);
    forall j, lock | 0 <= j < |t| && Holds(t[j], lock)
      ensures j < |s| && Holds(s[j], lock)
    {
    }
  }

  lemma StepKeepsValid(s: State, e: Event)
    requires Valid(s) && Enabled(s, e)
    ensures Valid(Apply(s, e))
  {
    match e
    case Advances(i) =>
      if s[i].held < |s[i].plan| {
        TakingKeepsValid(s, i);
      } else {
        EndingKeepsValid(s, i);
      }
    case Aborts(i) => EndingKeepsValid(s, i);
    case Arrives(call) => ArrivingKeepsValid(s, LockPlan(call));
  }

  lemma {:induction false} ReachableValid(trace: seq<State>, events: seq<Event>, k: nat)
    requires IsRun(trace, events) && k < |trace|
    ensures Valid(trace[k])
  {
    if k > 0 {
      ReachableValid(trace, events, k - 1);
      StepKeepsValid(trace[k - 1], events[k - 1]);
    }
  }

  // ----- Deadlock freedom -----

  /** `path` follows waits-for edges. */
  ghost predicate WaitPath(s: State, path: seq<nat>) {
    forall k :: 0 <= k < |path| - 1 ==> WaitsFor(s, path[k], path[k + 1])
  }

  /** An active caller whose plan is not complete. */
  predicate Blockable(s: State, i: nat) {
    i < |s| && !s[i].done && s[i].held < |s[i].plan|
  }

  function Wanted(s: State, i: nat): int
    requires Blockable(s, i)
  {
    s[i].plan[s[i].held]
  }

  /** The lock a caller wants rises along every waits-for edge. */
  lemma WantedLockRises(s: State, i: nat, j: nat)
    requires Valid(s) && WaitsFor(s, i, j) && Blockable(s, j)
    ensures Wanted(s, i) < Wanted(s, j)
  {
    var a :| 0 <= a < s[j].held && s[j].plan[a] == s[i].plan[s[i].held];
  }

  lemma {:induction false} WantedLockRisesAlong(s: State, path: seq<nat>)
    requires Valid(s) && |path| >= 2 && WaitPath(s, path)
    requires Blockable(s, path[|path| - 1])
    ensures Blockable(s, path[0]) && Wanted(s, path[0]) < Wanted(s, path[|path| - 1])
  {
    assert WaitsFor(s, path[0], path[1]);
    if |path| > 2 {
      var rest := path[1..];
      forall k | 0 <= k < |rest| - 1
        ensures WaitsFor(s, rest[k], rest[k + 1])
      {
        assert WaitsFor(s, path[k + 1], path[k + 1 + 1]);
      }
      WantedLockRisesAlong(s, rest);
    }
    WantedLockRises(s, path[0], path[1]);
  }

  /** No cycle of callers waiting for each other, in any reachable state. */
  lemma NoWaitCycle(trace: seq<State>, events: seq<Event>, k: nat, path: seq<nat>)
    requires IsRun(trace, events) && k < |trace|
    requires |path| >= 2 && WaitPath(trace[k], path)
    ensures path[0] != path[|path| - 1]
  {
    ReachableValid(trace, events, k);
    if path[0] == path[|path| - 1] {
      assert WaitsFor(trace[k], path[0], path[1]);
      WantedLockRisesAlong(trace[k], path);
    }
  }

  ghost function Ids(n: nat): (ids: set<int>)
    ensures forall x: int :: x in ids <==> 0 <= x < n
  {
    if n == 0 then {} else Ids(n - 1) + {n - 1}
  }

  /** Starting at an active caller, following waits-for edges reaches one that can advance. */
  lemma {:induction false} SomeoneAdvances(s: State, i: nat, blocked: set<int>) returns (j: nat)
    requires Valid(s) && i < |s| && !s[i].done
    requires blocked <= Ids(|s|)
    requires forall x :: x in blocked ==> 0 <= x && Blockable(s, x) && (Blockable(s, i) ==> Wanted(s, x) < Wanted(s, i))
    requires i !in blocked
    ensures CanAdvance(s, j)
    decreases Ids(|s|) - blocked
  {
    if CanAdvance(s, i) {
      return i;
    }
    var lock := Wanted(s, i);
    forall a | 0 <= a < s[i].held
      ensures s[i].plan[a] != lock
    {
    }
    var h :| 0 <= h < |s| && Holds(s[h], lock);
    assert WaitsFor(s, i, h);
    if Blockable(s, h) {
      WantedLockRises(s, i, h);
    }
    j := SomeoneAdvances(s, h, blocked + {i});
  }

  /** While any call is unfinished, some call can take its next lock or commit. */
  lemma DeadlockFree(trace: seq<State>, events: seq<Event>, k: nat, i: nat)
    requires IsRun(trace, events) && k < |trace|
    requires i < |trace[k]| && !trace[k][i].done
    ensures exists j :: CanAdvance(trace[k], j)
  {
    ReachableValid(trace, events, k);
    var j := SomeoneAdvances(trace[k], i, {});
  }

  /** Steps left before every caller has ended. */
  function Remaining(s: State): nat {
    if s == [] then 0
    else
      var c := s[|s| - 1];
      Remaining(s[..|s| - 1]) + if c.done || c.held > |c.plan| then 0 else |c.plan| - c.held + 1
  }

  lemma {:induction false} AdvanceShrinks(s: State, i: nat)
    requires i < |s| && !s[i].done && s[i].held <= |s[i].plan|
    ensures Remaining(Advance(s, i)) == Remaining(s) - 1
  {
    var t := Advance(s, i);
    if i < |s| - 1 {
      assert t[..|t| - 1] == Advance(s[..|s| - 1], i);
      AdvanceShrinks(s[..|s| - 1], i);
    } else {
      assert t[..|t| - 1] == s[..|s| - 1];
    }
  }

  /** Letting the callers in `choices` advance in turn is possible and ends every call. */
  ghost predicate Completes(s: State, choices: seq<nat>)
    decreases |choices|
  {
    if choices == [] then forall i :: 0 <= i < |s| ==> s[i].done
    else CanAdvance(s, choices[0]) && Completes(Advance(s, choices[0]), choices[1..])
  }

  /** Every reachable state can be driven to completion, one enabled step at a time. */
  lemma CanFinish(trace: seq<State>, events: seq<Event>, k: nat)
    requires IsRun(trace, events) && k < |trace|
    ensures exists choices :: Completes(trace[k], choices)
  {
    ReachableValid(trace, events, k);
    var choices := CompletingSchedule(trace[k]);
  }

  lemma {:induction false} CompletingSchedule(s: State) returns (choices: seq<nat>)
    requires Valid(s)
    ensures Completes(s, choices)
    decreases Remaining(s)
  {
    if i :| 0 <= i < |s| && !s[i].done {
      var j := SomeoneAdvances(s, i, {});
      AdvanceShrinks(s, j);
      StepKeepsValid(s, Advances(j));
      var rest := CompletingSchedule(Advance(s, j));
      choices := [j] + rest;
      assert choices[1..] == rest;
    } else {
      choices := [];
    }
  }

  /** Locking in the order the request names the locations would deadlock two opposite transfers. */
  lemma UnorderedTransfersDeadlock(a: int, b: int)
    requires a != b
    ensures var s := [Caller([a, b], 1, false), Caller([b, a], 1, false)];
      WaitPath(s, [0, 1, 0]) && !CanAdvance(s, 0) && !CanAdvance(s, 1)
  {
    var s := [Caller([a, b], 1, false), Caller([b, a], 1, false)];
    assert s[0].plan[..1] == [a] && s[1].plan[..1] == [b];
    assert Holds(s[0], a) && Holds(s[1], b);
    assert WaitsFor(s, 0, 1) && WaitsFor(s, 1, 0);
  }
}
