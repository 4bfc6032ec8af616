/** How requests end that are not answered 201: the guard's own refusals, the handler's refusals and failures, and
    sessions that end under them. */
module GuardOutcomes {
  import opened Results
  import opened Idempotency

  // ----- The guard's answers -----

  /** The stored response belongs to another user, path or body. */
  predicate Conflicts(q: Request, records: map<Key, Record>) {
    && q.key in records
    && (records[q.key].user != q.user || records[q.key].path != q.path || records[q.key].hash != q.hash)
  }

  /** The guard answers with an error of its own: a conflict only when there is one, else a timeout or a failure. */
  ghost predicate GuardOk(q: Request, c: Client, records: map<Key, Record>) {
    c.answer.Some? && c.answer.value.origin.Guard? ==>
      && c.answer.value.code in {408, 409, 500} && c.panicked.None? && !c.saved
      && (c.answer.value.code == 409 ==> Conflicts(q, records))
  }

  ghost predicate GuardsOk(qs: seq<Request>, w: World)
    requires |qs| == |w.clients|
  {
    forall r :: 0 <= r < |qs| ==> GuardOk(qs[r], w.clients[r], w.records)
  }

  /** Nothing was saved or has panicked before the handler runs. */
  predicate Untouched(c: Client) {
    c.phase in {Idle, Trying, Waiting, Reading} ==> !c.saved && c.panicked.None?
  }

  lemma MovedGuard(q: Request, w: World, a: Action)
    requires !a.Lose? && a.r < |w.clients| && Moved(w, a).Some? && SessionOk(w.clients[a.r]) && Untouched(w.clients[a.r])
    ensures GuardOk(q, Moved(w, a).value, w.records) && Untouched(Moved(w, a).value)
  {
  }

  lemma LockingGuard(qs: seq<Request>, w: World, a: Action, t: World)
    requires Inv(qs, w) && t == Next(qs, w, a) && (a.TryLock? || a.TryLockFails? || a.Read?) && a.r < |qs|
    requires Untouched(w.clients[a.r]) && GuardOk(qs[a.r], w.clients[a.r], w.records)
    ensures GuardOk(qs[a.r], t.clients[a.r], t.records) && Untouched(t.clients[a.r])
  {
    assert ClientOk(qs[a.r], w.clients[a.r], w.locks, w.records);
  }

  lemma HandlingGuard(qs: seq<Request>, w: World, a: Action, t: World)
    requires Inv(qs, w) && t == Next(qs, w, a) && (a.Save? || a.Commit? || a.Finish?) && a.r < |qs|
    requires Untouched(w.clients[a.r]) && t.clients[a.r] != w.clients[a.r]
    ensures Untouched(t.clients[a.r])
    ensures t.clients[a.r].answer.Some? ==> !t.clients[a.r].answer.value.origin.Guard?
  {
    assert ClientOk(qs[a.r], w.clients[a.r], w.locks, w.records);
  }

  lemma OwnStepGuard(qs: seq<Request>, w: World, a: Action, t: World)
    requires Inv(qs, w) && t == Next(qs, w, a) && !a.Lose? && a.r < |qs|
    requires Untouched(w.clients[a.r]) && GuardOk(qs[a.r], w.clients[a.r], t.records)
    requires GuardOk(qs[a.r], w.clients[a.r], w.records)
    ensures GuardOk(qs[a.r], t.clients[a.r], t.records) && Untouched(t.clients[a.r])
  {
    assert ClientOk(qs[a.r], w.clients[a.r], w.locks, w.records);
    if a.TryLock? || a.TryLockFails? || a.Read? {
      LockingGuard(qs, w, a, t);
    } else if a.Save? || a.Commit? || a.Finish? {
      if t.clients[a.r] != w.clients[a.r] {
        HandlingGuard(qs, w, a, t);
      }
    } else if !a.Unlock? && !a.Crash? && Moved(w, a).Some? {
      MovedGuard(qs[a.r], w, a);
    }
  }

  /** A conflict stays one: stored responses are never changed. */
  lemma GuardLasts(qs: seq<Request>, w: World, a: Action, t: World, r: nat)
    requires Inv(qs, w) && t == Next(qs, w, a) && r < |qs| && GuardOk(qs[r], w.clients[r], w.records)
    ensures GuardOk(qs[r], w.clients[r], t.records)
  {
    if qs[r].key in w.records {
      StepKeepsRecord(qs, w, a, qs[r].key, t);
    }
  }

  ghost predicate AllUntouched(w: World) {
    forall r :: 0 <= r < |w.clients| ==> Untouched(w.clients[r])
  }

  lemma NextKeepsGuard(qs: seq<Request>, w: World, a: Action, t: World)
    requires Inv(qs, w) && GuardsOk(qs, w) && AllUntouched(w) && t == Next(qs, w, a)
    ensures GuardsOk(qs, t) && AllUntouched(t)
  {
    forall r | 0 <= r < |qs|
      ensures GuardOk(qs[r], t.clients[r], t.records) && Untouched(t.clients[r])
    {
      GuardLasts(qs, w, a, t, r);
      if a.Lose? || a.r != r {
        ClientFromOthers(qs, w, a, t, r);
      } else {
        OwnStepGuard(qs, w, a, t);
      }
    }
  }

  lemma {:induction false} RunKeepsGuard(qs: seq<Request>, actions: seq<Action>)
    requires LocksByKey(qs)
    ensures GuardsOk(qs, Run(qs, actions)) && AllUntouched(Run(qs, actions))
  {
    if actions != [] {
      var before := Run(qs, actions[..|actions| - 1]);
      RunKeeps(qs, actions[..|actions| - 1]);
      RunKeepsGuard(qs, actions[..|actions| - 1]);
      NextKeepsGuard(qs, before, actions[|actions| - 1], Run(qs, actions));
    }
  }

  /** Over all interleavings the guard itself answers only 408, 409 or 500, and 409 only to a request whose key
      is stored for another user, path or body. */
  lemma GuardRefuses(qs: seq<Request>, actions: seq<Action>, r: nat)
    requires LocksByKey(qs) && r < |qs|
    requires Run(qs, actions).clients[r].answer.Some? && Run(qs, actions).clients[r].answer.value.origin.Guard?
    ensures var w := Run(qs, actions);
      && w.clients[r].answer.value.code in {408, 409, 500}
      && (w.clients[r].answer.value.code == 409 ==> Conflicts(qs[r], w.records))
  {
    RunKeepsGuard(qs, actions);
  }

  /** Once its key is stored otherwise, a request gets no answer below 500 but that conflict, unless its handler
      panicked past its save. */
  lemma ConflictIsRefused(qs: seq<Request>, actions: seq<Action>, r: nat)
    requires LocksByKey(qs) && r < |qs| && Conflicts(qs[r], Run(qs, actions).records)
    requires Run(qs, actions).clients[r].panicked != Some(Saved)
    requires Run(qs, actions).clients[r].answer.Some? && Run(qs, actions).clients[r].answer.value.code < SERVER_ERROR
    ensures Run(qs, actions).clients[r].answer.value.origin.Guard?
    ensures Run(qs, actions).clients[r].answer.value.code in {408, 409}
  {
    ClientStaysOk(qs, actions, r);
    RunKeepsGuard(qs, actions);
  }

  // ----- The guard leaves no lock behind -----

  /** The lock is free for the session, or was held by it before. */
  lemma TakenAndGivenBack(locks: map<int, Owner>, id: int, conn: nat)
    requires Counted(locks) && Grants(locks, id, conn)
    ensures GiveBack(Take(locks, id, conn), id, conn) == locks
  {
    assert GiveBack(Take(locks, id, conn), id, conn).Keys == locks.Keys;
  }

  lemma {:induction false} Released(qs: seq<Request>, w: World, r: nat, c: Client, conn: nat)
    requires |qs| == |w.clients| && r < |qs| && w.clients[r] == c && c.phase == Releasing && c.conn == Some(conn)
    requires c.answer.Some?
    ensures Next(qs, w, Unlock(r, Applied))
      == Put(w.(locks := GiveBack(w.locks, qs[r].lockId, conn)), r, Ended(c, c.answer.value))
  {
    NextUnlock(qs, w, r, c, Applied);
  }

  /** What a request that the guard turned away leaves: its answer, and everything else as it found it. */
  function Refused(w: World, s: nat, code: nat): World
    requires s < |w.clients|
  {
    Put(w, s, Ended(w.clients[s], Answer(Guard, code, "")))
  }

  /** A key that is stored for another request: 409. */
  lemma {:induction false} ConflictLeavesLocks(qs: seq<Request>, w: World, s: nat, conn: nat)
    requires |qs| == |w.clients| && At(w, s, Idle) && !InUse(w, conn) && Counted(w.locks)
    requires Grants(w.locks, qs[s].lockId, conn) && Conflicts(qs[s], w.records)
    ensures Steps(qs, w, ReplayActions(s, conn)) == Refused(w, s, 409)
  {
    var q := qs[s];
    var c := Backed(w.clients[s].(phase := Reading, conn := Some(conn), alive := true), 409);
    var locked := w.(locks := Take(w.locks, q.lockId, conn));
    ConnectAndRead(qs, w, s, conn);
    Released(qs, Put(locked, s, c), s, c, conn);
    TakenAndGivenBack(w.locks, q.lockId, conn);
    PutAgain(locked, s, c, Ended(c, c.answer.value), w.locks);
    StepsAppend(qs, w, StartActions(s, conn), Unlock(s, Applied));
  }

  function FailedReadActions(s: nat, conn: nat): seq<Action> {
    [Connect(s, conn), TryLock(s), ReadFails(s)] + [Unlock(s, Applied)]
  }

  /** A failed look-up: 500. */
  lemma {:induction false} FailedReadLeavesLocks(qs: seq<Request>, w: World, s: nat, conn: nat)
    requires |qs| == |w.clients| && At(w, s, Idle) && !InUse(w, conn) && Counted(w.locks)
    requires Grants(w.locks, qs[s].lockId, conn)
    ensures Steps(qs, w, FailedReadActions(s, conn)) == Refused(w, s, 500)
  {
    var q := qs[s];
    var c1 := w.clients[s].(phase := Trying, conn := Some(conn), alive := true);
    var c2 := c1.(phase := Reading);
    var c3 := Backed(c2, 500);
    var locked := w.(locks := Take(w.locks, q.lockId, conn));
    NextMoved(qs, w, Connect(s, conn), c1);
    NextTryLock(qs, Put(w, s, c1), s, c1, conn);
    PutAgain(w, s, c1, c2, locked.locks);
    NextMoved(qs, Put(locked, s, c2), ReadFails(s), c3);
    PutAgain(locked, s, c2, c3, locked.locks);
    ThreeSteps(qs, w, Connect(s, conn), TryLock(s), ReadFails(s), Put(w, s, c1), Put(locked, s, c2));
    Released(qs, Put(locked, s, c3), s, c3, conn);
    TakenAndGivenBack(w.locks, q.lockId, conn);
    PutAgain(locked, s, c3, Ended(c3, c3.answer.value), w.locks);
    StepsAppend(qs, w, [Connect(s, conn), TryLock(s), ReadFails(s)], Unlock(s, Applied));
  }

  lemma {:induction false} NextTryLockFails(qs: seq<Request>, w: World, r: nat, took: bool, c: Client, conn: nat)
    requires |qs| == |w.clients| && r < |qs| && w.clients[r] == c && c.phase == Trying && c.alive && c.conn == Some(conn)
    ensures Next(qs, w, TryLockFails(r, took)) ==
      Put(w.(locks := if took && Grants(w.locks, qs[r].lockId, conn) then Take(w.locks, qs[r].lockId, conn)
                      else w.locks), r, Backed(c, 500))
  {
  }

  function FailedLockActions(s: nat, conn: nat, took: bool): seq<Action> {
    [Connect(s, conn), TryLockFails(s, took), Unlock(s, Applied)]
  }

  /** A failed attempt at the lock: 500, and the locks are as before exactly if the attempt took the lock all the same
      or the session did not hold it already; otherwise the release takes one of the session's earlier holds away. */
  lemma {:induction false} FailedLockLeavesExactly(qs: seq<Request>, w: World, s: nat, conn: nat, took: bool, t: World)
    requires |qs| == |w.clients| && At(w, s, Idle) && !InUse(w, conn) && Counted(w.locks)
    requires t == Steps(qs, w, FailedLockActions(s, conn, took))
    ensures t.(locks := w.locks) == Refused(w, s, 500)
    ensures t.locks == w.locks <==> took || qs[s].lockId !in w.locks || w.locks[qs[s].lockId].conn != conn
  {
    var q := qs[s];
    var c1 := w.clients[s].(phase := Trying, conn := Some(conn), alive := true);
    var c2 := Backed(c1, 500);
    var locks := if took && Grants(w.locks, q.lockId, conn) then Take(w.locks, q.lockId, conn) else w.locks;
    var tried := w.(locks := locks);
    NextMoved(qs, w, Connect(s, conn), c1);
    NextTryLockFails(qs, Put(w, s, c1), s, took, c1, conn);
    PutAgain(w, s, c1, c2, locks);
    Released(qs, Put(tried, s, c2), s, c2, conn);
    PutAgain(tried, s, c2, Ended(c2, c2.answer.value), GiveBack(locks, q.lockId, conn));
    ThreeSteps(qs, w, Connect(s, conn), TryLockFails(s, took), Unlock(s, Applied), Put(w, s, c1), Put(tried, s, c2));
    if took && Grants(w.locks, q.lockId, conn) {
      TakenAndGivenBack(w.locks, q.lockId, conn);
    } else {
      GiveBackChanges(w.locks, q.lockId, conn);
    }
  }

  lemma GiveBackChanges(locks: map<int, Owner>, id: int, conn: nat)
    requires Counted(locks)
    ensures GiveBack(locks, id, conn) == locks <==> id !in locks || locks[id].conn != conn
  {
    if id in locks && locks[id].conn == conn && locks[id].count > 1 {
      assert GiveBack(locks, id, conn)[id] != locks[id];
    }
  }

  /** A busy key: the attempt gives its connection back, and the next one starts from where this one did. */
  lemma {:induction false} BusyLeavesNoTrace(qs: seq<Request>, w: World, s: nat, conn: nat)
    requires |qs| == |w.clients| && At(w, s, Idle) && !InUse(w, conn) && !Grants(w.locks, qs[s].lockId, conn)
    requires w.clients[s].conn.None? && !w.clients[s].alive
    ensures Steps(qs, w, [Connect(s, conn), TryLock(s), Retry(s)]) == w
    ensures Steps(qs, w, [Connect(s, conn), TryLock(s), GiveUp(s)]) == Refused(w, s, 408)
  {
    var c1 := w.clients[s].(phase := Trying, conn := Some(conn), alive := true);
    var c2 := w.clients[s].(phase := Waiting);
    NextMoved(qs, w, Connect(s, conn), c1);
    assert Next(qs, Put(w, s, c1), TryLock(s)) == Put(Put(w, s, c1), s, c2);
    PutAgain(w, s, c1, c2, w.locks);
    NextMoved(qs, Put(w, s, c2), Retry(s), w.clients[s]);
    PutAgain(w, s, c2, w.clients[s], w.locks);
    assert Put(w, s, w.clients[s]) == w;
    ThreeSteps(qs, w, Connect(s, conn), TryLock(s), Retry(s), Put(w, s, c1), Put(w, s, c2));
    NextMoved(qs, Put(w, s, c2), GiveUp(s), Ended(c2, Answer(Guard, 408, "")));
    PutAgain(w, s, c2, Ended(c2, Answer(Guard, 408, "")), w.locks);
    ThreeSteps(qs, w, Connect(s, conn), TryLock(s), GiveUp(s), Put(w, s, c1), Put(w, s, c2));
  }

  // ----- The handler refuses or fails -----

  /** What is left once the handler's outcome is in the recorder, sent and closed: an outcome below 500 is stored. */
  function Told(q: Request, w: World, r: nat, conn: nat, code: nat, body: string): World
    requires r < |w.clients|
  {
    var records :=
      if code < SERVER_ERROR then w.records[q.key := Record(q.user, q.path, q.hash, code, body)] else w.records;
    Put(w.(records := records, locks := GiveBack(w.locks, q.lockId, conn)), r,
        Client(Done, None, false, code, body, false, Some(Answer(Handler, code, body)), None))
  }

  lemma {:induction false} NextFinishUnsaved(qs: seq<Request>, w: World, r: nat, c: Client)
    requires |qs| == |w.clients| && r < |qs| && w.clients[r] == c && c.phase == Finishing && !c.saved && c.alive
    requires qs[r].key !in w.records
    ensures Next(qs, w, Finish(r, Applied)) == Put(if c.code < SERVER_ERROR
      then w.(records := w.records[qs[r].key := RecordOf(qs[r], c)]) else w, r, Flushed(c))
  {
  }

  /** An outcome below 500 is stored with the answer. */
  function Kept(q: Request, w: World, c: Client): World {
    if c.code < SERVER_ERROR then w.(records := w.records[q.key := RecordOf(q, c)]) else w
  }

  lemma {:induction false} FlushedIsTold(qs: seq<Request>, w: World, r: nat, conn: nat, c: Client)
    requires |qs| == |w.clients| && r < |qs| && c.phase == Finishing && c.conn == Some(conn) && !c.saved
    requires c.panicked.None? && c.code != 0
    ensures Next(qs, Put(Kept(qs[r], w, c), r, Flushed(c)), Unlock(r, Applied)) == Told(qs[r], w, r, conn, c.code, c.body)
  {
    var stored := Kept(qs[r], w, c);
    NextUnlock(qs, Put(stored, r, Flushed(c)), r, Flushed(c), Applied);
    PutAgain(stored, r, Flushed(c), Ended(Flushed(c), Sending(c)), GiveBack(w.locks, qs[r].lockId, conn));
  }

  lemma {:induction false} WrittenIsTold(qs: seq<Request>, w: World, r: nat, conn: nat, a: Action, code: nat,
                                         body: string)
    requires |qs| == |w.clients| && r < |qs| && !a.Lose? && a.r == r && qs[r].key !in w.records && code != 0
    requires w.clients[r].conn == Some(conn) && w.clients[r].alive && !w.clients[r].saved && w.clients[r].panicked.None?
    requires Moved(w, a) == Some(Wrote(w.clients[r], code, body))
    ensures Steps(qs, w, [a, Finish(r, Applied), Unlock(r, Applied)]) == Told(qs[r], w, r, conn, code, body)
  {
    var c := Wrote(w.clients[r], code, body);
    NextMoved(qs, w, a, c);
    NextFinishUnsaved(qs, Put(w, r, c), r, c);
    PutAgain(Kept(qs[r], w, c), r, c, Flushed(c), w.locks);
    FlushedIsTold(qs, w, r, conn, c);
    ThreeSteps(qs, w, a, Finish(r, Applied), Unlock(r, Applied), Put(w, r, c), Put(Kept(qs[r], w, c), r, Flushed(c)));
  }

  /** The handler refuses the request before its transaction: the refusal is told and stored, nothing is paid. */
  lemma {:induction false} RefusalIsTold(qs: seq<Request>, w: World, r: nat, conn: nat, code: nat, body: string)
    requires Undisturbed(qs, w, r, conn) && w.clients[r].answer.None? && 400 <= code < SERVER_ERROR
    ensures var t := Steps(qs, w, StartActions(r, conn) + [Refuse(r, code, body), Finish(r, Applied), Unlock(r, Applied)]);
      && t.clients[r].phase == Done && t.clients[r].answer == Some(Answer(Handler, code, body))
      && t.records == w.records[qs[r].key := Record(qs[r].user, qs[r].path, qs[r].hash, code, body)]
      && t.payments == w.payments && t.locks == w.locks
  {
    var started := Started(qs[r], w, r, conn);
    UndisturbedStarts(qs, w, r, conn);
    WrittenIsTold(qs, started, r, conn, Refuse(r, code, body), code, body);
    StepsCompose(qs, w, StartActions(r, conn), [Refuse(r, code, body), Finish(r, Applied), Unlock(r, Applied)]);
    assert GiveBack(started.locks, qs[r].lockId, conn) == w.locks;
  }

  /** The transaction cannot be opened: 500 is told, nothing is stored or paid, and the key can be tried again. */
  lemma {:induction false} FailureIsTold(qs: seq<Request>, w: World, r: nat, conn: nat)
    requires Undisturbed(qs, w, r, conn) && w.clients[r].answer.None?
    ensures var t := Steps(qs, w, StartActions(r, conn) + [BeginFails(r), Finish(r, Applied), Unlock(r, Applied)]);
      && t.clients[r].phase == Done && t.clients[r].answer == Some(Answer(Handler, SERVER_ERROR, BEGIN_ERROR))
      && t.records == w.records && t.payments == w.payments && t.locks == w.locks
  {
    var started := Started(qs[r], w, r, conn);
    UndisturbedStarts(qs, w, r, conn);
    WrittenIsTold(qs, started, r, conn, BeginFails(r), SERVER_ERROR, BEGIN_ERROR);
    StepsCompose(qs, w, StartActions(r, conn), [BeginFails(r), Finish(r, Applied), Unlock(r, Applied)]);
    assert GiveBack(started.locks, qs[r].lockId, conn) == w.locks;
  }

  /** The service refuses the payment inside the transaction: told and stored like any refusal. */
  lemma {:induction false} ServiceRefusalIsTold(qs: seq<Request>, w: World, r: nat, conn: nat, code: nat, body: string)
    requires |qs| == |w.clients| && r < |qs| && qs[r].key !in w.records && 400 <= code < SERVER_ERROR
    requires w.clients[r] == Client(InTx, Some(conn), true, 0, "", false, None, None)
    ensures Steps(qs, w, [ServeFails(r, code, body), Finish(r, Applied), Unlock(r, Applied)])
      == Told(qs[r], w, r, conn, code, body)
  {
    WrittenIsTold(qs, w, r, conn, ServeFails(r, code, body), code, body);
  }

  /** A save or a commit that fails: 500 is told, and neither payment nor response is kept. */
  lemma {:induction false} LateFailureIsTold(qs: seq<Request>, w: World, r: nat, conn: nat, commits: bool, t: World)
    requires |qs| == |w.clients| && r < |qs| && qs[r].key !in w.records
    requires w.clients[r].conn == Some(conn) && w.clients[r].alive && w.clients[r].panicked.None?
    requires w.clients[r].phase == if commits then Saved else Created
    requires t ==
      Steps(qs, w, [if commits then Commit(r, Failed) else Save(r, Failed), Finish(r, Applied), Unlock(r, Applied)])
    ensures t.clients[r].phase == Done && t.clients[r].answer.Some? && t.clients[r].answer.value.code == SERVER_ERROR
    ensures t.records == w.records && t.payments == w.payments && t.locks == GiveBack(w.locks, qs[r].lockId, conn)
  {
    var a := if commits then Commit(r, Failed) else Save(r, Failed);
    var c := Wrote(w.clients[r], SERVER_ERROR, if commits then COMMIT_ERROR else SAVE_ERROR);
    assert Next(qs, w, a) == Put(w, r, c);
    assert Next(qs, Put(w, r, c), Finish(r, Applied)) == Put(Put(w, r, c), r, Flushed(c));
    PutAgain(w, r, c, Flushed(c), w.locks);
    NextUnlock(qs, Put(w, r, Flushed(c)), r, Flushed(c), Applied);
    ThreeSteps(qs, w, a, Finish(r, Applied), Unlock(r, Applied), Put(w, r, c), Put(w, r, Flushed(c)));
  }

  /** A commit that is done but reported failed: 500 is told although payment and response are kept. */
  lemma {:induction false} LostCommitIsPaid(qs: seq<Request>, w: World, r: nat, conn: nat, t: World)
    requires |qs| == |w.clients| && r < |qs|
    requires w.clients[r].phase == Saved && w.clients[r].conn == Some(conn) && w.clients[r].alive
    requires w.clients[r].panicked.None?
    requires t == Steps(qs, w, [Commit(r, Ambiguous), Finish(r, Applied), Unlock(r, Applied)])
    ensures t.clients[r].phase == Done && t.clients[r].answer == Some(Answer(Handler, SERVER_ERROR, COMMIT_ERROR))
    ensures t.payments == w.payments + [qs[r].key]
    ensures t.records == w.records[qs[r].key :=
      Record(qs[r].user, qs[r].path, qs[r].hash, w.clients[r].code, w.clients[r].body)]
    ensures t.locks == GiveBack(w.locks, qs[r].lockId, conn)
  {
    var q := qs[r];
    var c := Wrote(w.clients[r], SERVER_ERROR, COMMIT_ERROR);
    var kept := w.(records := w.records[q.key := RecordOf(q, w.clients[r])], payments := w.payments + [q.key]);
    assert Next(qs, w, Commit(r, Ambiguous)) == Put(kept, r, c);
    assert Next(qs, Put(kept, r, c), Finish(r, Applied)) == Put(Put(kept, r, c), r, Flushed(c));
    PutAgain(kept, r, c, Flushed(c), w.locks);
    NextUnlock(qs, Put(kept, r, Flushed(c)), r, Flushed(c), Applied);
    ThreeSteps(qs, w, Commit(r, Ambiguous), Finish(r, Applied), Unlock(r, Applied),
               Put(kept, r, c), Put(kept, r, Flushed(c)));
  }

  /** An answer below 500 that is not stored yet is withdrawn exactly if storing it is reported failed, its session is
      gone or its key is stored already; after a write reported failed but done it is stored all the same. */
  lemma WithdrawnExactly(qs: seq<Request>, w: World, r: nat, fate: Fate)
    requires |qs| == |w.clients| && At(w, r, Finishing) && !w.clients[r].saved && w.clients[r].code < SERVER_ERROR
    ensures var t, c := Next(qs, w, Finish(r, fate)), w.clients[r];
      var refused := !c.alive || qs[r].key in w.records;
      var tail := if c.panicked.Some? then PANIC_ERROR else "";
      && t.clients[r].phase == Sent && t.payments == w.payments && t.locks == w.locks
      && t.clients[r].answer == (
           if refused || !fate.Applied? then Some(Answer(Handler, 500, FINISH_ERROR + tail))
           else Some(Answer(Handler, if c.code == 0 then 200 else c.code, c.body + tail)))
      && t.records == if refused || fate.Failed? then w.records
           else w.records[qs[r].key := Record(qs[r].user, qs[r].path, qs[r].hash, c.code, c.body)]
  {
    var c := w.clients[r];
    assert FINISH_ERROR + "" == FINISH_ERROR && c.body + "" == c.body;
  }

  /** A response cannot join the payment's transaction if its key is stored already. */
  lemma StoredKeyNotSaved(qs: seq<Request>, w: World, r: nat, fate: Fate)
    requires |qs| == |w.clients| && At(w, r, Created)
    ensures var t := Next(qs, w, Save(r, fate));
      && t == w.(clients := t.clients)
      && (t.clients[r].phase == Saved <==> fate.Applied? && w.clients[r].alive && qs[r].key !in w.records)
      && (t.clients[r].phase != Saved ==> t.clients[r] == Wrote(w.clients[r], SERVER_ERROR, SAVE_ERROR))
  {
  }

  // ----- Sessions that end -----

  /** Without its session a request takes no lock, reads, begins and creates nothing, and nothing of it is paid or
      stored. */
  lemma DeadSessionDoesNothing(qs: seq<Request>, w: World, r: nat, a: Action)
    requires |qs| == |w.clients| && r < |w.clients| && !w.clients[r].alive && !a.Lose? && a.r == r
    ensures a.TryLock? || a.Read? || a.Begin? || a.Serve? ==> Next(qs, w, a) == w
    ensures Next(qs, w, a).payments == w.payments && Next(qs, w, a).records == w.records
  {
  }

  /** The end of a session, lost or crashed with its process, frees exactly the locks it held, however often it took
      them; what is stored and paid stays, and its requests can do nothing with the database any more. */
  lemma EndedSessionFreesExactly(qs: seq<Request>, w: World, r: nat, conn: nat, crashed: bool, id: int, other: nat)
    requires |qs| == |w.clients| && r < |qs| && other != conn
    requires w.clients[r].conn == Some(conn) && w.clients[r].phase != Done
    ensures var t := Next(qs, w, if crashed then Crash(r) else Lose(conn));
      && (Grants(t.locks, id, other) <==> Grants(w.locks, id, other) || w.locks[id].conn == conn)
      && (id in t.locks ==> id in w.locks && t.locks[id] == w.locks[id])
      && t.records == w.records && t.payments == w.payments
      && (forall k :: 0 <= k < |w.clients| && w.clients[k].conn == Some(conn) ==> !t.clients[k].alive)
      && (forall k :: 0 <= k < |w.clients| && w.clients[k].conn != Some(conn) ==> t.clients[k] == w.clients[k])
      && (crashed ==>
            t.clients[r].phase == Crashed && t.clients[r].conn.None? && t.clients[r].answer == w.clients[r].answer)
  {
  }
}
