/** The idempotency protocol of `CreatePayment`, as interleaved steps of any number of requests over one database.
    A request takes a connection from the pool, locks its key, looks for a stored response, and otherwise runs
    the handler, which stores its response in the payment's own transaction. */
module Idempotency {
  import opened Results

  /** An RT together with an `Idempotency-Key`. */
  type Key = nat

  /** What a request is: its key, the advisory lock the key hashes to, its user, path and body hash. */
  datatype Request = Request(key: Key, lockId: int, user: nat, path: string, hash: nat)

  /** A row of `idempotency_keys`. */
  datatype Record = Record(user: nat, path: string, hash: nat, code: nat, body: string)

  /** Where an answer comes from: the guard's own refusal, a stored response, or the handler. */
  datatype Origin = Guard | Replay | Handler

  datatype Answer = Answer(origin: Origin, code: nat, body: string)

  datatype Phase =
    | Idle       // about to ask the pool for a connection
    | Trying     // connected, about to try the lock
    | Waiting    // the lock was taken; sleeping
    | Reading    // holds the lock, about to look for a stored response
    | Running    // nothing stored; the handler reads the request
    | InTx       // the payment's transaction is open
    | Created    // the payment is inserted, not committed; 201 is in the recorder
    | Saved      // the response is inserted as well, not committed
    | Finishing  // the handler has returned
    | Sent       // the answer is out, the lock not yet given back
    | Releasing  // gives up: releases what it may hold, then answers
    | Leaked     // answered, but connection and lock are never given back
    | Done
    | Crashed

  /** `alive` says whether the database session behind the connection still exists, `panicked` in which phase
      the handler panicked. */
  datatype Client = Client(phase: Phase, conn: Option<nat>, alive: bool, code: nat, body: string,
                           saved: bool, answer: Option<Answer>, panicked: Option<Phase>)

  /** A session-level advisory lock: its owner may take it again, and gives it back as often. */
  datatype Owner = Owner(conn: nat, count: nat)

  datatype World = World(
    clients: seq<Client>,
    locks: map<int, Owner>,
    records: map<Key, Record>,
    payments: seq<Key>)

  /** A write's fate: done and reported, not done and reported failed, or done but reported failed. */
  datatype Fate = Applied | Failed | Ambiguous

  datatype Action =
    | Connect(r: nat, conn: nat) | ConnectFails(r: nat)
    | TryLock(r: nat) | TryLockFails(r: nat, took: bool) | Retry(r: nat) | GiveUp(r: nat)
    | Read(r: nat) | ReadFails(r: nat)
    | Refuse(r: nat, code: nat, body: string)
    | Begin(r: nat) | BeginFails(r: nat)
    | Serve(r: nat, body: string) | ServeFails(r: nat, code: nat, body: string)
    | Panic(r: nat)
    | Save(r: nat, fate: Fate)
    | Commit(r: nat, fate: Fate)
    | Finish(r: nat, fate: Fate)
    | Unlock(r: nat, fate: Fate)
    | Lose(conn: nat)
    | Crash(r: nat)

  const CREATED: nat := 201
  const SERVER_ERROR: nat := 500

  const BEGIN_ERROR: string := "transaction error"
  const SAVE_ERROR: string := "could not persist idempotency response"
  const COMMIT_ERROR: string := "commit error"
  const FINISH_ERROR: string := "could not persist idempotent response"
  const PANIC_ERROR: string := "internal server error"

  function RecordOf(q: Request, c: Client): Record {
    Record(q.user, q.path, q.hash, c.code, c.body)
  }

  // ----- Locks -----

  predicate Grants(locks: map<int, Owner>, id: int, conn: nat) {
    id !in locks || locks[id].conn == conn
  }

  function Take(locks: map<int, Owner>, id: int, conn: nat): map<int, Owner>
    requires Grants(locks, id, conn)
  {
    locks[id := Owner(conn, if id in locks then locks[id].count + 1 else 1)]
  }

  /** `pg_advisory_unlock`: only the owner's call has an effect. */
  function GiveBack(locks: map<int, Owner>, id: int, conn: nat): map<int, Owner> {
    if id !in locks || locks[id].conn != conn then locks
    else if locks[id].count <= 1 then locks - {id}
    else locks[id := Owner(conn, locks[id].count - 1)]
  }

  /** The end of a session releases all of its locks. */
  function WithoutSession(locks: map<int, Owner>, conn: nat): map<int, Owner> {
    map id | id in locks && locks[id].conn != conn :: locks[id]
  }

  // ----- Steps -----

  predicate At(w: World, r: nat, phase: Phase) {
    r < |w.clients| && w.clients[r].phase == phase
  }

  /** The request is in the phase and its database session still answers. */
  predicate Live(w: World, r: nat, phase: Phase) {
    At(w, r, phase) && w.clients[r].alive && w.clients[r].conn.Some?
  }

  predicate InUse(w: World, conn: nat) {
    exists r :: 0 <= r < |w.clients| && w.clients[r].conn == Some(conn)
  }

  function Put(w: World, r: nat, c: Client): (t: World)
    requires r < |w.clients|
    ensures |t.clients| == |w.clients|
  {
    w.(clients := w.clients[r := c])
  }

  function Ended(c: Client, answer: Answer): Client {
    c.(phase := Done, conn := None, alive := false, answer := Some(answer))
  }

  /** The guard gives up with an error of its own, after releasing what it may hold. */
  function Backed(c: Client, code: nat): Client {
    c.(phase := Releasing, answer := Some(Answer(Guard, code, "")))
  }

  /** The handler's outcome is in the recorder. */
  function Wrote(c: Client, code: nat, body: string): Client {
    c.(phase := Finishing, code := code, body := body)
  }

  /** The cached response is replayed to the same request and refused to any other. A stored status of 0 cannot be
      sent: writing it panics past the release, and the recovery middleware answers 500. */
  function Looked(q: Request, c: Client, records: map<Key, Record>): Client {
    if q.key !in records then c.(phase := Running, code := 0, body := "", saved := false)
    else
      var cached := records[q.key];
      if cached.user != q.user || cached.path != q.path || cached.hash != q.hash then Backed(c, 409)
      else if cached.code == 0 then c.(phase := Leaked, answer := Some(Answer(Guard, SERVER_ERROR, PANIC_ERROR)))
      else c.(phase := Sent, answer := Some(Answer(Replay, cached.code, cached.body)))
  }

  /** A panic runs the deferred rollback and `Finish`, with whatever the recorder holds. */
  predicate MayPanic(phase: Phase) {
    phase in {Running, InTx, Created, Saved}
  }

  function Panicked(c: Client): Client {
    c.(phase := Finishing, panicked := Some(c.phase))
  }

  /** `Save`: the response joins the payment's transaction; a key already stored is refused. */
  function SaveStep(q: Request, w: World, r: nat, fate: Fate): (t: World)
    requires r < |w.clients|
    ensures |t.clients| == |w.clients|
  {
    var c := w.clients[r];
    if fate.Applied? && c.alive && q.key !in w.records then Put(w, r, c.(phase := Saved, saved := true))
    else Put(w, r, Wrote(c, SERVER_ERROR, SAVE_ERROR))
  }

  /** The payment and its stored response become visible together or not at all. */
  function CommitStep(q: Request, w: World, r: nat, fate: Fate): (t: World)
    requires r < |w.clients|
    ensures |t.clients| == |w.clients|
  {
    var c := w.clients[r];
    var committed := w.(records := w.records[q.key := RecordOf(q, c)], payments := w.payments + [q.key]);
    if fate.Failed? || !c.alive then Put(w, r, Wrote(c, SERVER_ERROR, COMMIT_ERROR))
    else if fate.Ambiguous? then Put(committed, r, Wrote(c, SERVER_ERROR, COMMIT_ERROR))
    else Put(committed, r, c.(phase := Finishing))
  }

  /** What `flush` sends: an empty recorder goes out as 200. After a panic the recovery middleware still writes its
      error, which can only append to what was flushed. */
  function Sending(c: Client): Answer {
    Answer(Handler, if c.code == 0 then 200 else c.code, if c.panicked.Some? then c.body + PANIC_ERROR else c.body)
  }

  function Flushed(c: Client): Client {
    c.(phase := Sent, answer := Some(Sending(c)))
  }

  /** `Finish`: an answer below 500 that is not stored yet is stored in a transaction of its own, or withdrawn. */
  function FinishStep(q: Request, w: World, r: nat, fate: Fate): (t: World)
    requires r < |w.clients|
    ensures |t.clients| == |w.clients|
  {
    var c := w.clients[r];
    if c.saved || c.code >= SERVER_ERROR then Put(w, r, Flushed(c))
    else
      var stored := w.(records := w.records[q.key := RecordOf(q, c)]);
      var withdrawn := Flushed(c.(code := SERVER_ERROR, body := FINISH_ERROR));
      if fate.Failed? || !c.alive || q.key in w.records then Put(w, r, withdrawn)
      else if fate.Ambiguous? then Put(stored, r, withdrawn)
      else Put(stored, r, Flushed(c))
  }

  function UnlockStep(q: Request, w: World, r: nat, fate: Fate): (t: World)
    requires r < |w.clients| && w.clients[r].conn.Some? && w.clients[r].answer.Some?
    ensures |t.clients| == |w.clients|
  {
    var c := w.clients[r];
    Put(if fate.Failed? then w else w.(locks := GiveBack(w.locks, q.lockId, c.conn.value)), r, Ended(c, c.answer.value))
  }

  /** The session is gone: its locks are free and its open transaction is rolled back. */
  function LoseSession(w: World, conn: nat): (t: World)
    ensures |t.clients| == |w.clients|
  {
    w.(locks := WithoutSession(w.locks, conn),
       clients := seq(|w.clients|, r requires 0 <= r < |w.clients| =>
         if w.clients[r].conn == Some(conn) then w.clients[r].(alive := false) else w.clients[r]))
  }

  /** The process dies: nothing is answered any more, and its session ends. */
  function CrashStep(w: World, r: nat): (t: World)
    requires r < |w.clients|
    ensures |t.clients| == |w.clients|
  {
    var c := w.clients[r];
    var lost := if c.conn.Some? then LoseSession(w, c.conn.value) else w;
    Put(lost, r, c.(phase := Crashed, conn := None, alive := false))
  }

  function TryLockStep(q: Request, w: World, r: nat): (t: World)
    requires r < |w.clients| && w.clients[r].conn.Some?
    ensures |t.clients| == |w.clients|
  {
    var c := w.clients[r];
    if Grants(w.locks, q.lockId, c.conn.value)
    then Put(w.(locks := Take(w.locks, q.lockId, c.conn.value)), r, c.(phase := Reading))
    else Put(w, r, c.(phase := Waiting, conn := None, alive := false))
  }

  /** A failed query may have taken the lock all the same. */
  function TryLockFailsStep(q: Request, w: World, r: nat, took: bool): (t: World)
    requires r < |w.clients| && w.clients[r].conn.Some?
    ensures |t.clients| == |w.clients|
  {
    var c := w.clients[r];
    var locks := if took && c.alive && Grants(w.locks, q.lockId, c.conn.value)
      then Take(w.locks, q.lockId, c.conn.value) else w.locks;
    Put(w.(locks := locks), r, Backed(c, 500))
  }

  /** The steps that only move one request on, or `None` when the action is not enabled. */
  function Moved(w: World, a: Action): Option<Client>
    requires !a.Lose? && a.r < |w.clients|
  {
    var c := w.clients[a.r];
    var live := c.alive && c.conn.Some?;
    match a
    case Connect(_, conn) =>
      if c.phase == Idle && !InUse(w, conn) then Some(c.(phase := Trying, conn := Some(conn), alive := true)) else None
    case ConnectFails(_) => if c.phase == Idle then Some(Ended(c, Answer(Guard, 500, ""))) else None
    case Retry(_) => if c.phase == Waiting then Some(c.(phase := Idle)) else None
    case GiveUp(_) => if c.phase == Waiting then Some(Ended(c, Answer(Guard, 408, ""))) else None
    case ReadFails(_) => if c.phase == Reading then Some(Backed(c, 500)) else None
    case Refuse(_, code, body) =>
      if c.phase == Running && 400 <= code < SERVER_ERROR then Some(Wrote(c, code, body)) else None
    case Begin(_) => if live && c.phase == Running then Some(c.(phase := InTx)) else None
    case BeginFails(_) => if c.phase == Running then Some(Wrote(c, SERVER_ERROR, BEGIN_ERROR)) else None
    case Serve(_, body) =>
      if live && c.phase == InTx then Some(c.(phase := Created, code := CREATED, body := body)) else None
    case ServeFails(_, code, body) =>
      if c.phase == InTx && 400 <= code < SERVER_ERROR then Some(Wrote(c, code, body)) else None
    case Panic(_) => if MayPanic(c.phase) then Some(Panicked(c)) else None
    case _ => None
  }

  /** One step; an action that is not enabled changes nothing. */
  function Next(qs: seq<Request>, w: World, a: Action): (t: World)
    requires |qs| == |w.clients|
    ensures |t.clients| == |w.clients|
  {
    match a
    case TryLock(r) => if Live(w, r, Trying) then TryLockStep(qs[r], w, r) else w
    case TryLockFails(r, took) =>
      if At(w, r, Trying) && w.clients[r].conn.Some? then TryLockFailsStep(qs[r], w, r, took) else w
    case Read(r) => if Live(w, r, Reading) then Put(w, r, Looked(qs[r], w.clients[r], w.records)) else w
    case Save(r, fate) => if At(w, r, Created) then SaveStep(qs[r], w, r, fate) else w
    case Commit(r, fate) => if At(w, r, Saved) then CommitStep(qs[r], w, r, fate) else w
    case Finish(r, fate) => if At(w, r, Finishing) then FinishStep(qs[r], w, r, fate) else w
    case Unlock(r, fate) =>
      if (At(w, r, Sent) || At(w, r, Releasing)) && w.clients[r].conn.Some? && w.clients[r].answer.Some?
      then UnlockStep(qs[r], w, r, fate) else w
    case Lose(conn) => LoseSession(w, conn)
    case Crash(r) => if r < |w.clients| && w.clients[r].phase != Done then CrashStep(w, r) else w
    case _ =>
      if a.r >= |w.clients| then w
      else
        var c := Moved(w, a);
        if c.None? then w else Put(w, a.r, c.value)
  }

  function Initial(n: nat): World {
    World(seq(n, _ => Client(Idle, None, false, 0, "", false, None, None)), map[], map[], [])
  }

  function Run(qs: seq<Request>, actions: seq<Action>): (w: World)
    ensures |w.clients| == |qs|
  {
    if actions == [] then Initial(|qs|)
    else Next(qs, Run(qs, actions[..|actions| - 1]), actions[|actions| - 1])
  }

  // ----- The invariant -----

  /** Two requests with equal keys use equal locks; different keys may collide on a lock. */
  ghost predicate LocksByKey(qs: seq<Request>) {
    forall r, s :: 0 <= r < |qs| && 0 <= s < |qs| && qs[r].key == qs[s].key ==> qs[r].lockId == qs[s].lockId
  }

  /** Between acquiring the lock and giving it back. */
  predicate Critical(phase: Phase) {
    phase in {Reading, Running, InTx, Created, Saved, Finishing, Sent, Leaked}
  }

  /** The request found nothing stored, and has stored nothing yet. */
  predicate Missed(c: Client) {
    || c.phase in {Running, InTx, Created, Saved}
    || (c.phase == Finishing && c.code < SERVER_ERROR && (!c.saved || c.panicked == Some(Saved)))
  }

  ghost predicate HoldsLock(q: Request, c: Client, locks: map<int, Owner>) {
    c.alive && Critical(c.phase) ==>
      c.conn.Some? && q.lockId in locks && locks[q.lockId].conn == c.conn.value && locks[q.lockId].count >= 1
  }

  /** What the recorder and the saved flag say in each phase. */
  ghost predicate SessionOk(c: Client) {
    && (c.phase in {Running, InTx, Created} ==> !c.saved)
    && (c.phase in {Running, InTx} ==> c.code == 0)
    && (c.phase in {Created, Saved} ==> c.code == CREATED)
    && (c.phase == Saved ==> c.saved)
    && (c.phase in {Sent, Releasing, Leaked, Done} ==> c.answer.Some?)
    && (c.phase !in {Sent, Releasing, Leaked, Done, Crashed} ==> c.answer.None?)
  }

  /** What a panic left in the recorder: nothing before the payment was served, the 201 from then on. */
  ghost predicate PanicOk(c: Client) {
    && (c.phase !in {Finishing, Sent, Done, Crashed} ==> c.panicked.None?)
    && (c.panicked.Some? ==> MayPanic(c.panicked.value))
    && (c.phase == Finishing && c.panicked.None? ==> c.code != 0)
    && (c.phase == Finishing && c.panicked.Some? ==> (c.saved <==> c.panicked.value == Saved))
    && (c.panicked.Some? && c.code < SERVER_ERROR ==> c.code == if c.panicked.value in {Running, InTx} then 0 else CREATED)
  }

  /** Whatever is sent below 500, or about to be sent, is what is stored: the handler's from its recorder
      unless it panicked between saving and committing, and every replay. */
  ghost predicate StoredFor(q: Request, c: Client, records: map<Key, Record>) {
    && (c.phase == Finishing && c.saved && c.code < SERVER_ERROR && c.panicked.None? ==>
          q.key in records && records[q.key] == RecordOf(q, c))
    && (c.answer.Some? && c.answer.value.origin.Replay? ==>
          && q.key in records && c.panicked.None?
          && records[q.key] == Record(q.user, q.path, q.hash, c.answer.value.code, c.answer.value.body))
    && (c.answer.Some? && c.answer.value.origin.Handler? ==>
          && c.answer.value == Sending(c) && (c.panicked.None? ==> c.code != 0)
          && (c.code < SERVER_ERROR && c.panicked != Some(Saved) ==>
                q.key in records && records[q.key] == RecordOf(q, c)))
  }

  ghost predicate ClientOk(q: Request, c: Client, locks: map<int, Owner>, records: map<Key, Record>) {
    && HoldsLock(q, c, locks) && SessionOk(c) && PanicOk(c) && StoredFor(q, c, records)
    && (c.alive && Missed(c) ==> q.key !in records)
  }

  ghost predicate ClientsOk(qs: seq<Request>, w: World)
    requires |qs| == |w.clients|
  {
    forall r :: 0 <= r < |qs| ==> ClientOk(qs[r], w.clients[r], w.locks, w.records)
  }

  ghost predicate ConnsDistinct(clients: seq<Client>) {
    forall r, s :: 0 <= r < s < |clients| && clients[r].conn.Some? ==> clients[r].conn != clients[s].conn
  }

  /** At most one payment for each key, each beside a stored 201. */
  ghost predicate PaymentsOk(records: map<Key, Record>, payments: seq<Key>) {
    && (forall k :: k in payments ==> k in records && records[k].code == CREATED)
    && (forall i, j :: 0 <= i < j < |payments| ==> payments[i] != payments[j])
  }

  ghost predicate RecordsOk(records: map<Key, Record>) {
    forall k :: k in records ==> records[k].code < SERVER_ERROR
  }

  /** A lock that is held is held at least once. */
  ghost predicate Counted(locks: map<int, Owner>) {
    forall id :: id in locks ==> locks[id].count >= 1
  }

  ghost predicate Inv(qs: seq<Request>, w: World) {
    && |qs| == |w.clients| && LocksByKey(qs) && Counted(w.locks)
    && ConnsDistinct(w.clients) && ClientsOk(qs, w) && RecordsOk(w.records) && PaymentsOk(w.records, w.payments)
  }

  /** No two live requests of one key are between lock and unlock. */
  lemma MutualExclusion(qs: seq<Request>, w: World, r: nat, s: nat)
    requires Inv(qs, w) && r < |qs| && s < |qs| && qs[r].key == qs[s].key
    requires w.clients[r].alive && Critical(w.clients[r].phase)
    requires w.clients[s].alive && Critical(w.clients[s].phase)
    ensures r == s
  {
    assert ClientOk(qs[r], w.clients[r], w.locks, w.records);
    assert ClientOk(qs[s], w.clients[s], w.locks, w.records);
  }

  // ----- Each kind of change keeps it -----

  /** One request moves on without touching locks or records. */
  lemma MoveKeeps(qs: seq<Request>, w: World, r: nat, c: Client)
    requires Inv(qs, w) && r < |qs| && ClientOk(qs[r], c, w.locks, w.records)
    requires c.conn.None? || c.conn == w.clients[r].conn || (!InUse(w, c.conn.value))
    ensures Inv(qs, Put(w, r, c))
  {
  }

  /** One request takes or gives back a lock; no other request's lock changes hands. */
  lemma LockKeeps(qs: seq<Request>, w: World, r: nat, c: Client, locks: map<int, Owner>)
    requires Inv(qs, w) && r < |qs| && ClientOk(qs[r], c, locks, w.records)
    requires w.clients[r].conn.Some? && (c.conn.None? || c.conn == w.clients[r].conn)
    requires forall id :: id in w.locks && w.locks[id].conn != w.clients[r].conn.value ==>
      id in locks && locks[id] == w.locks[id]
    requires Counted(locks)
    ensures Inv(qs, Put(w.(locks := locks), r, c))
  {
    var t := Put(w.(locks := locks), r, c);
    forall s | 0 <= s < |qs|
      ensures ClientOk(qs[s], t.clients[s], t.locks, t.records)
    {
      assert ClientOk(qs[s], w.clients[s], w.locks, w.records);
    }
  }

  /** A live request that found nothing stores its response: no other request believes the key is free. */
  lemma StoreKeeps(qs: seq<Request>, w: World, r: nat, c: Client, record: Record, payments: seq<Key>)
    requires Inv(qs, w) && r < |qs| && w.clients[r].alive && Missed(w.clients[r])
    requires record.code < SERVER_ERROR && c.conn == w.clients[r].conn
    requires payments == w.payments || (payments == w.payments + [qs[r].key] && record.code == CREATED)
    requires ClientOk(qs[r], c, w.locks, w.records[qs[r].key := record])
    ensures Inv(qs, Put(w.(records := w.records[qs[r].key := record], payments := payments), r, c))
  {
    var t := Put(w.(records := w.records[qs[r].key := record], payments := payments), r, c);
    assert ClientOk(qs[r], w.clients[r], w.locks, w.records);
    forall s | 0 <= s < |qs|
      ensures ClientOk(qs[s], t.clients[s], t.locks, t.records)
    {
      assert ClientOk(qs[s], w.clients[s], w.locks, w.records);
      if s != r && qs[s].key == qs[r].key && w.clients[s].alive && Missed(w.clients[s]) {
        MutualExclusion(qs, w, r, s);
      }
    }
  }

  /** A session ends: its request can no longer change anything, and no other session's lock is touched. */
  lemma LoseKeeps(qs: seq<Request>, w: World, conn: nat)
    requires Inv(qs, w)
    ensures Inv(qs, LoseSession(w, conn))
  {
    var t := LoseSession(w, conn);
    forall s | 0 <= s < |qs|
      ensures ClientOk(qs[s], t.clients[s], t.locks, t.records)
    {
      assert ClientOk(qs[s], w.clients[s], w.locks, w.records);
    }
  }

  // ----- Every step keeps it -----

  lemma TryLockKeeps(qs: seq<Request>, w: World, r: nat, t: World)
    requires Inv(qs, w) && t == Next(qs, w, TryLock(r))
    ensures Inv(qs, t)
  {
    if Live(w, r, Trying) {
      var c := w.clients[r];
      assert ClientOk(qs[r], c, w.locks, w.records);
      if Grants(w.locks, qs[r].lockId, c.conn.value) {
        LockKeeps(qs, w, r, c.(phase := Reading), Take(w.locks, qs[r].lockId, c.conn.value));
      } else {
        MoveKeeps(qs, w, r, c.(phase := Waiting, conn := None, alive := false));
      }
    }
  }

  lemma TryLockFailsKeeps(qs: seq<Request>, w: World, r: nat, took: bool, t: World)
    requires Inv(qs, w) && t == Next(qs, w, TryLockFails(r, took))
    ensures Inv(qs, t)
  {
    if At(w, r, Trying) && w.clients[r].conn.Some? {
      var c := w.clients[r];
      assert ClientOk(qs[r], c, w.locks, w.records);
      if took && c.alive && Grants(w.locks, qs[r].lockId, c.conn.value) {
        LockKeeps(qs, w, r, Backed(c, 500), Take(w.locks, qs[r].lockId, c.conn.value));
      } else {
        MoveKeeps(qs, w, r, Backed(c, 500));
      }
    }
  }

  lemma ReadKeeps(qs: seq<Request>, w: World, r: nat, t: World)
    requires Inv(qs, w) && t == Next(qs, w, Read(r))
    ensures Inv(qs, t)
  {
    if Live(w, r, Reading) {
      assert ClientOk(qs[r], w.clients[r], w.locks, w.records);
      MoveKeeps(qs, w, r, Looked(qs[r], w.clients[r], w.records));
    }
  }

  lemma SaveKeeps(qs: seq<Request>, w: World, r: nat, fate: Fate, t: World)
    requires Inv(qs, w) && t == Next(qs, w, Save(r, fate))
    ensures Inv(qs, t)
  {
    if At(w, r, Created) {
      var c := w.clients[r];
      assert ClientOk(qs[r], c, w.locks, w.records);
      if fate.Applied? && c.alive && qs[r].key !in w.records {
        MoveKeeps(qs, w, r, c.(phase := Saved, saved := true));
      } else {
        MoveKeeps(qs, w, r, Wrote(c, SERVER_ERROR, SAVE_ERROR));
      }
    }
  }

  lemma CommitKeeps(qs: seq<Request>, w: World, r: nat, fate: Fate, t: World)
    requires Inv(qs, w) && t == Next(qs, w, Commit(r, fate))
    ensures Inv(qs, t)
  {
    if At(w, r, Saved) {
      var c := w.clients[r];
      assert ClientOk(qs[r], c, w.locks, w.records);
      if fate.Failed? || !c.alive {
        MoveKeeps(qs, w, r, Wrote(c, SERVER_ERROR, COMMIT_ERROR));
      } else {
        var next := if fate.Ambiguous? then Wrote(c, SERVER_ERROR, COMMIT_ERROR) else c.(phase := Finishing);
        StoreKeeps(qs, w, r, next, RecordOf(qs[r], c), w.payments + [qs[r].key]);
      }
    }
  }

  lemma FinishStepKeeps(qs: seq<Request>, w: World, r: nat, fate: Fate, t: World)
    requires Inv(qs, w) && At(w, r, Finishing) && t == FinishStep(qs[r], w, r, fate)
    ensures Inv(qs, t)
  {
    var c := w.clients[r];
    assert ClientOk(qs[r], c, w.locks, w.records);
    if c.saved || c.code >= SERVER_ERROR {
      MoveKeeps(qs, w, r, Flushed(c));
    } else {
      var withdrawn := Flushed(c.(code := SERVER_ERROR, body := FINISH_ERROR));
      if fate.Failed? || !c.alive || qs[r].key in w.records {
        MoveKeeps(qs, w, r, withdrawn);
      } else {
        StoreKeeps(qs, w, r, if fate.Ambiguous? then withdrawn else Flushed(c), RecordOf(qs[r], c), w.payments);
      }
    }
  }

  lemma FinishKeeps(qs: seq<Request>, w: World, r: nat, fate: Fate, t: World)
    requires Inv(qs, w) && t == Next(qs, w, Finish(r, fate))
    ensures Inv(qs, t)
  {
    if At(w, r, Finishing) {
      FinishStepKeeps(qs, w, r, fate, t);
    }
  }

  lemma UnlockKeeps(qs: seq<Request>, w: World, r: nat, fate: Fate, t: World)
    requires Inv(qs, w) && t == Next(qs, w, Unlock(r, fate))
    ensures Inv(qs, t)
  {
    if t != w {
      var c := w.clients[r];
      assert ClientOk(qs[r], c, w.locks, w.records);
      if fate.Failed? {
        MoveKeeps(qs, w, r, Ended(c, c.answer.value));
      } else {
        LockKeeps(qs, w, r, Ended(c, c.answer.value), GiveBack(w.locks, qs[r].lockId, c.conn.value));
      }
    }
  }

  lemma CrashStepKeeps(qs: seq<Request>, w: World, r: nat, t: World)
    requires Inv(qs, w) && r < |qs| && t == CrashStep(w, r)
    ensures Inv(qs, t)
  {
    var c := w.clients[r];
    assert ClientOk(qs[r], c, w.locks, w.records);
    var lost := if c.conn.Some? then LoseSession(w, c.conn.value) else w;
    if c.conn.Some? {
      LoseKeeps(qs, w, c.conn.value);
    }
    MoveKeeps(qs, lost, r, c.(phase := Crashed, conn := None, alive := false));
  }

  lemma CrashKeeps(qs: seq<Request>, w: World, r: nat, t: World)
    requires Inv(qs, w) && t == Next(qs, w, Crash(r))
    ensures Inv(qs, t)
  {
    if t != w {
      CrashStepKeeps(qs, w, r, t);
    }
  }

  lemma PanickedIsOk(q: Request, c: Client, locks: map<int, Owner>, records: map<Key, Record>)
    requires ClientOk(q, c, locks, records) && MayPanic(c.phase)
    ensures ClientOk(q, Panicked(c), locks, records)
  {
  }

  lemma MovedIsOk(q: Request, w: World, a: Action)
    requires !a.Lose? && a.r < |w.clients| && Moved(w, a).Some?
    requires ClientOk(q, w.clients[a.r], w.locks, w.records)
    ensures ClientOk(q, Moved(w, a).value, w.locks, w.records)
  {
    if a.Panic? {
      PanickedIsOk(q, w.clients[a.r], w.locks, w.records);
    }
  }

  lemma MovedKeeps(qs: seq<Request>, w: World, a: Action)
    requires Inv(qs, w) && !a.Lose? && a.r < |qs| && Moved(w, a).Some?
    ensures Inv(qs, Put(w, a.r, Moved(w, a).value))
  {
    MovedIsOk(qs[a.r], w, a);
    MoveKeeps(qs, w, a.r, Moved(w, a).value);
  }

  lemma PlainKeeps(qs: seq<Request>, w: World, a: Action, t: World)
    requires Inv(qs, w) && !a.TryLock? && !a.TryLockFails? && !a.Unlock? && !a.Lose? && !a.Crash?
    requires !a.Read? && !a.Save? && !a.Commit? && !a.Finish? && t == Next(qs, w, a)
    ensures Inv(qs, t)
  {
    if t != w {
      MovedKeeps(qs, w, a);
    }
  }

  /** Every step of every request keeps the invariant. */
  lemma NextKeeps(qs: seq<Request>, w: World, a: Action)
    requires Inv(qs, w)
    ensures Inv(qs, Next(qs, w, a))
  {
    var t := Next(qs, w, a);
    match a
    case TryLock(r) => TryLockKeeps(qs, w, r, t);
    case TryLockFails(r, took) => TryLockFailsKeeps(qs, w, r, took, t);
    case Read(r) => ReadKeeps(qs, w, r, t);
    case Save(r, fate) => SaveKeeps(qs, w, r, fate, t);
    case Commit(r, fate) => CommitKeeps(qs, w, r, fate, t);
    case Finish(r, fate) => FinishKeeps(qs, w, r, fate, t);
    case Unlock(r, fate) => UnlockKeeps(qs, w, r, fate, t);
    case Lose(conn) => LoseKeeps(qs, w, conn);
    case Crash(r) => CrashKeeps(qs, w, r, t);
    case _ => PlainKeeps(qs, w, a, t);
  }

  /** The invariant holds after every interleaving. */
  lemma {:induction false} RunKeeps(qs: seq<Request>, actions: seq<Action>)
    requires LocksByKey(qs)
    ensures Inv(qs, Run(qs, actions))
  {
    if actions != [] {
      RunKeeps(qs, actions[..|actions| - 1]);
      NextKeeps(qs, Run(qs, actions[..|actions| - 1]), actions[|actions| - 1]);
    }
  }

  // ----- What every run guarantees -----

  /** Over all interleavings, crashes, lost sessions and failed or ambiguous commits, a key is paid at most once,
      and a payment is never committed without its stored 201. */
  lemma PaidAtMostOnce(qs: seq<Request>, actions: seq<Action>, key: Key)
    requires LocksByKey(qs)
    ensures var w := Run(qs, actions);
      && multiset(w.payments)[key] <= 1
      && (key in w.payments ==> key in w.records && w.records[key].code == CREATED)
  {
    RunKeeps(qs, actions);
    OccursOnce(Run(qs, actions).payments, key);
  }

  lemma {:induction false} OccursOnce(keys: seq<Key>, key: Key)
    requires forall i, j :: 0 <= i < j < |keys| ==> keys[i] != keys[j]
    ensures multiset(keys)[key] <= 1
  {
    if keys != [] {
      var n := |keys| - 1;
      OccursOnce(keys[..n], key);
      assert keys == keys[..n] + [keys[n]];
    }
  }

  /** An answer below 500 that was not the guard's own. */
  predicate Answered(c: Client) {
    c.answer.Some? && !c.answer.value.origin.Guard? && c.answer.value.code < SERVER_ERROR
  }

  /** What the client was told is what is stored for its key, user, path and body. */
  predicate ToldStored(q: Request, c: Client, records: map<Key, Record>) {
    && c.answer.Some? && q.key in records
    && records[q.key] == Record(q.user, q.path, q.hash, c.answer.value.code, c.answer.value.body)
  }

  lemma ClientStaysOk(qs: seq<Request>, actions: seq<Action>, r: nat)
    requires LocksByKey(qs) && r < |qs|
    ensures var w := Run(qs, actions); ClientOk(qs[r], w.clients[r], w.locks, w.records)
  {
    RunKeeps(qs, actions);
  }

  /** Every answer below 500 from the handler, and every replay, is the stored response of the same request,
      exactly if the handler did not panic. */
  lemma AnswersAreStored(qs: seq<Request>, actions: seq<Action>, r: nat)
    requires LocksByKey(qs) && r < |qs| && Answered(Run(qs, actions).clients[r])
    requires Run(qs, actions).clients[r].panicked != Some(Saved)
    ensures var w := Run(qs, actions);
      ToldStored(qs[r], w.clients[r], w.records) <==> w.clients[r].panicked.None?
  {
    ClientStaysOk(qs, actions, r);
    var c := Run(qs, actions).clients[r];
    assert |c.body + PANIC_ERROR| > |c.body|;
  }

  /** The same at the moment the handler's answer is sent, where a panic between saving and committing is covered too:
      its rolled-back 201 is still sent, with nothing stored and nothing paid. */
  lemma SentIsStoredExactly(qs: seq<Request>, actions: seq<Action>, r: nat, fate: Fate)
    requires LocksByKey(qs) && r < |qs| && At(Run(qs, actions), r, Finishing) && Run(qs, actions).clients[r].alive
    requires Answered(Next(qs, Run(qs, actions), Finish(r, fate)).clients[r])
    ensures var w := Run(qs, actions);
      var t := Next(qs, w, Finish(r, fate));
      && (ToldStored(qs[r], t.clients[r], t.records) <==> w.clients[r].panicked.None?)
      && (w.clients[r].panicked == Some(Saved) ==> qs[r].key !in t.records && t.payments == w.payments)
  {
    ClientStaysOk(qs, actions, r);
    var c := Run(qs, actions).clients[r];
    assert |c.body + PANIC_ERROR| > |c.body|;
  }

  /** Two requests with one key that both got an answer below 500 past the guard, and whose handlers did not panic,
      got the same answer. */
  lemma SameKeySameAnswer(qs: seq<Request>, actions: seq<Action>, r: nat, s: nat)
    requires LocksByKey(qs) && r < |qs| && s < |qs| && qs[r].key == qs[s].key
    requires Answered(Run(qs, actions).clients[r]) && Run(qs, actions).clients[r].panicked.None?
    requires Answered(Run(qs, actions).clients[s]) && Run(qs, actions).clients[s].panicked.None?
    ensures var w := Run(qs, actions);
      && w.clients[r].answer.value.code == w.clients[s].answer.value.code
      && w.clients[r].answer.value.body == w.clients[s].answer.value.body
  {
    AnswersAreStored(qs, actions, r);
    AnswersAreStored(qs, actions, s);
  }

  /** A response is stored only under a key that has none yet. */
  lemma StoringAddsRecord(qs: seq<Request>, w: World, a: Action, t: World)
    requires Inv(qs, w) && (a.Commit? || a.Finish?) && t == Next(qs, w, a)
    ensures t.records == w.records || (a.r < |qs| && qs[a.r].key !in w.records && (t.records - {qs[a.r].key}) == w.records)
  {
    if a.r < |qs| {
      assert ClientOk(qs[a.r], w.clients[a.r], w.locks, w.records);
    }
  }

  lemma OtherKeepsRecords(qs: seq<Request>, w: World, a: Action, t: World)
    requires |qs| == |w.clients| && !a.Commit? && !a.Finish? && t == Next(qs, w, a)
    ensures t.records == w.records
  {
  }

  lemma StepKeepsRecord(qs: seq<Request>, w: World, a: Action, key: Key, t: World)
    requires Inv(qs, w) && key in w.records && t == Next(qs, w, a)
    ensures key in t.records && t.records[key] == w.records[key]
  {
    if a.Commit? || a.Finish? {
      StoringAddsRecord(qs, w, a, t);
      assert key in w.records && key in w.records.Keys;
    } else {
      OtherKeepsRecords(qs, w, a, t);
    }
  }

  /** A stored response is never changed or removed, so a retry after a lost answer is told the first outcome. */
  lemma {:induction false} StoredForever(qs: seq<Request>, actions: seq<Action>, n: nat, key: Key)
    requires LocksByKey(qs) && n <= |actions| && key in Run(qs, actions[..n]).records
    ensures key in Run(qs, actions).records && Run(qs, actions).records[key] == Run(qs, actions[..n]).records[key]
    decreases |actions|
  {
    if n == |actions| {
      assert actions[..n] == actions;
    } else {
      var before := actions[..|actions| - 1];
      assert before[..n] == actions[..n];
      StoredForever(qs, before, n, key);
      RunKeeps(qs, before);
      StepKeepsRecord(qs, Run(qs, before), actions[|actions| - 1], key, Run(qs, actions));
    }
  }

  /** In every run no two live requests of one key are between lock and unlock. */
  lemma {:induction false} OneInsidePerKey(qs: seq<Request>, actions: seq<Action>, r: nat, s: nat)
    requires LocksByKey(qs) && r < |qs| && s < |qs| && qs[r].key == qs[s].key
    requires Run(qs, actions).clients[r].alive && Critical(Run(qs, actions).clients[r].phase)
    requires Run(qs, actions).clients[s].alive && Critical(Run(qs, actions).clients[s].phase)
    ensures r == s
  {
    RunKeeps(qs, actions);
    MutualExclusion(qs, Run(qs, actions), r, s);
  }

  /** While a live request may still store its response, nobody else has stored one or may do so:
      its insert neither conflicts with the primary key nor waits for another transaction. */
  lemma InsertNeverConflicts(qs: seq<Request>, actions: seq<Action>, r: nat, s: nat)
    requires LocksByKey(qs) && r < |qs| && s < |qs| && r != s && qs[r].key == qs[s].key
    requires var c := Run(qs, actions).clients[r]; c.alive && Missed(c)
    ensures var w := Run(qs, actions);
      qs[r].key !in w.records && !(w.clients[s].alive && Missed(w.clients[s]))
  {
    RunKeeps(qs, actions);
    var w := Run(qs, actions);
    assert ClientOk(qs[r], w.clients[r], w.locks, w.records);
    if w.clients[s].alive && Missed(w.clients[s]) {
      MutualExclusion(qs, w, r, s);
    }
  }

  /** Once a key is paid, every answer below 500 that its requests get past the guard is a 201. */
  lemma PaidKeyAnswersCreated(qs: seq<Request>, actions: seq<Action>, r: nat)
    requires LocksByKey(qs) && r < |qs| && qs[r].key in Run(qs, actions).payments
    requires Answered(Run(qs, actions).clients[r])
    ensures Run(qs, actions).clients[r].answer.value.code == CREATED
  {
    ClientStaysOk(qs, actions, r);
    PaidAtMostOnce(qs, actions, qs[r].key);
  }

  // ----- A stored 201 and its payment -----

  /** A request of the key panicked after it had served the payment and before it saved its response. */
  ghost predicate PanickedServed(qs: seq<Request>, clients: seq<Client>, key: Key)
    requires |qs| == |clients|
  {
    exists r :: 0 <= r < |qs| && qs[r].key == key && clients[r].panicked == Some(Created)
  }

  /** A handler returns an unsaved 201 exactly by such a panic. */
  predicate UnsavedIsPanic(c: Client) {
    c.phase == Finishing ==> (c.code == CREATED && !c.saved <==> c.panicked == Some(Created))
  }

  /** A 201 is stored only with a payment or by such a panic. */
  ghost predicate CreatedOk(qs: seq<Request>, w: World)
    requires |qs| == |w.clients|
  {
    && (forall r :: 0 <= r < |qs| ==> UnsavedIsPanic(w.clients[r]))
    && (forall k :: k in w.records && w.records[k].code == CREATED ==>
          k in w.payments || PanickedServed(qs, w.clients, k))
  }

  /** Actions of other requests, and lost sessions, only take a client's session away. */
  lemma ClientFromOthers(qs: seq<Request>, w: World, a: Action, t: World, r: nat)
    requires |qs| == |w.clients| && t == Next(qs, w, a) && r < |qs| && (a.Lose? || a.r != r)
    ensures t.clients[r] == w.clients[r] || t.clients[r] == w.clients[r].(alive := false)
  {
  }

  lemma PanickedStays(qs: seq<Request>, w: World, a: Action, t: World, r: nat)
    requires |qs| == |w.clients| && t == Next(qs, w, a) && r < |qs|
    requires w.clients[r].panicked == Some(Created) && w.clients[r].phase in {Finishing, Sent, Done, Crashed}
    ensures t.clients[r].panicked == Some(Created)
  {
    if a.Lose? || a.r != r {
      ClientFromOthers(qs, w, a, t, r);
    }
  }

  lemma MovedUnsaved(w: World, a: Action)
    requires !a.Lose? && a.r < |w.clients| && Moved(w, a).Some? && SessionOk(w.clients[a.r]) && PanicOk(w.clients[a.r])
    ensures UnsavedIsPanic(Moved(w, a).value)
  {
  }

  lemma CommittedUnsaved(q: Request, w: World, r: nat, fate: Fate)
    requires r < |w.clients| && SessionOk(w.clients[r]) && PanicOk(w.clients[r])
    ensures w.clients[r].phase == Created ==> UnsavedIsPanic(SaveStep(q, w, r, fate).clients[r])
    ensures w.clients[r].phase == Saved ==> UnsavedIsPanic(CommitStep(q, w, r, fate).clients[r])
  {
  }

  lemma OwnStepUnsaved(qs: seq<Request>, w: World, a: Action, t: World)
    requires |qs| == |w.clients| && t == Next(qs, w, a) && !a.Lose? && a.r < |qs|
    requires SessionOk(w.clients[a.r]) && PanicOk(w.clients[a.r]) && UnsavedIsPanic(w.clients[a.r])
    ensures UnsavedIsPanic(t.clients[a.r])
  {
    if a.Save? || a.Commit? {
      CommittedUnsaved(qs[a.r], w, a.r, a.fate);
    } else if Moved(w, a).Some? {
      MovedUnsaved(w, a);
    }
  }

  lemma FinishingStays(qs: seq<Request>, w: World, a: Action, t: World, r: nat)
    requires |qs| == |w.clients| && t == Next(qs, w, a) && r < |qs|
    requires SessionOk(w.clients[r]) && PanicOk(w.clients[r]) && UnsavedIsPanic(w.clients[r])
    ensures UnsavedIsPanic(t.clients[r])
  {
    if a.Lose? || a.r != r {
      ClientFromOthers(qs, w, a, t, r);
    } else {
      OwnStepUnsaved(qs, w, a, t);
    }
  }

  lemma StoredCreated(qs: seq<Request>, w: World, a: Action, t: World)
    requires Inv(qs, w) && CreatedOk(qs, w) && (a.Commit? || a.Finish?) && t == Next(qs, w, a)
    requires a.r < |qs| && qs[a.r].key !in w.records && qs[a.r].key in t.records && t.records[qs[a.r].key].code == CREATED
    ensures qs[a.r].key in t.payments || t.clients[a.r].panicked == Some(Created)
  {
    assert ClientOk(qs[a.r], w.clients[a.r], w.locks, w.records);
  }

  lemma PaymentsStay(qs: seq<Request>, w: World, a: Action, t: World, key: Key)
    requires |qs| == |w.clients| && t == Next(qs, w, a) && key in w.payments
    ensures key in t.payments
  {
  }

  lemma RecordsCreatedOk(qs: seq<Request>, w: World, a: Action, t: World, key: Key)
    requires Inv(qs, w) && CreatedOk(qs, w) && t == Next(qs, w, a) && key in t.records && t.records[key].code == CREATED
    ensures key in t.payments || PanickedServed(qs, t.clients, key)
  {
    if key in w.records {
      StepKeepsRecord(qs, w, a, key, t);
      if key in w.payments {
        PaymentsStay(qs, w, a, t, key);
      } else {
        var r: nat :| r < |qs| && qs[r].key == key && w.clients[r].panicked == Some(Created);
        assert ClientOk(qs[r], w.clients[r], w.locks, w.records);
        PanickedStays(qs, w, a, t, r);
      }
    } else if a.Commit? || a.Finish? {
      StoringAddsRecord(qs, w, a, t);
      assert key in t.records && key !in w.records;
      assert key == qs[a.r].key;
      StoredCreated(qs, w, a, t);
    } else {
      OtherKeepsRecords(qs, w, a, t);
    }
  }

  lemma NextKeepsCreated(qs: seq<Request>, w: World, a: Action)
    requires Inv(qs, w) && CreatedOk(qs, w)
    ensures CreatedOk(qs, Next(qs, w, a))
  {
    var t := Next(qs, w, a);
    forall r | 0 <= r < |qs|
      ensures UnsavedIsPanic(t.clients[r])
    {
      assert ClientOk(qs[r], w.clients[r], w.locks, w.records);
      FinishingStays(qs, w, a, t, r);
    }
    forall k | k in t.records && t.records[k].code == CREATED
      ensures k in t.payments || PanickedServed(qs, t.clients, k)
    {
      RecordsCreatedOk(qs, w, a, t, k);
    }
  }

  lemma {:induction false} RunKeepsCreated(qs: seq<Request>, actions: seq<Action>)
    requires LocksByKey(qs)
    ensures CreatedOk(qs, Run(qs, actions))
  {
    if actions != [] {
      RunKeeps(qs, actions[..|actions| - 1]);
      RunKeepsCreated(qs, actions[..|actions| - 1]);
      NextKeepsCreated(qs, Run(qs, actions[..|actions| - 1]), actions[|actions| - 1]);
    }
  }

  /** Over all interleavings a stored 201 means that its key is paid, unless a handler of that key panicked
      between serving and saving. */
  lemma CreatedMeansPaid(qs: seq<Request>, actions: seq<Action>, key: Key)
    requires LocksByKey(qs) && key in Run(qs, actions).records && Run(qs, actions).records[key].code == CREATED
    ensures var w := Run(qs, actions); key in w.payments || PanickedServed(qs, w.clients, key)
  {
    RunKeepsCreated(qs, actions);
  }

  /** So does a 201 that a replay, or a handler that did not panic, has sent. */
  lemma ToldCreatedIsPaid(qs: seq<Request>, actions: seq<Action>, r: nat)
    requires LocksByKey(qs) && r < |qs| && Answered(Run(qs, actions).clients[r])
    requires Run(qs, actions).clients[r].panicked.None? && Run(qs, actions).clients[r].answer.value.code == CREATED
    ensures var w := Run(qs, actions); qs[r].key in w.payments || PanickedServed(qs, w.clients, qs[r].key)
  {
    AnswersAreStored(qs, actions, r);
    CreatedMeansPaid(qs, actions, qs[r].key);
  }

  lemma FinishStores(q: Request, w: World, r: nat, fate: Fate)
    requires At(w, r, Finishing) && w.clients[r].alive && q.key !in w.records
    requires ClientOk(q, w.clients[r], w.locks, w.records) && UnsavedIsPanic(w.clients[r])
    ensures var t := FinishStep(q, w, r, fate);
      (q.key in t.records && t.records[q.key].code == CREATED)
      <==> (w.clients[r].panicked == Some(Created) && !fate.Failed?)
  {
  }

  /** `Finish` stores an unpaid 201 exactly after such a panic, unless storing it fails. */
  lemma FinishStoresUnpaidExactly(qs: seq<Request>, actions: seq<Action>, r: nat, fate: Fate)
    requires LocksByKey(qs) && r < |qs| && At(Run(qs, actions), r, Finishing) && Run(qs, actions).clients[r].alive
    requires qs[r].key !in Run(qs, actions).records
    ensures var w := Run(qs, actions);
      var t := Next(qs, w, Finish(r, fate));
      && ((qs[r].key in t.records && t.records[qs[r].key].code == CREATED)
          <==> (w.clients[r].panicked == Some(Created) && !fate.Failed?))
      && qs[r].key !in t.payments
  {
    ClientStaysOk(qs, actions, r);
    RunKeepsCreated(qs, actions);
    UnpaidUnlessStored(qs, actions, qs[r].key);
    FinishStores(qs[r], Run(qs, actions), r, fate);
  }

  lemma UnpaidUnlessStored(qs: seq<Request>, actions: seq<Action>, key: Key)
    requires LocksByKey(qs) && key !in Run(qs, actions).records
    ensures key !in Run(qs, actions).payments
  {
    RunKeeps(qs, actions);
  }

  // ----- Sample runs -----

  function Steps(qs: seq<Request>, w: World, actions: seq<Action>): (t: World)
    requires |qs| == |w.clients|
    ensures |qs| == |t.clients|
    decreases |actions|
  {
    if actions == [] then w else Steps(qs, Next(qs, w, actions[0]), actions[1..])
  }

  lemma {:induction false} FirstStep(qs: seq<Request>, w: World, a: Action, rest: seq<Action>)
    requires |qs| == |w.clients|
    ensures Steps(qs, w, [a] + rest) == Steps(qs, Next(qs, w, a), rest)
  {
    assert ([a] + rest)[1..] == rest;
  }

  lemma {:induction false} ThreeSteps(qs: seq<Request>, w: World, a: Action, b: Action, c: Action, w1: World, w2: World)
    requires |qs| == |w.clients| == |w1.clients| == |w2.clients|
    requires w1 == Next(qs, w, a) && w2 == Next(qs, w1, b)
    ensures Steps(qs, w, [a, b, c]) == Next(qs, w2, c)
  {
    assert [a, b, c] == [a] + ([b] + [c]) && [c] == [c] + [];
    FirstStep(qs, w, a, [b] + [c]);
    FirstStep(qs, w1, b, [c]);
    FirstStep(qs, w2, c, []);
  }

  lemma {:induction false} StepsAppend(qs: seq<Request>, w: World, actions: seq<Action>, a: Action)
    requires |qs| == |w.clients|
    ensures Steps(qs, w, actions + [a]) == Next(qs, Steps(qs, w, actions), a)
    decreases |actions|
  {
    if actions == [] {
      assert [a][1..] == [];
    } else {
      assert (actions + [a])[1..] == actions[1..] + [a];
      StepsAppend(qs, Next(qs, w, actions[0]), actions[1..], a);
    }
  }

  /** A run followed by more actions is one run. */
  lemma {:induction false} RunThenSteps(qs: seq<Request>, actions: seq<Action>, more: seq<Action>)
    ensures Run(qs, actions + more) == Steps(qs, Run(qs, actions), more)
    decreases |more|
  {
    if more == [] {
      assert actions + more == actions;
    } else {
      var n := |more| - 1;
      assert (actions + more)[..|actions + more| - 1] == actions + more[..n];
      assert more == more[..n] + [more[n]];
      RunThenSteps(qs, actions, more[..n]);
      StepsAppend(qs, Run(qs, actions), more[..n], more[n]);
    }
  }

  lemma {:induction false} StepsCompose(qs: seq<Request>, w: World, a: seq<Action>, b: seq<Action>)
    requires |qs| == |w.clients|
    ensures Steps(qs, w, a + b) == Steps(qs, Steps(qs, w, a), b)
    decreases |a|
  {
    if a == [] {
      assert a + b == b;
    } else {
      assert (a + b)[1..] == a[1..] + b;
      StepsCompose(qs, Next(qs, w, a[0]), a[1..], b);
    }
  }

  lemma {:induction false} NextMoved(qs: seq<Request>, w: World, a: Action, c: Client)
    requires |qs| == |w.clients| && !a.Lose? && a.r < |qs| && Moved(w, a) == Some(c)
    ensures Next(qs, w, a) == Put(w, a.r, c)
  {
  }

  lemma {:induction false} NextTryLock(qs: seq<Request>, w: World, r: nat, c: Client, conn: nat)
    requires |qs| == |w.clients| && r < |qs| && w.clients[r] == c && c.phase == Trying && c.alive && c.conn == Some(conn)
    requires Grants(w.locks, qs[r].lockId, conn)
    ensures Next(qs, w, TryLock(r)) == Put(w.(locks := Take(w.locks, qs[r].lockId, conn)), r, c.(phase := Reading))
  {
  }

  lemma {:induction false} NextRead(qs: seq<Request>, w: World, r: nat, c: Client)
    requires |qs| == |w.clients| && r < |qs| && w.clients[r] == c && c.phase == Reading && c.alive && c.conn.Some?
    ensures Next(qs, w, Read(r)) == Put(w, r, Looked(qs[r], c, w.records))
  {
  }

  lemma {:induction false} NextSave(qs: seq<Request>, w: World, r: nat, c: Client)
    requires |qs| == |w.clients| && r < |qs| && w.clients[r] == c && c.phase == Created && c.alive
    requires qs[r].key !in w.records
    ensures Next(qs, w, Save(r, Applied)) == Put(w, r, c.(phase := Saved, saved := true))
  {
  }

  lemma {:induction false} PutAgain(w: World, r: nat, c: Client, d: Client, locks: map<int, Owner>)
    requires r < |w.clients|
    ensures Put(Put(w, r, c), r, d) == Put(w, r, d)
    ensures Put(Put(w, r, c).(locks := locks), r, d) == Put(w.(locks := locks), r, d)
  {
    assert w.clients[r := c][r := d] == w.clients[r := d];
  }

  /** A request connects, takes its free or re-entered lock, and looks its key up. */
  lemma {:induction false} ConnectAndRead(qs: seq<Request>, w: World, r: nat, conn: nat)
    requires |qs| == |w.clients| && At(w, r, Idle) && !InUse(w, conn) && Grants(w.locks, qs[r].lockId, conn)
    ensures var c := w.clients[r].(phase := Reading, conn := Some(conn), alive := true);
      Steps(qs, w, StartActions(r, conn))
      == Put(w.(locks := Take(w.locks, qs[r].lockId, conn)), r, Looked(qs[r], c, w.records))
  {
    var c1 := w.clients[r].(phase := Trying, conn := Some(conn), alive := true);
    var c2 := c1.(phase := Reading);
    var locked := w.(locks := Take(w.locks, qs[r].lockId, conn));
    NextMoved(qs, w, Connect(r, conn), c1);
    NextTryLock(qs, Put(w, r, c1), r, c1, conn);
    PutAgain(w, r, c1, c2, locked.locks);
    NextRead(qs, Put(locked, r, c2), r, c2);
    PutAgain(locked, r, c2, Looked(qs[r], c2, w.records), locked.locks);
    ThreeSteps(qs, w, Connect(r, conn), TryLock(r), Read(r), Put(w, r, c1), Put(locked, r, c2));
  }

  function StartActions(r: nat, conn: nat): seq<Action> {
    [Connect(r, conn), TryLock(r), Read(r)]
  }

  /** Waiting for nobody: idle, with its lock and this connection free, and nothing stored for its key. */
  ghost predicate Undisturbed(qs: seq<Request>, w: World, r: nat, conn: nat) {
    && |qs| == |w.clients| && At(w, r, Idle) && w.clients[r].panicked.None? && !InUse(w, conn)
    && qs[r].key !in w.records && qs[r].lockId !in w.locks
  }

  /** The request's session as its handler starts. */
  function Started(q: Request, w: World, r: nat, conn: nat): World
    requires r < |w.clients|
  {
    Put(w.(locks := w.locks[q.lockId := Owner(conn, 1)]), r,
        Client(Running, Some(conn), true, 0, "", false, w.clients[r].answer, None))
  }

  lemma {:induction false} UndisturbedStarts(qs: seq<Request>, w: World, r: nat, conn: nat)
    requires Undisturbed(qs, w, r, conn)
    ensures Steps(qs, w, StartActions(r, conn)) == Started(qs[r], w, r, conn)
  {
    ConnectAndRead(qs, w, r, conn);
  }

  lemma {:induction false} NextUnlock(qs: seq<Request>, w: World, r: nat, c: Client, fate: Fate)
    requires |qs| == |w.clients| && r < |qs| && w.clients[r] == c && c.phase in {Sent, Releasing} && c.conn.Some? && c.answer.Some?
    ensures Next(qs, w, Unlock(r, fate)) == UnlockStep(qs[r], w, r, fate)
  {
  }

  lemma {:induction false} NextFinish(qs: seq<Request>, w: World, r: nat, c: Client)
    requires |qs| == |w.clients| && r < |qs| && w.clients[r] == c && c.phase == Finishing && c.code < SERVER_ERROR
    requires c.saved || (c.alive && qs[r].key !in w.records)
    ensures Next(qs, w, Finish(r, Applied)) ==
      Put(if c.saved then w else w.(records := w.records[qs[r].key := RecordOf(qs[r], c)]), r, Flushed(c))
  {
  }

  lemma {:induction false} NextCommit(qs: seq<Request>, w: World, r: nat, c: Client)
    requires |qs| == |w.clients| && r < |qs| && w.clients[r] == c && c.phase == Saved && c.alive
    ensures Next(qs, w, Commit(r, Applied)) ==
      Put(w.(records := w.records[qs[r].key := RecordOf(qs[r], c)], payments := w.payments + [qs[r].key]), r,
          c.(phase := Finishing))
  {
  }

  function ServeActions(r: nat, body: string): seq<Action> {
    [Begin(r), Serve(r, body), Save(r, Applied)]
  }

  function CloseActions(r: nat, unlock: Fate): seq<Action> {
    [Commit(r, Applied), Finish(r, Applied), Unlock(r, unlock)]
  }

  function PayActions(r: nat, body: string, unlock: Fate): seq<Action> {
    ServeActions(r, body) + CloseActions(r, unlock)
  }

  lemma {:induction false} StartedIsServed(qs: seq<Request>, w: World, r: nat, conn: nat, body: string)
    requires |qs| == |w.clients| && r < |qs| && qs[r].key !in w.records
    requires w.clients[r] == Client(Running, Some(conn), true, 0, "", false, w.clients[r].answer, None)
    ensures Steps(qs, w, ServeActions(r, body))
      == Put(w, r, Client(Saved, Some(conn), true, CREATED, body, true, w.clients[r].answer, None))
  {
    var c1 := w.clients[r].(phase := InTx);
    var c2 := c1.(phase := Created, code := CREATED, body := body);
    var w1, w2 := Put(w, r, c1), Put(w, r, c2);
    NextMoved(qs, w, Begin(r), c1);
    NextMoved(qs, w1, Serve(r, body), c2);
    PutAgain(w, r, c1, c2, w.locks);
    NextSave(qs, w2, r, c2);
    PutAgain(w, r, c2, c2.(phase := Saved, saved := true), w.locks);
    ThreeSteps(qs, w, Begin(r), Serve(r, body), Save(r, Applied), w1, w2);
  }

  /** The request has been paid, stored and answered 201. */
  function Paid(q: Request, w: World, r: nat, conn: nat, body: string, unlock: Fate): World
    requires r < |w.clients|
  {
    World(w.clients[r := Client(Done, None, false, CREATED, body, true, Some(Answer(Handler, CREATED, body)), None)],
          if unlock.Failed? then w.locks else GiveBack(w.locks, q.lockId, conn),
          w.records[q.key := Record(q.user, q.path, q.hash, CREATED, body)], w.payments + [q.key])
  }

  lemma {:induction false} ServedIsPaid(qs: seq<Request>, w: World, r: nat, conn: nat, body: string, unlock: Fate)
    requires |qs| == |w.clients| && r < |qs| && qs[r].key !in w.records
    requires w.clients[r] == Client(Saved, Some(conn), true, CREATED, body, true, w.clients[r].answer, None)
    ensures Steps(qs, w, CloseActions(r, unlock)) == Paid(qs[r], w, r, conn, body, unlock)
  {
    var q, c := qs[r], w.clients[r];
    var stored := w.(records := w.records[q.key := RecordOf(q, c)], payments := w.payments + [q.key]);
    var w1, w2 := Put(stored, r, c.(phase := Finishing)), Put(stored, r, Flushed(c));
    NextCommit(qs, w, r, c);
    NextFinish(qs, w1, r, c.(phase := Finishing));
    NextUnlock(qs, w2, r, Flushed(c), unlock);
    PutAgain(stored, r, c.(phase := Finishing), Flushed(c), w.locks);
    ThreeSteps(qs, w, Commit(r, Applied), Finish(r, Applied), Unlock(r, unlock), w1, w2);
  }

  /** From a connected start to the answer, in one sequence of actions. */
  lemma {:induction false} UndisturbedPays(qs: seq<Request>, w: World, r: nat, conn: nat, body: string, unlock: Fate)
    requires Undisturbed(qs, w, r, conn)
    ensures Steps(qs, w, StartActions(r, conn) + PayActions(r, body, unlock))
      == Paid(qs[r], Started(qs[r], w, r, conn), r, conn, body, unlock)
  {
    UndisturbedStarts(qs, w, r, conn);
    var started := Started(qs[r], w, r, conn);
    StartedIsServed(qs, started, r, conn, body);
    var served := Put(started, r, Client(Saved, Some(conn), true, CREATED, body, true, w.clients[r].answer, None));
    ServedIsPaid(qs, served, r, conn, body, unlock);
    StepsCompose(qs, started, ServeActions(r, body), CloseActions(r, unlock));
    StepsCompose(qs, w, StartActions(r, conn), PayActions(r, body, unlock));
  }

  /** An undisturbed request with a fresh key is paid once, answered 201, and leaves its lock free. */
  lemma {:induction false} UndisturbedIsPaid(qs: seq<Request>, w: World, r: nat, conn: nat, body: string)
    requires Undisturbed(qs, w, r, conn)
    ensures var t := Steps(qs, w, StartActions(r, conn) + PayActions(r, body, Applied));
      && t.payments == w.payments + [qs[r].key] && t.locks == w.locks
      && t.clients[r].phase == Done && t.clients[r].answer == Some(Answer(Handler, CREATED, body))
  {
    UndisturbedPays(qs, w, r, conn, body, Applied);
    assert GiveBack(w.locks[qs[r].lockId := Owner(conn, 1)], qs[r].lockId, conn) == w.locks;
  }

  // ----- Giving the lock back -----

  /** After an answer the key's lock is free for another connection exactly if the unlock takes effect and the
      session held the lock once; a session that still held it from an earlier request keeps it. */
  lemma {:induction false} UnlockFreesExactly(qs: seq<Request>, w: World, r: nat, fate: Fate, other: nat)
    requires Inv(qs, w) && Live(w, r, Sent) && w.clients[r].conn != Some(other)
    ensures qs[r].lockId in w.locks
    ensures Grants(Next(qs, w, Unlock(r, fate)).locks, qs[r].lockId, other)
      <==> !fate.Failed? && w.locks[qs[r].lockId].count == 1
  {
    assert ClientOk(qs[r], w.clients[r], w.locks, w.records);
  }

  /** The same when the guard gives up: what its session holds is given back as after an answer, and a lock that
      another session holds is left alone. */
  lemma {:induction false} ReleaseFreesExactly(qs: seq<Request>, w: World, r: nat, fate: Fate, conn: nat, other: nat)
    requires Inv(qs, w) && At(w, r, Releasing) && w.clients[r].conn == Some(conn) && conn != other
    ensures qs[r].lockId in w.locks && w.locks[qs[r].lockId].conn == conn ==>
      (Grants(Next(qs, w, Unlock(r, fate)).locks, qs[r].lockId, other)
       <==> !fate.Failed? && w.locks[qs[r].lockId].count == 1)
    ensures qs[r].lockId !in w.locks || w.locks[qs[r].lockId].conn != conn ==>
      Next(qs, w, Unlock(r, fate)).locks == w.locks
  {
    assert ClientOk(qs[r], w.clients[r], w.locks, w.records);
  }

  function ReplayActions(s: nat, conn: nat): seq<Action> {
    StartActions(s, conn) + [Unlock(s, Applied)]
  }

  /** A retry whose lock is free or still held by its pooled session is answered, and leaves the lock as it found it. */
  lemma {:induction false} ReplayKeepsLock(qs: seq<Request>, w: World, s: nat, conn: nat, record: Record)
    requires |qs| == |w.clients| && At(w, s, Idle) && !InUse(w, conn)
    requires qs[s].key in w.records && w.records[qs[s].key] == record && record.code != 0
    requires record.user == qs[s].user && record.path == qs[s].path && record.hash == qs[s].hash
    requires Grants(w.locks, qs[s].lockId, conn) && (qs[s].lockId in w.locks ==> w.locks[qs[s].lockId].count >= 1)
    ensures Steps(qs, w, ReplayActions(s, conn)) == Put(w, s, Ended(w.clients[s], Answer(Replay, record.code, record.body)))
  {
    var q := qs[s];
    var c := w.clients[s].(phase := Sent, conn := Some(conn), alive := true,
                           answer := Some(Answer(Replay, record.code, record.body)));
    var twice := w.(locks := Take(w.locks, q.lockId, conn));
    ConnectAndRead(qs, w, s, conn);
    NextUnlock(qs, Put(twice, s, c), s, c, Applied);
    assert GiveBack(twice.locks, q.lockId, conn) == w.locks;
    PutAgain(twice, s, c, Ended(c, c.answer.value), w.locks);
    StepsAppend(qs, w, StartActions(s, conn), Unlock(s, Applied));
  }

  function StrandingActions(r: nat, s: nat, conn: nat, body: string): seq<Action> {
    StartActions(r, conn) + PayActions(r, body, Failed) + ReplayActions(s, conn)
  }

  lemma {:induction false} StrandingSteps(qs: seq<Request>, w: World, r: nat, s: nat, conn: nat, body: string)
    requires Undisturbed(qs, w, r, conn) && s < |qs| && r != s && qs[s] == qs[r] && At(w, s, Idle)
    ensures var first := Paid(qs[r], Started(qs[r], w, r, conn), r, conn, body, Failed);
      Steps(qs, w, StrandingActions(r, s, conn, body)) == Put(first, s, Ended(w.clients[s], Answer(Replay, CREATED, body)))
  {
    var first := Paid(qs[r], Started(qs[r], w, r, conn), r, conn, body, Failed);
    UndisturbedPays(qs, w, r, conn, body, Failed);
    ReplayKeepsLock(qs, first, s, conn, Record(qs[s].user, qs[s].path, qs[s].hash, CREATED, body));
    StepsCompose(qs, w, StartActions(r, conn) + PayActions(r, body, Failed), ReplayActions(s, conn));
  }

  lemma {:induction false} RunIsSteps(qs: seq<Request>, actions: seq<Action>)
    ensures Run(qs, actions) == Steps(qs, Initial(|qs|), actions)
  {
    RunThenSteps(qs, [], actions);
    assert [] + actions == actions;
  }

  /** A run in which every unlock but one succeeds: the first request's unlock fails, the second request gets the same
      pooled session, replays and unlocks. Both are answered, no request uses the session, and the key stays locked
      for every other connection. */
  lemma {:induction false} StrandedRun(qs: seq<Request>, r: nat, s: nat, conn: nat, body: string, other: nat)
    requires r < |qs| && s < |qs| && r != s && qs[s] == qs[r] && other != conn
    ensures var t := Run(qs, StrandingActions(r, s, conn, body));
      && t.clients[r].phase == Done && t.clients[r].answer == Some(Answer(Handler, CREATED, body))
      && t.clients[s].phase == Done && t.clients[s].answer == Some(Answer(Replay, CREATED, body))
      && !InUse(t, conn) && !Grants(t.locks, qs[r].lockId, other)
  {
    RunIsSteps(qs, StrandingActions(r, s, conn, body));
    StrandingSteps(qs, Initial(|qs|), r, s, conn, body);
  }

  // ----- A handler that panics -----

  function PanicActions(r: nat): seq<Action> {
    [Panic(r), Finish(r, Applied), Unlock(r, Applied)]
  }

  /** A handler that panics before it wrote anything: 200 and the recovery's error are sent, 0 and nothing are
      stored. */
  lemma {:induction false} PanicIsStoredAsZero(qs: seq<Request>, w: World, r: nat, conn: nat)
    requires |qs| == |w.clients| && r < |qs| && qs[r].key !in w.records
    requires w.clients[r] == Client(Running, Some(conn), true, 0, "", false, w.clients[r].answer, None)
    ensures var t := Steps(qs, w, PanicActions(r));
      && t == Put(w.(records := w.records[qs[r].key := Record(qs[r].user, qs[r].path, qs[r].hash, 0, "")],
                     locks := GiveBack(w.locks, qs[r].lockId, conn)),
                  r, Client(Done, None, false, 0, "", false, Some(Answer(Handler, 200, "" + PANIC_ERROR)), Some(Running)))
  {
    var q := qs[r];
    var c1 := Panicked(w.clients[r]);
    var stored := w.(records := w.records[q.key := RecordOf(q, c1)]);
    var w1, w2 := Put(w, r, c1), Put(stored, r, Flushed(c1));
    NextFinish(qs, w1, r, c1);
    NextUnlock(qs, w2, r, Flushed(c1), Applied);
    NextMoved(qs, w, Panic(r), c1);
    PutAgain(stored, r, c1, Flushed(c1), w.locks);
    ThreeSteps(qs, w, Panic(r), Finish(r, Applied), Unlock(r, Applied), w1, w2);
  }

  function RetryActions(r: nat, s: nat, conn: nat): seq<Action> {
    StartActions(r, conn) + PanicActions(r) + StartActions(s, conn)
  }

  /** The retry finds a status it cannot send: it is answered 500, and its lock is never given back. */
  lemma {:induction false} RetryLeaks(qs: seq<Request>, w: World, s: nat, conn: nat)
    requires |qs| == |w.clients| && At(w, s, Idle) && w.clients[s].panicked.None? && !InUse(w, conn)
    requires qs[s].lockId !in w.locks && qs[s].key in w.records
    requires w.records[qs[s].key] == Record(qs[s].user, qs[s].path, qs[s].hash, 0, "")
    ensures var t := Steps(qs, w, StartActions(s, conn));
      && t.clients[s].phase == Leaked && t.clients[s].answer == Some(Answer(Guard, SERVER_ERROR, PANIC_ERROR))
      && t == Put(w.(locks := w.locks[qs[s].lockId := Owner(conn, 1)]), s, t.clients[s])
  {
    ConnectAndRead(qs, w, s, conn);
  }

  /** Told 200 without a payment, with an unsendable status stored for its key. */
  function Botched(q: Request, w: World, r: nat): World
    requires r < |w.clients|
  {
    var c := Client(Done, None, false, 0, "", false, Some(Answer(Handler, 200, "" + PANIC_ERROR)), Some(Running));
    Put(w.(records := w.records[q.key := Record(q.user, q.path, q.hash, 0, "")]), r, c)
  }

  lemma {:induction false} PanicSteps(qs: seq<Request>, w: World, r: nat, conn: nat)
    requires Undisturbed(qs, w, r, conn)
    ensures Steps(qs, w, StartActions(r, conn) + PanicActions(r)) == Botched(qs[r], w, r)
  {
    UndisturbedStarts(qs, w, r, conn);
    var started := Started(qs[r], w, r, conn);
    PanicIsStoredAsZero(qs, started, r, conn);
    assert GiveBack(started.locks, qs[r].lockId, conn) == w.locks;
    StepsCompose(qs, w, StartActions(r, conn), PanicActions(r));
  }

  /** A run in which the first request's handler panics and the second is its retry: the first is told 200 although
      nothing was paid, and the second leaves the key locked for every other connection. */
  lemma {:induction false} PanickedRun(qs: seq<Request>, r: nat, s: nat, conn: nat, other: nat)
    requires r < |qs| && s < |qs| && r != s && qs[s] == qs[r] && other != conn
    ensures var t := Run(qs, RetryActions(r, s, conn));
      && t.clients[r].phase == Done && t.clients[r].answer == Some(Answer(Handler, 200, "" + PANIC_ERROR))
      && t.clients[s].phase == Leaked && t.payments == []
      && !ToldStored(qs[r], t.clients[r], t.records) && !Grants(t.locks, qs[r].lockId, other)
  {
    var w := Initial(|qs|);
    var botched := Botched(qs[r], w, r);
    RunIsSteps(qs, RetryActions(r, s, conn));
    PanicSteps(qs, w, r, conn);
    RetryLeaks(qs, botched, s, conn);
    StepsCompose(qs, w, StartActions(r, conn) + PanicActions(r), StartActions(s, conn));
  }

  /** No action of another request, and no ordinary action of its own, moves a leaked request. */
  lemma LeakedStays(qs: seq<Request>, w: World, s: nat, a: Action)
    requires |qs| == |w.clients| && ConnsDistinct(w.clients) && Live(w, s, Leaked)
    requires a != Crash(s) && a != Lose(w.clients[s].conn.value)
    ensures Next(qs, w, a).clients[s] == w.clients[s]
  {
    if a.Crash? && a.r < |w.clients| {
      assert w.clients[a.r].conn != w.clients[s].conn;
    }
  }

  /** Nothing but the end of its process or its session frees a leaked lock. */
  lemma LeakedHolds(qs: seq<Request>, w: World, s: nat, a: Action, other: nat)
    requires Inv(qs, w) && Live(w, s, Leaked) && w.clients[s].conn != Some(other)
    requires a != Crash(s) && a != Lose(w.clients[s].conn.value)
    ensures var t := Next(qs, w, a);
      Live(t, s, Leaked) && t.clients[s] == w.clients[s] && !Grants(t.locks, qs[s].lockId, other)
  {
    LeakedStays(qs, w, s, a);
    NextKeeps(qs, w, a);
    StillHeld(qs, Next(qs, w, a), s, other);
  }

  lemma StillHeld(qs: seq<Request>, w: World, s: nat, other: nat)
    requires Inv(qs, w) && Live(w, s, Leaked) && w.clients[s].conn != Some(other)
    ensures !Grants(w.locks, qs[s].lockId, other)
  {
    assert ClientOk(qs[s], w.clients[s], w.locks, w.records);
  }

  /** What a panic between saving and committing leaves: the 201 is sent, and neither payment nor response is kept. */
  function Unpaid(q: Request, w: World, r: nat, conn: nat, body: string): World
    requires r < |w.clients|
  {
    var answer := Answer(Handler, CREATED, body + PANIC_ERROR);
    Put(w.(locks := GiveBack(w.locks, q.lockId, conn)), r,
        Client(Done, None, false, CREATED, body, true, Some(answer), Some(Saved)))
  }

  lemma {:induction false} ServedPanics(qs: seq<Request>, w: World, r: nat, conn: nat, body: string)
    requires |qs| == |w.clients| && r < |qs|
    requires w.clients[r] == Client(Saved, Some(conn), true, CREATED, body, true, None, None)
    ensures Steps(qs, w, PanicActions(r)) == Unpaid(qs[r], w, r, conn, body)
  {
    var c := w.clients[r];
    var c1 := Panicked(c);
    var w1, w2 := Put(w, r, c1), Put(w, r, Flushed(c1));
    NextMoved(qs, w, Panic(r), c1);
    NextFinish(qs, w1, r, c1);
    PutAgain(w, r, c1, Flushed(c1), w.locks);
    NextUnlock(qs, w2, r, Flushed(c1), Applied);
    PutAgain(w, r, Flushed(c1), Ended(Flushed(c1), Sending(c1)), GiveBack(w.locks, qs[r].lockId, conn));
    ThreeSteps(qs, w, Panic(r), Finish(r, Applied), Unlock(r, Applied), w1, w2);
  }

  lemma {:induction false} UndisturbedPanics(qs: seq<Request>, w: World, r: nat, conn: nat, body: string)
    requires Undisturbed(qs, w, r, conn) && w.clients[r].answer.None?
    ensures var t := Steps(qs, w, StartActions(r, conn) + (ServeActions(r, body) + PanicActions(r)));
      && t.clients[r].answer == Some(Answer(Handler, CREATED, body + PANIC_ERROR))
      && t.payments == w.payments && t.records == w.records
  {
    var started := Started(qs[r], w, r, conn);
    UndisturbedStarts(qs, w, r, conn);
    StartedIsServed(qs, started, r, conn, body);
    var served := Put(started, r, Client(Saved, Some(conn), true, CREATED, body, true, None, None));
    ServedPanics(qs, served, r, conn, body);
    StepsCompose(qs, started, ServeActions(r, body), PanicActions(r));
    StepsCompose(qs, w, StartActions(r, conn), ServeActions(r, body) + PanicActions(r));
  }

  /** A handler that panics between saving and committing: its 201 is sent, though nothing was paid or stored. */
  lemma {:induction false} UnpaidCreatedRun(qs: seq<Request>, r: nat, conn: nat, body: string)
    requires r < |qs|
    ensures var t := Run(qs, StartActions(r, conn) + (ServeActions(r, body) + PanicActions(r)));
      && t.clients[r].answer == Some(Answer(Handler, CREATED, body + PANIC_ERROR))
      && t.payments == [] && t.records == map[]
  {
    RunIsSteps(qs, StartActions(r, conn) + (ServeActions(r, body) + PanicActions(r)));
    UndisturbedPanics(qs, Initial(|qs|), r, conn, body);
  }

  // ----- A 201 without a payment is stored -----

  lemma {:induction false} StartedIsCreated(qs: seq<Request>, w: World, r: nat, conn: nat, body: string)
    requires |qs| == |w.clients| && r < |qs|
    requires w.clients[r] == Client(Running, Some(conn), true, 0, "", false, None, None)
    ensures Steps(qs, w, [Begin(r), Serve(r, body)])
      == Put(w, r, Client(Created, Some(conn), true, CREATED, body, false, None, None))
  {
    var c1 := w.clients[r].(phase := InTx);
    var c2 := c1.(phase := Created, code := CREATED, body := body);
    NextMoved(qs, w, Begin(r), c1);
    NextMoved(qs, Put(w, r, c1), Serve(r, body), c2);
    PutAgain(w, r, c1, c2, w.locks);
    assert [Begin(r), Serve(r, body)] == [Begin(r)] + [Serve(r, body)];
    FirstStep(qs, w, Begin(r), [Serve(r, body)]);
    assert [Serve(r, body)] == [Serve(r, body)] + [];
    FirstStep(qs, Put(w, r, c1), Serve(r, body), []);
  }

  /** What a panic between serving and saving leaves: the 201 is sent and stored, and nothing is paid. */
  function StoredUnpaid(q: Request, w: World, r: nat, conn: nat, body: string): World
    requires r < |w.clients|
  {
    var answer := Answer(Handler, CREATED, body + PANIC_ERROR);
    Put(w.(records := w.records[q.key := Record(q.user, q.path, q.hash, CREATED, body)],
           locks := GiveBack(w.locks, q.lockId, conn)),
        r, Client(Done, None, false, CREATED, body, false, Some(answer), Some(Created)))
  }

  lemma {:induction false} CreatedPanics(qs: seq<Request>, w: World, r: nat, conn: nat, body: string)
    requires |qs| == |w.clients| && r < |qs| && qs[r].key !in w.records
    requires w.clients[r] == Client(Created, Some(conn), true, CREATED, body, false, None, None)
    ensures Steps(qs, w, PanicActions(r)) == StoredUnpaid(qs[r], w, r, conn, body)
  {
    var q := qs[r];
    var c1 := Panicked(w.clients[r]);
    var stored := w.(records := w.records[q.key := RecordOf(q, c1)]);
    var w1, w2 := Put(w, r, c1), Put(stored, r, Flushed(c1));
    NextMoved(qs, w, Panic(r), c1);
    NextFinish(qs, w1, r, c1);
    PutAgain(stored, r, c1, Flushed(c1), w.locks);
    NextUnlock(qs, w2, r, Flushed(c1), Applied);
    PutAgain(stored, r, Flushed(c1), Ended(Flushed(c1), Sending(c1)), GiveBack(w.locks, q.lockId, conn));
    ThreeSteps(qs, w, Panic(r), Finish(r, Applied), Unlock(r, Applied), w1, w2);
  }

  function ServeAndPanic(r: nat, conn: nat, body: string): seq<Action> {
    StartActions(r, conn) + ([Begin(r), Serve(r, body)] + PanicActions(r))
  }

  lemma {:induction false} ServedThenPanics(qs: seq<Request>, w: World, r: nat, conn: nat, body: string)
    requires Undisturbed(qs, w, r, conn) && w.clients[r].answer.None?
    ensures Steps(qs, w, ServeAndPanic(r, conn, body)) == StoredUnpaid(qs[r], Started(qs[r], w, r, conn), r, conn, body)
  {
    var started := Started(qs[r], w, r, conn);
    UndisturbedStarts(qs, w, r, conn);
    StartedIsCreated(qs, started, r, conn, body);
    var created := Put(started, r, Client(Created, Some(conn), true, CREATED, body, false, None, None));
    CreatedPanics(qs, created, r, conn, body);
    StepsCompose(qs, started, [Begin(r), Serve(r, body)], PanicActions(r));
    StepsCompose(qs, w, StartActions(r, conn), [Begin(r), Serve(r, body)] + PanicActions(r));
  }

  lemma {:induction false} StoredUnpaidIsReplayed(qs: seq<Request>, w: World, r: nat, s: nat, conn: nat, body: string)
    requires Undisturbed(qs, w, r, conn) && w.clients[r].answer.None?
    requires s < |qs| && r != s && qs[s] == qs[r] && At(w, s, Idle)
    ensures var t := Steps(qs, w, ServeAndPanic(r, conn, body) + ReplayActions(s, conn));
      && t.clients[s].answer == Some(Answer(Replay, CREATED, body)) && t.payments == w.payments
      && t.records == w.records[qs[r].key := Record(qs[r].user, qs[r].path, qs[r].hash, CREATED, body)]
  {
    var started := Started(qs[r], w, r, conn);
    var left := StoredUnpaid(qs[r], started, r, conn, body);
    ServedThenPanics(qs, w, r, conn, body);
    assert GiveBack(started.locks, qs[r].lockId, conn) == w.locks;
    ReplayKeepsLock(qs, left, s, conn, Record(qs[s].user, qs[s].path, qs[s].hash, CREATED, body));
    StepsCompose(qs, w, ServeAndPanic(r, conn, body), ReplayActions(s, conn));
  }

  /** A run in which the first handler panics after serving and before saving: the retry is told 201 from the stored
      response, although nothing was paid, and so is every later one. */
  lemma {:induction false} UnpaidStoredRun(qs: seq<Request>, r: nat, s: nat, conn: nat, body: string)
    requires r < |qs| && s < |qs| && r != s && qs[s] == qs[r]
    ensures var t := Run(qs, ServeAndPanic(r, conn, body) + ReplayActions(s, conn));
      && t.clients[s].answer == Some(Answer(Replay, CREATED, body)) && t.payments == []
      && t.records == map[qs[r].key := Record(qs[r].user, qs[r].path, qs[r].hash, CREATED, body)]
  {
    RunIsSteps(qs, ServeAndPanic(r, conn, body) + ReplayActions(s, conn));
    StoredUnpaidIsReplayed(qs, Initial(|qs|), r, s, conn, body);
  }
}
