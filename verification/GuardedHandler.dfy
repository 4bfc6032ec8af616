/** The guarded `CreatePayment` handler as it runs for one request: recorder, session and transaction,
    with every outcome of a database call given in advance. */
module GuardedHandler {
  import opened Results
  import opened Idempotency

  // ----- The lock-acquire loop -----

  /** What one round of the loop meets. */
  datatype Attempt = NoConnection | QueryError | Busy | Acquired

  /** `ended` is `None` when the lock is held, and the guard's own error code otherwise; the client gives up
      once `attempts` are used up. */
  method AcquireLock(attempts: seq<Attempt>) returns (ended: Option<nat>)
    ensures ended.None? <==>
      exists i :: 0 <= i < |attempts| && attempts[i].Acquired? && forall j :: 0 <= j < i ==> attempts[j].Busy?
    ensures ended == Some(408) <==> forall i :: 0 <= i < |attempts| ==> attempts[i].Busy?
    ensures ended.Some? ==> ended.value in {408, 500}
  {
    var i := 0;
    while true
      invariant 0 <= i <= |attempts|
      invariant forall j :: 0 <= j < i ==> attempts[j].Busy?
      decreases |attempts| - i
    {
      if i == |attempts| {
        return Some(408);
      }
      match attempts[i] {
        case NoConnection => return Some(500);
        case QueryError => return Some(500);
        case Acquired => return None;
        case Busy =>
      }
      i := i + 1;
    }
  }

  // ----- Objects -----

  /** The committed tables. */
  class Database {
    var records: map<Key, Record>
    var payments: seq<Key>

    constructor ()
      ensures records == map[] && payments == []
    {
      records, payments := map[], [];
    }
  }

  /** What the handler writes is kept until it is flushed; `sent` is what reached the client. */
  class ResponseRecorder {
    var statusCode: nat
    var body: string
    var sent: seq<Answer>

    constructor ()
      ensures statusCode == 0 && body == "" && sent == []
    {
      statusCode, body, sent := 0, "", [];
    }

    method WriteHeader(code: nat)
      modifies this`statusCode
      ensures statusCode == code
    {
      statusCode := code;
    }

    method Write(text: string)
      modifies this`statusCode, this`body
      ensures statusCode == if old(statusCode) == 0 then 200 else old(statusCode)
      ensures body == old(body) + text
    {
      if statusCode == 0 {
        statusCode := 200;
      }
      body := body + text;
    }

    method Replace(status: nat, text: string)
      modifies this`statusCode, this`body
      ensures statusCode == status && body == text
    {
      statusCode := status;
      body := text;
    }

    method Flush()
      modifies this`sent
      ensures sent == old(sent) + [Answer(Handler, if statusCode == 0 then 200 else statusCode, body)]
    {
      var status := statusCode;
      if status == 0 {
        status := 200;
      }
      sent := sent + [Answer(Handler, status, body)];
    }

    /** A whole response, as the error helpers write it. */
    method Respond(code: nat, text: string)
      modifies this`statusCode, this`body
      ensures code != 0 ==> statusCode == code
      ensures body == if old(body) == "" then text else old(body) + text
    {
      assert "" + text == text;
      WriteHeader(code);
      Write(text);
    }
  }

  /** An open transaction: what it would add to the tables. */
  datatype Tx = Tx(payment: Option<Key>, record: Option<Record>)

  class IdempotencySession {
    const request: Request
    const db: Database
    const recorder: ResponseRecorder
    var saved: bool
    var finished: bool

    constructor (request: Request, db: Database, recorder: ResponseRecorder)
      ensures this.request == request && this.db == db && this.recorder == recorder && !saved && !finished
    {
      this.request, this.db, this.recorder, saved, finished := request, db, recorder, false, false;
    }

    /** The protocol's view of this request. */
    function View(phase: Phase): Client
      reads this, recorder
    {
      Client(phase, Some(0), true, recorder.statusCode, recorder.body, saved, None, None)
    }

    function WorldView(phase: Phase): World
      reads this, recorder, db
    {
      World([View(phase)], map[], db.records, db.payments)
    }

    function Current(): Record
      reads recorder
    {
      Record(request.user, request.path, request.hash, recorder.statusCode, recorder.body)
    }

    /** Stage the recorded response in `tx`, once, unless it is a server error. */
    method Save(tx: Tx, fate: Fate) returns (staged: Tx, ok: bool)
      modifies this`saved
      ensures var skip := finished || old(saved) || recorder.statusCode >= SERVER_ERROR;
        if skip then ok && staged == tx && saved == old(saved)
        else if fate.Applied? && request.key !in db.records then ok && saved && staged == tx.(record := Some(Current()))
        else !ok && !saved
    {
      if finished || saved || recorder.statusCode >= SERVER_ERROR {
        return tx, true;
      }
      if !fate.Applied? || request.key in db.records {
        return tx, false;
      }
      saved := true;
      return tx.(record := Some(Current())), true;
    }

    /** Everything the transaction holds becomes visible, or nothing does; an error may be reported either way. */
    method Commit(tx: Tx, fate: Fate) returns (ok: bool)
      modifies db
      ensures ok == fate.Applied?
      ensures fate.Failed? ==> db.records == old(db.records) && db.payments == old(db.payments)
      ensures !fate.Failed? ==>
        && db.records == (if tx.record.Some? then old(db.records)[request.key := tx.record.value] else old(db.records))
        && db.payments == old(db.payments) + (if tx.payment.Some? then [tx.payment.value] else [])
    {
      if fate.Failed? {
        return false;
      }
      if tx.record.Some? {
        db.records := db.records[request.key := tx.record.value];
      }
      if tx.payment.Some? {
        db.payments := db.payments + [tx.payment.value];
      }
      return fate.Applied?;
    }

    /** Only the first call has an effect: store the response if that is still to be done, then answer. */
    method Finish(fate: Fate)
      modifies this`finished, db, recorder
      ensures finished && saved == old(saved)
      ensures old(finished) ==> WorldView(Running) == old(WorldView(Running)) && recorder.sent == old(recorder.sent)
      ensures !old(finished) ==>
        var t := FinishStep(request, old(WorldView(Finishing)), 0, fate);
        && db.records == t.records && db.payments == t.payments
        && t.clients[0].answer.Some? && recorder.sent == old(recorder.sent) + [t.clients[0].answer.value]
    {
      if finished {
        return;
      }
      finished := true;
      if !saved && recorder.statusCode < SERVER_ERROR {
        var ok := false;
        if request.key !in db.records {
          ok := Commit(Tx(None, Some(Current())), fate);
        }
        if !ok {
          recorder.Replace(SERVER_ERROR, FINISH_ERROR);
        }
      }
      recorder.Flush();
    }
  }

  // ----- The handler -----

  datatype Refusal = Refusal(code: nat, body: string)

  /** How each step of one request turns out. */
  datatype Script = Script(
    refused: Option<Refusal>,
    begins: bool,
    served: Result<string, Refusal>,
    save: Fate,
    commit: Fate,
    finish: Fate)

  predicate ClientError(r: Refusal) {
    400 <= r.code < SERVER_ERROR
  }

  predicate ValidScript(s: Script) {
    && (s.refused.Some? ==> ClientError(s.refused.value))
    && (s.served.Err? ==> ClientError(s.served.error))
  }

  /** The protocol's steps for one undisturbed request, from a cache miss until its handler returns. */
  function ProtocolBody(q: Request, w: World, s: Script): (t: World)
    requires |w.clients| == 1
    ensures |t.clients| == 1
  {
    var qs := [q];
    if s.refused.Some? then Next(qs, w, Refuse(0, s.refused.value.code, s.refused.value.body))
    else if !s.begins then Next(qs, w, BeginFails(0))
    else
      var begun := Next(qs, w, Begin(0));
      match s.served
      case Err(e) => Next(qs, begun, ServeFails(0, e.code, e.body))
      case Ok(body) =>
        var saved := Next(qs, Next(qs, begun, Serve(0, body)), Action.Save(0, s.save));
        Next(qs, saved, Action.Commit(0, s.commit))
  }

  function Protocol(q: Request, w: World, s: Script): World
    requires |w.clients| == 1
  {
    Next([q], ProtocolBody(q, w, s), Action.Finish(0, s.finish))
  }

  lemma ServedIsCreated(qs: seq<Request>, w: World, body: string)
    requires |qs| == |w.clients| == 1 && Live(w, 0, Running)
    ensures Next(qs, Next(qs, w, Begin(0)), Serve(0, body))
      == Put(w, 0, w.clients[0].(phase := Created, code := CREATED, body := body))
  {
    var begun := w.clients[0].(phase := InTx);
    var c := begun.(phase := Created, code := CREATED, body := body);
    NextMoved(qs, w, Begin(0), begun);
    NextMoved(qs, Put(w, 0, begun), Serve(0, body), c);
    PutAgain(w, 0, begun, c, w.locks);
  }

  lemma SaveOfCreated(qs: seq<Request>, w: World, c: Client, fate: Fate)
    requires |qs| == |w.clients| == 1 && c.phase == Created && c.alive && qs[0].key !in w.records
    ensures Next(qs, Put(w, 0, c), Action.Save(0, fate))
      == Put(w, 0, if fate.Applied? then c.(phase := Saved, saved := true) else Wrote(c, SERVER_ERROR, SAVE_ERROR))
  {
    var next := if fate.Applied? then c.(phase := Saved, saved := true) else Wrote(c, SERVER_ERROR, SAVE_ERROR);
    PutAgain(w, 0, c, next, w.locks);
  }

  /** A served request ends in a commit of what it saved, or in the report that it could not be saved. */
  lemma ServedBody(q: Request, w: World, s: Script)
    requires |w.clients| == 1 && Live(w, 0, Running) && q.key !in w.records
    requires s.refused.None? && s.begins && s.served.Ok?
    ensures var c := w.clients[0].(phase := Created, code := CREATED, body := s.served.value);
      ProtocolBody(q, w, s) ==
        if s.save.Applied? then CommitStep(q, Put(w, 0, c.(phase := Saved, saved := true)), 0, s.commit)
        else Put(w, 0, Wrote(c, SERVER_ERROR, SAVE_ERROR))
  {
    ServedIsCreated([q], w, s.served.value);
    SaveOfCreated([q], w, w.clients[0].(phase := Created, code := CREATED, body := s.served.value), s.save);
  }

  /** Any other request ends with the refusal, or the error, in the recorder. */
  lemma RefusedBody(q: Request, w: World, s: Script)
    requires |w.clients| == 1 && Live(w, 0, Running) && ValidScript(s)
    requires s.refused.Some? || !s.begins || s.served.Err?
    ensures var c := w.clients[0];
      ProtocolBody(q, w, s) ==
        if s.refused.Some? then Put(w, 0, Wrote(c, s.refused.value.code, s.refused.value.body))
        else if !s.begins then Put(w, 0, Wrote(c, SERVER_ERROR, BEGIN_ERROR))
        else Put(w, 0, Wrote(c, s.served.error.code, s.served.error.body))
  {
    if s.refused.None? && s.begins {
      assert Next([q], w, Begin(0)) == Put(w, 0, w.clients[0].(phase := InTx));
    }
  }

  /** The payment is inserted: record 201, save it in the transaction, commit. */
  method StoreAndCommit(session: IdempotencySession, body: string, save: Fate, commit: Fate)
    requires !session.saved && !session.finished && session.request.key !in session.db.records
    requires session.recorder.statusCode == 0 && session.recorder.body == ""
    modifies session`saved, session.db, session.recorder`statusCode, session.recorder`body
    ensures var w := old(session.WorldView(Running));
      var c := w.clients[0].(phase := Created, code := CREATED, body := body);
      session.WorldView(Finishing) ==
        if save.Applied? then CommitStep(session.request, Put(w, 0, c.(phase := Saved, saved := true)), 0, commit)
        else Put(w, 0, Wrote(c, SERVER_ERROR, SAVE_ERROR))
  {
    var tx := Tx(Some(session.request.key), None);
    session.recorder.Respond(CREATED, body);
    var ok;
    tx, ok := session.Save(tx, save);
    if !ok {
      session.recorder.Replace(0, "");
      session.recorder.Respond(SERVER_ERROR, SAVE_ERROR);
      return;
    }
    ok := session.Commit(tx, commit);
    if !ok {
      session.recorder.Replace(0, "");
      session.recorder.Respond(SERVER_ERROR, COMMIT_ERROR);
    }
  }

  /** The handler body, up to the deferred `Finish`. */
  method HandlePayment(session: IdempotencySession, s: Script)
    requires ValidScript(s) && !session.saved && !session.finished && session.request.key !in session.db.records
    requires session.recorder.statusCode == 0 && session.recorder.body == ""
    modifies session`saved, session.db, session.recorder`statusCode, session.recorder`body
    ensures session.WorldView(Finishing) == ProtocolBody(session.request, old(session.WorldView(Running)), s)
  {
    if s.refused.None? && s.begins && s.served.Ok? {
      ServedBody(session.request, session.WorldView(Running), s);
      StoreAndCommit(session, s.served.value, s.save, s.commit);
      return;
    }
    RefusedBody(session.request, session.WorldView(Running), s);
    if s.refused.Some? {
      session.recorder.Respond(s.refused.value.code, s.refused.value.body);
    } else if !s.begins {
      session.recorder.Respond(SERVER_ERROR, BEGIN_ERROR);
    } else {
      session.recorder.Respond(s.served.error.code, s.served.error.body);
    }
  }

  /** Handler and deferred `Finish` together do exactly what the protocol says, and answer exactly once. */
  method CreatePayment(session: IdempotencySession, s: Script)
    requires ValidScript(s) && !session.saved && !session.finished && session.recorder.sent == []
    requires session.recorder.statusCode == 0 && session.recorder.body == "" && session.request.key !in session.db.records
    modifies session, session.db, session.recorder
    ensures var t := Protocol(session.request, old(session.WorldView(Running)), s);
      && session.db.records == t.records && session.db.payments == t.payments
      && t.clients[0].answer.Some? && session.recorder.sent == [t.clients[0].answer.value]
  {
    HandlePayment(session, s);
    session.Finish(s.finish);
  }
}
