/** What an approval does, that reversing the payment takes it back, and what the books look like after any run. */
module PaymentEffects {
  import opened Results
  import opened Ledger
  import opened PeriodBalance
  import opened FundLocation
  import opened Billing
  import opened Payments
  import opened PaymentInvariants
  import FifoOrder

  // ----- Which payments are accepted -----

  /** The bill may be paid at all, by this caller. */
  predicate Payable(s: State, c: Caller, b: nat)
    requires DuesKnown(s) && b < |s.bills|
  {
    var bill, due := s.bills[b], DueOf(s, b);
    && bill.isActive && bill.status != Cancelled
    && (!due.isVoluntary ==> bill.isObligatory && due.isActive && bill.status != Paid)
    && (c.role.Warga? ==> c.occupancy == Some(bill.occupancy))
  }

  /** Part of the remaining balance, or under the rule "full" the whole of it. */
  predicate FitsRule(due: Due, amount: int, remaining: int) {
    amount <= remaining && (due.rule.Full? ==> amount == remaining)
  }

  /** A payment of one bill is accepted exactly when the bill is payable and either voluntary, or the oldest
      bill still owing of its household and due, paid within its remaining balance. */
  lemma PaymentAcceptedExactly(s: State, c: Caller, b: nat, amount: int)
    requires DuesKnown(s) && UniqueKeys(s.bills) && b < |s.bills|
    ensures SinglePayError(s, c, b, amount).None? <==>
      (amount > 0 && Payable(s, c, b)
       && (DueOf(s, b).isVoluntary
           || (IsOldest(s, s.bills[b].occupancy, s.bills[b].due, b)
               && FitsRule(DueOf(s, b), amount, Remaining(s, c.role, b)))))
  {
    HeadIsOldest(s, s.bills[b].occupancy, s.bills[b].due, b);
  }

  /** The bill still owes, and so does no earlier bill of its household and due outside the request. */
  ghost predicate NoneSkipped(s: State, allocs: seq<Alloc>, b: nat) {
    && b < |s.bills| && Eligible(s, b, s.bills[b].occupancy, s.bills[b].due)
    && forall e: nat :: FifoOrder.OwedBefore(s, e, b) ==> HasAlloc(allocs, e)
  }

  lemma GroupIsClosed(s: State, allocs: seq<Alloc>, occupancy: nat, due: nat, group: seq<nat>)
    requires WellFormed(s) && DuesKnown(s) && BillsExist(s, allocs) && DistinctBills(allocs)
    requires forall k :: 0 <= k < |allocs| ==> s.bills[allocs[k].bill].occupancy == occupancy
    requires group == SortByPeriod(s.bills, BillsOfDue(s, allocs, due))
    requires forall k :: 0 <= k < |allocs| && s.bills[allocs[k].bill].due == due ==> NoneSkipped(s, allocs, allocs[k].bill)
    ensures ClosedIn(s.bills, group, Queue(s, occupancy, due))
  {
    FifoOrder.BillsOfDueMembers(s, allocs, due);
    SortMembers(s.bills, BillsOfDue(s, allocs, due));
    QueueMembers(s, occupancy, due);
    forall b | b in group
      ensures HasAlloc(allocs, b) && b < |s.bills| && s.bills[b].due == due && NoneSkipped(s, allocs, b)
    {
      assert b in BillsOfDue(s, allocs, due);
      var k :| 0 <= k < |allocs| && allocs[k].bill == b;
    }
  }

  lemma GroupRises(s: State, allocs: seq<Alloc>, occupancy: nat, due: nat)
    requires WellFormed(s) && DuesKnown(s) && BillsExist(s, allocs) && DistinctBills(allocs)
    requires forall k :: 0 <= k < |allocs| ==> s.bills[allocs[k].bill].occupancy == occupancy
    ensures PeriodsRise(s.bills, SortByPeriod(s.bills, BillsOfDue(s, allocs, due)))
  {
    var ids := BillsOfDue(s, allocs, due);
    FifoOrder.BillsOfDueMembers(s, allocs, due);
    forall x, y | 0 <= x < y < |ids|
      ensures PeriodOf(s.bills, ids[x]) != PeriodOf(s.bills, ids[y])
    {
      assert ids[x] in ids && ids[y] in ids;
    }
    SortRises(s.bills, ids);
  }

  /** The queue check of a multi-period request accepts exactly the requests that skip no earlier bill still owing. */
  lemma QueueCheckExact(s: State, allocs: seq<Alloc>, occupancy: nat)
    requires WellFormed(s) && DuesKnown(s) && BillsExist(s, allocs) && DistinctBills(allocs)
    requires forall k :: 0 <= k < |allocs| ==> s.bills[allocs[k].bill].occupancy == occupancy
    ensures FirstError(QueueErrors(s, allocs, occupancy)).None? <==>
      forall i :: 0 <= i < |allocs| && !DueOf(s, allocs[i].bill).isVoluntary ==> NoneSkipped(s, allocs, allocs[i].bill)
  {
    var errors := QueueErrors(s, allocs, occupancy);
    assert forall i :: 0 <= i < |allocs| ==> errors[i] == QueueError(s, allocs, occupancy, i);
    if FirstError(errors).None? {
      forall i | 0 <= i < |allocs| && !DueOf(s, allocs[i].bill).isVoluntary
        ensures NoneSkipped(s, allocs, allocs[i].bill)
      {
        FifoOrder.RequestIsClosed(s, allocs, occupancy, i, 0);
        forall e: nat
          ensures FifoOrder.OwedBefore(s, e, allocs[i].bill) ==> HasAlloc(allocs, e)
        {
          FifoOrder.RequestIsClosed(s, allocs, occupancy, i, e);
        }
      }
    }
    if forall i :: 0 <= i < |allocs| && !DueOf(s, allocs[i].bill).isVoluntary ==> NoneSkipped(s, allocs, allocs[i].bill) {
      forall i | 0 <= i < |allocs|
        ensures QueueError(s, allocs, occupancy, i).None?
      {
        if !DueOf(s, allocs[i].bill).isVoluntary {
          ClosedRequestAccepted(s, allocs, occupancy, i);
        }
      }
    }
  }

  lemma ClosedRequestAccepted(s: State, allocs: seq<Alloc>, occupancy: nat, i: nat)
    requires WellFormed(s) && DuesKnown(s) && BillsExist(s, allocs) && DistinctBills(allocs) && i < |allocs|
    requires forall k :: 0 <= k < |allocs| ==> s.bills[allocs[k].bill].occupancy == occupancy
    requires forall k :: 0 <= k < |allocs| && s.bills[allocs[k].bill].due == s.bills[allocs[i].bill].due ==>
      NoneSkipped(s, allocs, allocs[k].bill)
    ensures GroupError(s, allocs, occupancy, s.bills[allocs[i].bill].due).None?
  {
    var due := s.bills[allocs[i].bill].due;
    var group := SortByPeriod(s.bills, BillsOfDue(s, allocs, due));
    GroupIsClosed(s, allocs, occupancy, due, group);
    GroupRises(s, allocs, occupancy, due);
    QueueRises(s, occupancy, due);
    QueueMembers(s, occupancy, due);
    PrefixMeansClosed(s.bills, group, Queue(s, occupancy, due));
    assert allocs[i].bill in Queue(s, occupancy, due);
  }

  // ----- Approving -----

  /** Who may decide a payment, and what an approval must come with. */
  predicate MayVerify(s: State, verifier: nat, id: nat, decision: Decision) {
    && id < |s.payments| && s.payments[id].status == Pending && s.payments[id].submittedBy != verifier
    && (decision.Approve? ==> decision.at.Some? && FitsLocation(s.books, s.payments[id].paidBy, decision))
  }

  /** Cash goes to a strongbox or to hand, a bank transfer to an account, and only while the place is active. */
  predicate FitsLocation(b: Books, paidBy: PaymentMethod, decision: Decision)
    requires decision.Approve?
  {
    match decision.location
    case None => !decision.enforced
    case Some(l) =>
      l < |b.locations| && b.locations[l].isActive && (b.locations[l].category.Rekening? <==> paidBy.BankMethod?)
  }

  /** The errors raised before the payment's target is looked at. */
  predicate IsGuardError(e: PayError) {
    e in {PaymentNotFound, NotPending, OwnPayment, DateRequired,
          LocationIsRequired, UnknownLocation, ClosedLocation, MethodMismatch}
  }

  /** A decision gets past the guard exactly when the caller may make it; a rejection then always succeeds. */
  lemma VerifyGuardExact(s: State, verifier: nat, id: nat, decision: Decision)
    requires DuesKnown(s)
    ensures var v := VerifyPayment(s, verifier, id, decision);
      && ((v.Err? && IsGuardError(v.error)) <==> !MayVerify(s, verifier, id, decision))
      && (decision.Reject? && MayVerify(s, verifier, id, decision) ==> v.Ok?)
  {
    if MayVerify(s, verifier, id, decision) {
      ApprovalErrors(s, id);
    }
  }

  lemma ApprovalErrors(s: State, id: nat)
    requires DuesKnown(s) && id < |s.payments|
    ensures FirstError(OverpayErrors(s, ByBill(s.payments[id].allocs))).Some? ==>
      FirstError(OverpayErrors(s, ByBill(s.payments[id].allocs))).value in
        {BillNotFound, AlreadyPaid, BillCancelled, InactiveBill, NotObligatory, ExceedsRemaining}
  {
    var errors := OverpayErrors(s, ByBill(s.payments[id].allocs));
    if FirstError(errors).Some? {
      var _ := FirstErrorIsFirst(errors);
    }
  }

  // ----- Reversing -----

  /** Taking `p` back leaves totals, ledger and balances as they were. A bill comes back as it was exactly if `p` did
      not cover it or its status was the one its approved total gives; otherwise it gets that status. */
  ghost predicate Restored(s: State, p: Payment, u: State)
    requires DuesKnown(s)
  {
    && u.dues == s.dues && |u.bills| == |s.bills|
    && (forall b: nat :: ApprovedTotal(u, b) == ApprovedTotal(s, b))
    && (forall b :: 0 <= b < |s.bills| ==>
          && (u.bills[b] == s.bills[b] <==> !Covers(p, b) || StatusComputed(s, b))
          && u.bills[b] == s.bills[b].(status := u.bills[b].status) && (Covers(p, b) ==> StatusComputed(u, b)))
    && LinkedNet(u.books.txns) == LinkedNet(s.books.txns) && NetBalance(u.books.txns) == NetBalance(s.books.txns)
    && (forall l: nat :: LocationSum(u.books.changes, l) == LocationSum(s.books.changes, l))
  }

  /** The stored status is the one a recomputation gives. */
  predicate StatusComputed(s: State, b: nat)
    requires b < |s.bills|
  {
    s.bills[b].status == ComputedStatus(ApprovedTotal(s, b), s.bills[b].amount)
  }

  /** Bills of non-voluntary dues all come back as they were. */
  lemma RestoredWhole(s: State, p: Payment, u: State, b: nat)
    requires DuesKnown(s) && BillsAgree(s) && Fits(s, p) && Restored(s, p, u)
    requires b < |s.bills| && !DueOf(s, b).isVoluntary
    ensures u.bills[b] == s.bills[b]
  {
    assert BillAgrees(s, b);
  }

  lemma {:induction false} FirstRowIsNew(txns: seq<Txn>, t: Txn, id: nat)
    requires IncomeRows(txns, id) == 0 && IsIncomeRow(t, id)
    ensures FirstIncomeRow(txns + [t], id) == Some(|txns|)
  {
    RowExists(txns, id);
    assert (txns + [t])[..|txns|] == txns;
  }

  lemma PostMoves(b: Books, t: Txn, l: nat)
    ensures LocationSum(Post(b, t).changes, l) == LocationSum(b.changes, l) + if t.location == Some(l) then Signed(t) else 0
    ensures NetBalance(Post(b, t).txns) == NetBalance(b.txns) + Signed(t)
    ensures t.payment.Some? ==> LinkedNet(Post(b, t).txns) == LinkedNet(b.txns) + Signed(t)
  {
    if t.location.Some? {
      AppendChange(b.changes, ChangeOf(t, |b.txns|, t.location.value), l);
    }
    AppendRow(b.txns, t, 0);
    assert (b.txns + [t])[..|b.txns|] == b.txns;
  }

  lemma ApprovalRowIsFirst(s: State, payments: seq<Payment>, p: Payment, id: nat, t: Txn)
    requires RowsMatch(s.books.txns, s.payments) && Records(s, payments, p, id) && IsIncomeRow(t, id)
    ensures FirstIncomeRow(s.books.txns + [t], id) == Some(|s.books.txns|)
  {
    if id == |s.payments| {
      NoRowsBeyond(s.books.txns, |s.payments|, id);
    }
    FirstRowIsNew(s.books.txns, t, id);
  }

  /** With its row found and the money there, an approved payment can be reversed. */
  lemma ReversalAccepted(t: State, id: nat, row: nat, location: Option<nat>, back: int)
    requires id < |t.payments| && t.payments[id].status == Approved
    requires FirstIncomeRow(t.books.txns, id) == Some(row) && t.books.txns[row].location == location
    requires location.Some? ==> CentsOrZero(LocationSum(t.books.changes, location.value)) >= t.payments[id].amount
    ensures ReversePayment(t, id, back).Ok?
    ensures ReversePayment(t, id, back).value.books ==
      Post(t.books, CompensationOf(t.payments[id], id, row, location, back))
  {
  }

  /** The income row is the payment's own, and its location still holds the money. */
  lemma FreshApprovalReversible(s: State, payments: seq<Payment>, p: Payment, id: nat, location: Option<nat>,
                                at: int, t: State, back: int)
    requires RowsMatch(s.books.txns, s.payments) && BalancesExplained(s.books) && DuesKnown(s)
    requires Records(s, payments, p, id) && t == Settle(s, payments, p, id, location, at)
    ensures FirstIncomeRow(t.books.txns, id) == Some(|s.books.txns|)
    ensures ReversePayment(t, id, back).Ok?
    ensures ReversePayment(t, id, back).value.books ==
      Post(t.books, CompensationOf(t.payments[id], id, |s.books.txns|, location, back))
  {
    ApprovalRowIsFirst(s, payments, p, id, IncomeOf(p, id, location, at));
    if location.Some? {
      PostMoves(s.books, IncomeOf(p, id, location, at), location.value);
    }
    ReversalAccepted(t, id, |s.books.txns|, location, back);
  }

  lemma TotalsRestored(s: State, payments: seq<Payment>, p: Payment, id: nat, location: Option<nat>, at: int,
                       t: State, b: nat)
    requires Records(s, payments, p, id) && DuesKnown(s) && t == Settle(s, payments, p, id, location, at)
    ensures ShareTotal(WithStatus(t, id, Reversed), b, Approved) == ShareTotal(s.payments, b, Approved)
  {
    ApprovalTotals(s, payments, p, id, b);
    ReversalTotals(t, id, b);
  }

  lemma BooksRestored(b: Books, p: Payment, q: Payment, id: nat, row: nat, location: Option<nat>, at: int, back: int,
                      l: nat)
    requires q.amount == p.amount
    ensures var a := Post(Post(b, IncomeOf(p, id, location, at)), CompensationOf(q, id, row, location, back));
      && LocationSum(a.changes, l) == LocationSum(b.changes, l)
      && LinkedNet(a.txns) == LinkedNet(b.txns) && NetBalance(a.txns) == NetBalance(b.txns)
  {
    PostMoves(b, IncomeOf(p, id, location, at), l);
    PostMoves(Post(b, IncomeOf(p, id, location, at)), CompensationOf(q, id, row, location, back), l);
  }

  lemma BillRestored(s: State, p: Payment, t: State, u: State, b: nat)
    requires DuesKnown(s) && Fits(s, p) && b < |s.bills| && t.bills == SettledBills(s, p) && |u.bills| == |s.bills|
    requires u.bills[b] == if Covers(p, b) && t.bills[b].status != Cancelled
      then t.bills[b].(status := ComputedStatus(ApprovedTotal(s, b), t.bills[b].amount)) else t.bills[b]
    requires ApprovedTotal(u, b) == ApprovedTotal(s, b)
    ensures u.bills[b] == s.bills[b] <==> !Covers(p, b) || StatusComputed(s, b)
    ensures u.bills[b] == s.bills[b].(status := u.bills[b].status) && (Covers(p, b) ==> StatusComputed(u, b))
  {
  }

  lemma BillsRestored(s: State, payments: seq<Payment>, p: Payment, id: nat, location: Option<nat>, at: int, t: State,
                      u: State)
    requires DuesKnown(s) && Records(s, payments, p, id) && Fits(s, p)
    requires t == Settle(s, payments, p, id, location, at)
    requires u == State(t.dues, ReconciledBills(u.(bills := t.bills), t.payments[id]), WithStatus(t, id, Reversed), u.books)
    ensures forall b: nat :: ApprovedTotal(u, b) == ApprovedTotal(s, b)
    ensures forall b :: 0 <= b < |s.bills| ==>
      && (u.bills[b] == s.bills[b] <==> !Covers(p, b) || StatusComputed(s, b))
      && u.bills[b] == s.bills[b].(status := u.bills[b].status) && (Covers(p, b) ==> StatusComputed(u, b))
  {
    forall b: nat
      ensures ApprovedTotal(u, b) == ApprovedTotal(s, b) == ApprovedTotal(u.(bills := t.bills), b)
    {
      TotalsRestored(s, payments, p, id, location, at, t, b);
    }
    forall b | 0 <= b < |s.bills|
      ensures u.bills[b] == s.bills[b] <==> !Covers(p, b) || StatusComputed(s, b)
      ensures u.bills[b] == s.bills[b].(status := u.bills[b].status) && (Covers(p, b) ==> StatusComputed(u, b))
    {
      BillRestored(s, p, t, u, b);
    }
  }

  lemma ReversalShape(t: State, id: nat, back: int)
    requires ReversePayment(t, id, back).Ok?
    ensures var u := ReversePayment(t, id, back).value;
      && id < |t.payments|
      && u == State(t.dues, ReconciledBills(u.(bills := t.bills), t.payments[id]), WithStatus(t, id, Reversed), u.books)
  {
  }

  /** Right after any payment is approved, created so or verified, for one bill, for several or as a donation,
      reversing it is accepted and restores what the approval changed. */
  lemma ReversalUndoesApproval(s: State, payments: seq<Payment>, p: Payment, id: nat, location: Option<nat>, at: int,
                               t: State,
                               back: int)
    requires Inv(s) && Records(s, payments, p, id) && ValidPayment(p, |s.bills|) && Fits(s, p)
    requires t == Settle(s, payments, p, id, location, at)
    ensures ReversePayment(t, id, back).Ok? && Restored(s, p, ReversePayment(t, id, back).value)
    ensures var u := ReversePayment(t, id, back).value;
      forall b :: 0 <= b < |s.bills| && !DueOf(s, b).isVoluntary ==> u.bills[b] == s.bills[b]
  {
    FreshApprovalReversible(s, payments, p, id, location, at, t, back);
    var u := ReversePayment(t, id, back).value;
    ReversalShape(t, id, back);
    BillsRestored(s, payments, p, id, location, at, t, u);
    forall l: nat
      ensures LocationSum(u.books.changes, l) == LocationSum(s.books.changes, l)
    {
      BooksRestored(s.books, p, t.payments[id], id, |s.books.txns|, location, at, back, l);
    }
    BooksRestored(s.books, p, t.payments[id], id, |s.books.txns|, location, at, back, 0);
    forall b | 0 <= b < |s.bills| && !DueOf(s, b).isVoluntary
      ensures u.bills[b] == s.bills[b]
    {
      RestoredWhole(s, p, u, b);
    }
  }

  /** The same said of the service: a verified approval and its reversal cancel out. */
  lemma ReversalUndoesVerification(s: State, verifier: nat, id: nat, location: Option<nat>, at: int, enforced: bool,
                                   back: int)
    requires Inv(s) && VerifyPayment(s, verifier, id, Approve(location, Some(at), enforced)).Ok?
    requires !VerifyPayment(s, verifier, id, Approve(location, Some(at), enforced)).value.overpaid
    ensures var t := VerifyPayment(s, verifier, id, Approve(location, Some(at), enforced)).value.state;
      && ReversePayment(t, id, back).Ok? && Restored(s, s.payments[id], ReversePayment(t, id, back).value)
      && forall b :: 0 <= b < |s.bills| && !DueOf(s, b).isVoluntary ==>
           ReversePayment(t, id, back).value.bills[b] == s.bills[b]
  {
    var t := VerifyPayment(s, verifier, id, Approve(location, Some(at), enforced)).value.state;
    ApprovalIsSettle(s, verifier, id, location, at, enforced);
    ReversalUndoesApproval(s, WithStatus(s, id, Approved), s.payments[id], id, location, at, t, back);
  }

  // ----- The books after any run -----

  /** In every reachable state no location is overdrawn, each balance is what its rows say, every change is labelled for
      what it is, and the reconciliation report lists no anomaly. */
  lemma BooksStaySound(start: State, ops: seq<Op>, l: nat)
    requires Fresh(start) && AdmissibleRun(start, ops)
    ensures var b := Run(start, ops).books;
      && LocationSum(b.changes, l) >= 0
      && LocationSum(b.changes, l) == PostedSum(b.txns, l) + TransferSum(b.transfers, l) + OpeningSum(b.changes, l)
      && KindsTell(b) && Anomalies(b) == {}
  {
    ReachableInv(start, ops);
    NoAnomalies(Run(start, ops).books);
  }
}
