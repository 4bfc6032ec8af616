/** Money is conserved between payments and the ledger, and stored statuses agree with recomputed ones, over every
    run. */
module Conservation {
  import opened Results
  import opened Ledger
  import opened FundLocation
  import opened Billing
  import opened Payments
  import opened PaymentInvariants

  // ----- Conservation -----

  /** Approved money over the first `n` bills. */
  function BillMoney(payments: seq<Payment>, n: nat): int {
    if n == 0 then 0 else BillMoney(payments, n - 1) + PaymentTotal(payments, n - 1, Approved)
  }

  function DonationMoney(payments: seq<Payment>): int {
    if payments == [] then 0
    else
      var p := payments[|payments| - 1];
      DonationMoney(payments[..|payments| - 1]) + if p.status == Approved && p.target.ToDue? then p.amount else 0
  }

  /** What one payment brings to the first `n` bills. */
  function Spread(p: Payment, n: nat): int {
    if n == 0 then 0 else Spread(p, n - 1) + Share(p, n - 1)
  }

  function AllocSpread(allocs: seq<Alloc>, n: nat): int {
    if n == 0 then 0 else AllocSpread(allocs, n - 1) + AllocSum(allocs, n - 1)
  }

  lemma {:induction false} AllocSpreadStep(allocs: seq<Alloc>, a: Alloc, n: nat)
    ensures AllocSpread(allocs + [a], n) == AllocSpread(allocs, n) + if a.bill < n then a.amount else 0
  {
    if n > 0 {
      AllocSpreadStep(allocs, a, n - 1);
      assert (allocs + [a])[..|allocs|] == allocs;
    }
  }

  lemma {:induction false} EmptyAllocSpread(n: nat)
    ensures AllocSpread([], n) == 0
  {
    if n > 0 {
      EmptyAllocSpread(n - 1);
    }
  }

  lemma {:induction false} AllocSpreadIsAmount(allocs: seq<Alloc>, n: nat)
    requires forall i :: 0 <= i < |allocs| ==> allocs[i].bill < n
    ensures AllocSpread(allocs, n) == AllocAmount(allocs)
  {
    if allocs == [] {
      EmptyAllocSpread(n);
    } else {
      var init := allocs[..|allocs| - 1];
      AllocSpreadIsAmount(init, n);
      AllocSpreadStep(init, allocs[|allocs| - 1], n);
      assert allocs == init + [allocs[|allocs| - 1]];
    }
  }

  lemma {:induction false} MultiSpread(p: Payment, bills: nat, n: nat)
    requires ValidPayment(p, bills) && p.target.ToBill? && p.allocs != []
    ensures Spread(p, n) == AllocSpread(p.allocs, n)
  {
    if n > 0 {
      MultiSpread(p, bills, n - 1);
      ShareSign(p, bills, n - 1);
      AllocSumOf(p.allocs, n - 1);
    }
  }

  lemma {:induction false} SingleSpread(p: Payment, n: nat)
    requires p.allocs == []
    ensures Spread(p, n) == if p.target.ToBill? && p.target.bill < n then p.amount else 0
  {
    if n > 0 {
      SingleSpread(p, n - 1);
    }
  }

  /** However many bills a payment covers, its shares add up to its amount: no part is lost or counted twice. */
  lemma SharesAddUp(p: Payment, n: nat)
    requires ValidPayment(p, n)
    ensures Spread(p, n) == if p.target.ToBill? then p.amount else 0
  {
    if p.allocs == [] {
      SingleSpread(p, n);
    } else {
      MultiSpread(p, n, n);
      AllocSpreadIsAmount(p.allocs, n);
    }
  }

  lemma {:induction false} BillMoneyStep(payments: seq<Payment>, p: Payment, n: nat)
    ensures BillMoney(payments + [p], n) == BillMoney(payments, n) + if p.status == Approved then Spread(p, n) else 0
  {
    if n > 0 {
      BillMoneyStep(payments, p, n - 1);
      AppendShare(payments, p, n - 1, Approved);
    }
  }

  lemma {:induction false} NoPaymentsNoMoney(n: nat)
    ensures BillMoney([], n) == 0
  {
    if n > 0 {
      NoPaymentsNoMoney(n - 1);
    }
  }

  lemma {:induction false} MoneySplits(payments: seq<Payment>, n: nat)
    requires forall i :: 0 <= i < |payments| ==> ValidPayment(payments[i], n)
    ensures BillMoney(payments, n) + DonationMoney(payments) == ApprovedMoney(payments)
  {
    if payments == [] {
      NoPaymentsNoMoney(n);
    } else {
      var init := payments[..|payments| - 1];
      var p := payments[|payments| - 1];
      assert payments == init + [p];
      MoneySplits(init, n);
      BillMoneyStep(init, p, n);
      SharesAddUp(p, n);
    }
  }

  /** In every reachable state the approved totals of all bills plus the approved donations are
      the posted income minus expense over payment-linked transactions. */
  lemma MoneyIsConserved(start: State, ops: seq<Op>)
    requires Fresh(start) && AdmissibleRun(start, ops)
    ensures var s := Run(start, ops);
      BillMoney(s.payments, |s.bills|) + DonationMoney(s.payments) == LinkedNet(s.books.txns)
  {
    ReachableInv(start, ops);
    var s := Run(start, ops);
    MoneySplits(s.payments, |s.bills|);
  }

  /** In every reachable state an approved payment has exactly one income row, which carries its amount,
      so reversing it is refused only when the money has left its location. */
  lemma ReversalFindsItsRow(start: State, ops: seq<Op>, id: nat, at: int)
    requires Fresh(start) && AdmissibleRun(start, ops)
    requires id < |Run(start, ops).payments| && Run(start, ops).payments[id].status == Approved
    ensures var s := Run(start, ops);
      && IncomeRows(s.books.txns, id) == 1
      && FirstIncomeRow(s.books.txns, id).Some?
      && s.books.txns[FirstIncomeRow(s.books.txns, id).value].amount == s.payments[id].amount
      && (ReversePayment(s, id, at).Err? ==> ReversePayment(s, id, at).error == InsufficientReversalBalance)
  {
    ReachableInv(start, ops);
    RowExists(Run(start, ops).books.txns, id);
  }

  // ----- Statuses -----

  /** In every reachable state a bill of a non-voluntary due is paid at most its amount, and recomputing
      its status changes nothing; a cancelled bill of any due has no approved money. */
  lemma StatusesAgree(start: State, ops: seq<Op>, b: nat)
    requires Fresh(start) && AdmissibleRun(start, ops) && b < |Run(start, ops).bills|
    ensures var s := Run(start, ops);
      var bill := s.bills[b];
      && (!DueOf(s, b).isVoluntary ==> 0 <= ApprovedTotal(s, b) <= bill.amount)
      && (!DueOf(s, b).isVoluntary && bill.status != Cancelled ==>
            bill.status == ComputedStatus(ApprovedTotal(s, b), bill.amount))
      && (bill.status == Cancelled ==> ApprovedTotal(s, b) == 0)
  {
    ReachableInv(start, ops);
    var s := Run(start, ops);
    assert BillAgrees(s, b);
    ShareTotalSign(s.payments, |s.bills|, b, Approved);
  }

  /** Reconciling is a no-op on the bills of non-voluntary dues. */
  lemma ReconcileChangesNothing(start: State, ops: seq<Op>, p: Payment)
    requires Fresh(start) && AdmissibleRun(start, ops)
    requires var s := Run(start, ops);
      forall b :: 0 <= b < |s.bills| && Covers(p, b) ==> !DueOf(s, b).isVoluntary
    ensures ReconciledBills(Run(start, ops), p) == Run(start, ops).bills
  {
    ReachableInv(start, ops);
    var s := Run(start, ops);
    forall b | 0 <= b < |s.bills|
      ensures ReconciledBills(s, p)[b] == s.bills[b]
    {
      assert BillAgrees(s, b);
    }
  }

  /** A payment that fits reaches no cancelled bill, so settling it leaves the bill alone. */
  lemma SettledStaysCancelled(s: State, p: Payment, b: nat)
    requires DuesKnown(s) && b < |s.bills| && s.bills[b].status == Cancelled && Fits(s, p)
    ensures SettledBills(s, p)[b].status == Cancelled
  {
  }

  lemma PayStaysCancelled(s: State, op: Op, b: nat, t: State)
    requires DuesKnown(s) && b < |s.bills| && s.bills[b].status == Cancelled
    requires op.PayOp? && Try(s, op) == Ok(t)
    ensures t.bills[b].status == Cancelled
  {
  }

  lemma PayManyStaysCancelled(s: State, op: Op, b: nat, t: State)
    requires DuesKnown(s) && b < |s.bills| && s.bills[b].status == Cancelled
    requires op.PayManyOp? && Try(s, op) == Ok(t)
    ensures t.bills[b].status == Cancelled
  {
    if op.caller.role.Staff? {
      ManyFits(s, op.caller, op.billIds, op.allocs, op.stated, op.paidBy, Approved);
      SettledStaysCancelled(s, ManyPayment(op.caller, op.allocs, op.paidBy, Approved), b);
    }
  }

  lemma VerifyStaysCancelled(s: State, op: Op, b: nat, t: State)
    requires WellFormed(s) && DuesKnown(s) && b < |s.bills| && s.bills[b].status == Cancelled
    requires op.VerifyOp? && Try(s, op) == Ok(t)
    ensures t.bills[b].status == Cancelled
  {
    var p := s.payments[op.payment];
    if op.decision.Approve? && p.target.ToBill? && p.allocs != [] {
      MultiApprovalFits(s, op.payment);
      SettledStaysCancelled(s, p, b);
    }
  }

  /** Nothing brings a cancelled bill back. */
  lemma CancelledIsAbsorbing(s: State, op: Op, b: nat)
    requires Inv(s) && b < |s.bills| && s.bills[b].status == Cancelled
    ensures Step(s, op).bills[b].status == Cancelled
  {
    var t := Step(s, op);
    if Try(s, op).Ok? {
      if op.PayOp? {
        PayStaysCancelled(s, op, b, t);
      } else if op.PayManyOp? {
        PayManyStaysCancelled(s, op, b, t);
      } else if op.VerifyOp? {
        VerifyStaysCancelled(s, op, b, t);
      }
    }
  }

  /** A cancelled bill stays cancelled, and unpaid, for the rest of any run. */
  lemma {:induction false} CancelledForever(s: State, ops: seq<Op>, b: nat)
    requires Inv(s) && AdmissibleRun(s, ops) && b < |s.bills| && s.bills[b].status == Cancelled
    ensures var t := Run(s, ops);
      b < |t.bills| && t.bills[b].status == Cancelled && ApprovedTotal(t, b) == 0
  {
    RunKeeps(s, ops);
    if ops != [] {
      var before := Run(s, ops[..|ops| - 1]);
      CancelledForever(s, ops[..|ops| - 1], b);
      RunKeeps(s, ops[..|ops| - 1]);
      CancelledIsAbsorbing(before, ops[|ops| - 1], b);
    }
    assert BillAgrees(Run(s, ops), b);
  }

  // ----- Why payment-linked rows are reversed only through their payment -----

  /** Reversing a transaction directly keeps the ledger in agreement exactly when no payment owns it. */
  lemma DirectReversalExact(s: State, row: nat, at: int)
    requires Inv(s) && ReverseTxn(s.books, row, at).Ok?
    ensures LinkedNet(ReverseTxn(s.books, row, at).value.txns) == ApprovedMoney(s.payments)
      <==> s.books.txns[row].payment.None?
  {
    AppendRow(s.books.txns, ReversalOf(s.books.txns[row], row, at), 0);
  }

  /** One voluntary due that takes donations of any amount, and nothing else. */
  ghost predicate OnlyDonations(s: State) {
    && |s.dues| == 1 && s.dues[0] == Due(Voluntary, true, Partially, true, 0, None, None)
    && s.bills == [] && s.payments == [] && s.books == Books([], [], [], [], map[])
  }

  lemma DonationRecorded(s: State, c: Caller, d: nat, amount: int, today: int, paidBy: PaymentMethod, at: int)
    requires OnlyDonations(s) && c.role.Staff? && d == 0 && amount > 0
    ensures CreateDonation(s, c, d, amount, today, paidBy, at).Ok?
    ensures var t := CreateDonation(s, c, d, amount, today, paidBy, at).value;
      && t.books.txns == [] + [Txn(amount, Income, None, Some(0), None, at)]
      && t.payments == [] + [Payment(ToDue(d), amount, paidBy, Approved, c.user, [])]
  {
  }

  lemma DonationRowReversed(b: Books, t: Txn, at: int)
    requires b.txns == [t] && t.reverses.None? && t.location.None?
    ensures ReverseTxn(b, 0, at).Ok? && ReverseTxn(b, 0, at).value.txns == b.txns + [ReversalOf(t, 0, at)]
  {
  }

  /** There a staff donation can have its row reversed directly; the payment then stays approved without its money. */
  lemma DirectReversalWitness(s: State, c: Caller, d: nat, amount: int, today: int, paidBy: PaymentMethod, at: int)
    requires OnlyDonations(s) && c.role.Staff? && d == 0 && amount > 0
    ensures Fresh(s) && CreateDonation(s, c, d, amount, today, paidBy, at).Ok?
    ensures var t := CreateDonation(s, c, d, amount, today, paidBy, at).value;
      var back := ReverseTxn(t.books, |s.books.txns|, at);
      back.Ok? && LinkedNet(back.value.txns) != ApprovedMoney(t.payments)
  {
    DonationRecorded(s, c, d, amount, today, paidBy, at);
    var t := CreateDonation(s, c, d, amount, today, paidBy, at).value;
    var row := Txn(amount, Income, None, Some(0), None, at);
    DonationRowReversed(t.books, row, at);
    AppendRow([], row, 0);
    AppendMoney([], t.payments[0]);
    AppendRow(t.books.txns, ReversalOf(row, 0, at), 0);
  }
}
