/** What every payment operation keeps: statuses that agree with the payments, and a ledger that agrees with both. */
module PaymentInvariants {
  import opened Results
  import opened Ledger
  import opened FundLocation
  import opened Billing
  import opened Payments

  // ----- The invariant -----

  /** A bill of a non-voluntary due is never overpaid, and its stored status is the computed one. */
  ghost predicate BillAgrees(s: State, b: nat)
    requires DuesKnown(s) && b < |s.bills|
  {
    var bill := s.bills[b];
    && (bill.status == Cancelled ==> ApprovedTotal(s, b) == 0)
    && (!DueOf(s, b).isVoluntary ==>
          && ApprovedTotal(s, b) <= bill.amount
          && (bill.status == Cancelled || bill.status == ComputedStatus(ApprovedTotal(s, b), bill.amount)))
  }

  ghost predicate BillsAgree(s: State)
    requires DuesKnown(s)
  {
    forall b :: 0 <= b < |s.bills| ==> BillAgrees(s, b)
  }

  /** Income rows posted for a payment. */
  function IncomeRows(txns: seq<Txn>, id: nat): nat {
    if txns == [] then 0
    else IncomeRows(txns[..|txns| - 1], id) + if IsIncomeRow(txns[|txns| - 1], id) then 1 else 0
  }

  /** Posted income minus expense over payment-linked transactions. */
  function LinkedNet(txns: seq<Txn>): int {
    if txns == [] then 0
    else
      var last := txns[|txns| - 1];
      LinkedNet(txns[..|txns| - 1]) + if last.payment.Some? then Signed(last) else 0
  }

  /** Money of the approved payments, donations included. */
  function ApprovedMoney(payments: seq<Payment>): int {
    if payments == [] then 0
    else
      var p := payments[|payments| - 1];
      ApprovedMoney(payments[..|payments| - 1]) + if p.status == Approved then p.amount else 0
  }

  predicate WasApproved(p: Payment) {
    p.status == Approved || p.status == Reversed
  }

  /** Every payment that was ever approved has exactly one income row, of its own amount. */
  ghost predicate RowsMatch(txns: seq<Txn>, payments: seq<Payment>) {
    && (forall i :: 0 <= i < |txns| && txns[i].payment.Some? ==> txns[i].payment.value < |payments|)
    && (forall i :: 0 <= i < |txns| && txns[i].payment.Some? && IsIncomeRow(txns[i], txns[i].payment.value) ==>
          txns[i].amount == payments[txns[i].payment.value].amount)
    && (forall id :: 0 <= id < |payments| ==> IncomeRows(txns, id) == if WasApproved(payments[id]) then 1 else 0)
  }

  ghost predicate LedgerAgrees(s: State) {
    && RowsMatch(s.books.txns, s.payments)
    && LinkedNet(s.books.txns) == ApprovedMoney(s.payments)
  }

  ghost predicate Inv(s: State) {
    WellFormed(s) && DuesKnown(s) && BooksInv(s.books) && BillsAgree(s) && LedgerAgrees(s)
  }

  /** A state before any payment: bills unpaid, nothing linked in the ledger. */
  ghost predicate Fresh(s: State) {
    && WellFormed(s) && DuesKnown(s) && BooksInv(s.books)
    && s.payments == []
    && (forall b :: 0 <= b < |s.bills| ==> s.bills[b].status == Unpaid)
    && (forall i :: 0 <= i < |s.books.txns| ==> s.books.txns[i].payment.None?)
  }

  lemma {:induction false} NothingLinked(txns: seq<Txn>)
    requires forall i :: 0 <= i < |txns| ==> txns[i].payment.None?
    ensures LinkedNet(txns) == 0
  {
    if txns != [] {
      NothingLinked(txns[..|txns| - 1]);
    }
  }

  lemma FreshIsInv(s: State)
    requires Fresh(s)
    ensures Inv(s)
  {
    NothingLinked(s.books.txns);
  }

  // ----- The ledger side -----

  lemma AppendRow(txns: seq<Txn>, t: Txn, id: nat)
    ensures IncomeRows(txns + [t], id) == IncomeRows(txns, id) + if IsIncomeRow(t, id) then 1 else 0
    ensures LinkedNet(txns + [t]) == LinkedNet(txns) + if t.payment.Some? then Signed(t) else 0
  {
    assert (txns + [t])[..|txns|] == txns;
  }

  lemma {:induction false} NoRowsBeyond(txns: seq<Txn>, n: nat, id: nat)
    requires forall i :: 0 <= i < |txns| && txns[i].payment.Some? ==> txns[i].payment.value < n
    requires id >= n
    ensures IncomeRows(txns, id) == 0
  {
    if txns != [] {
      NoRowsBeyond(txns[..|txns| - 1], n, id);
    }
  }

  lemma AppendMoney(payments: seq<Payment>, p: Payment)
    ensures ApprovedMoney(payments + [p]) == ApprovedMoney(payments) + if p.status == Approved then p.amount else 0
  {
    assert (payments + [p])[..|payments|] == payments;
  }

  lemma {:induction false} UpdateMoney(payments: seq<Payment>, i: nat, p: Payment)
    requires i < |payments|
    ensures ApprovedMoney(payments[i := p]) == ApprovedMoney(payments)
      - (if payments[i].status == Approved then payments[i].amount else 0)
      + (if p.status == Approved then p.amount else 0)
  {
    var n := |payments| - 1;
    if i < n {
      UpdateMoney(payments[..n], i, p);
      assert payments[i := p][..n] == payments[..n][i := p];
    } else {
      assert payments[i := p][..n] == payments[..n];
    }
  }

  /** A row that belongs to no payment leaves the agreement alone. */
  lemma UnlinkedRowKeeps(txns: seq<Txn>, t: Txn, payments: seq<Payment>)
    requires RowsMatch(txns, payments) && t.payment.None?
    ensures RowsMatch(txns + [t], payments) && LinkedNet(txns + [t]) == LinkedNet(txns)
  {
    forall id | 0 <= id < |payments|
      ensures IncomeRows(txns + [t], id) == IncomeRows(txns, id)
    {
      AppendRow(txns, t, id);
    }
    AppendRow(txns, t, 0);
  }

  // ----- Approving a payment -----

  /** `payments` is the table after `p` was approved as row `id`, newly inserted or pending before. */
  ghost predicate Records(s: State, payments: seq<Payment>, p: Payment, id: nat) {
    || (id == |s.payments| && payments == s.payments + [p] && p.status == Approved)
    || (id < |s.payments| && s.payments[id] == p && p.status == Pending && payments == WithStatus(s, id, Approved))
  }

  lemma ApprovalTotals(s: State, payments: seq<Payment>, p: Payment, id: nat, b: nat)
    requires Records(s, payments, p, id)
    ensures ShareTotal(payments, b, Approved) == ShareTotal(s.payments, b, Approved) + Share(p, b)
  {
    if id == |s.payments| {
      AppendShare(s.payments, p, b, Approved);
    } else {
      UpdateShare(s.payments, id, p.(status := Approved), b, Approved);
    }
  }

  /** Room for `p` on every bill it covers, and no cancelled bill among them. */
  ghost predicate Fits(s: State, p: Payment)
    requires DuesKnown(s)
  {
    forall b :: 0 <= b < |s.bills| && Covers(p, b) ==>
      && s.bills[b].status != Cancelled
      && (!DueOf(s, b).isVoluntary ==> ApprovedTotal(s, b) + Share(p, b) <= s.bills[b].amount)
  }

  lemma ApprovalKeepsLedger(s: State, payments: seq<Payment>, p: Payment, id: nat, location: Option<nat>, at: int)
    requires LedgerAgrees(s) && Records(s, payments, p, id)
    ensures var txns := s.books.txns + [IncomeOf(p, id, location, at)];
      RowsMatch(txns, payments) && LinkedNet(txns) == ApprovedMoney(payments)
  {
    var t := IncomeOf(p, id, location, at);
    var txns := s.books.txns + [t];
    forall k | 0 <= k < |payments|
      ensures IncomeRows(txns, k) == if WasApproved(payments[k]) then 1 else 0
    {
      AppendRow(s.books.txns, t, k);
      if k == |s.payments| {
        NoRowsBeyond(s.books.txns, |s.payments|, k);
      }
    }
    AppendRow(s.books.txns, t, 0);
    if id == |s.payments| {
      AppendMoney(s.payments, p);
    } else {
      UpdateMoney(s.payments, id, p.(status := Approved));
    }
  }

  /** The status written from the total before and the payment's share is the one the new total computes. */
  lemma StatusAgrees(s: State, p: Payment, t: State, b: nat)
    requires DuesKnown(s) && DuesKnown(t) && b < |s.bills| && BillAgrees(s, b) && Fits(s, p)
    requires t.dues == s.dues && |t.bills| == |s.bills| && t.bills[b] == SettledBills(s, p)[b]
    requires ApprovedTotal(t, b) == ApprovedTotal(s, b) + Share(p, b) && ApprovedTotal(s, b) >= 0
    requires Share(p, b) >= 0 && (Share(p, b) > 0 <==> Covers(p, b))
    ensures BillAgrees(t, b)
  {
  }

  lemma SettledBillAgrees(s: State, payments: seq<Payment>, p: Payment, id: nat, location: Option<nat>, at: int, b: nat)
    requires WellFormed(s) && DuesKnown(s) && b < |s.bills| && BillAgrees(s, b)
    requires Records(s, payments, p, id) && ValidPayment(p, |s.bills|) && Fits(s, p)
    ensures BillAgrees(Settle(s, payments, p, id, location, at), b)
  {
    ApprovalTotals(s, payments, p, id, b);
    ShareSign(p, |s.bills|, b);
    ShareTotalSign(s.payments, |s.bills|, b, Approved);
    StatusAgrees(s, p, Settle(s, payments, p, id, location, at), b);
  }

  lemma SettledWellFormed(s: State, payments: seq<Payment>, p: Payment, id: nat, location: Option<nat>, at: int)
    requires WellFormed(s) && DuesKnown(s) && Records(s, payments, p, id) && ValidPayment(p, |s.bills|)
    ensures WellFormed(Settle(s, payments, p, id, location, at))
  {
    var bills := SettledBills(s, p);
    assert forall b :: 0 <= b < |bills| ==> bills[b] == s.bills[b].(status := bills[b].status);
  }

  /** Approving a payment that fits keeps the whole invariant. */
  lemma SettleKeeps(s: State, payments: seq<Payment>, p: Payment, id: nat, location: Option<nat>, at: int)
    requires Inv(s) && Records(s, payments, p, id) && ValidPayment(p, |s.bills|) && Fits(s, p)
    requires KnownLocation(s.books, location)
    ensures Inv(Settle(s, payments, p, id, location, at))
  {
    PostKeepsBooks(s.books, IncomeOf(p, id, location, at));
    ApprovalKeepsLedger(s, payments, p, id, location, at);
    SettledWellFormed(s, payments, p, id, location, at);
    forall b | 0 <= b < |s.bills|
      ensures BillAgrees(Settle(s, payments, p, id, location, at), b)
    {
      SettledBillAgrees(s, payments, p, id, location, at, b);
    }
  }

  /** A donation is the same step with no bill to settle. */
  lemma DonationSettles(s: State, payments: seq<Payment>, p: Payment, id: nat, location: Option<nat>, at: int)
    requires DuesKnown(s) && p.target.ToDue? && p.allocs == []
    ensures Settle(s, payments, p, id, location, at)
      == s.(payments := payments, books := Post(s.books, IncomeOf(p, id, location, at)))
    ensures Fits(s, p)
  {
    assert SettledBills(s, p) == s.bills;
  }

  // ----- Other ways the payments change -----

  /** The approved totals stay put. */
  ghost predicate SameApproved(s: State, payments: seq<Payment>) {
    forall b: nat :: ShareTotal(payments, b, Approved) == ShareTotal(s.payments, b, Approved)
  }

  lemma PendingKeeps(s: State, p: Payment)
    requires Inv(s) && ValidPayment(p, |s.bills|) && p.status == Pending
    ensures Inv(s.(payments := s.payments + [p])) && SameApproved(s, s.payments + [p])
  {
    var t := s.(payments := s.payments + [p]);
    forall b: nat
      ensures ShareTotal(t.payments, b, Approved) == ShareTotal(s.payments, b, Approved)
    {
      AppendShare(s.payments, p, b, Approved);
    }
    forall b | 0 <= b < |t.bills|
      ensures BillAgrees(t, b)
    {
      assert BillAgrees(s, b);
    }
    AppendMoney(s.payments, p);
    NoRowsBeyond(s.books.txns, |s.payments|, |s.payments|);
  }

  lemma RejectionTotals(s: State, id: nat)
    requires id < |s.payments| && s.payments[id].status == Pending
    ensures SameApproved(s, WithStatus(s, id, Rejected))
    ensures ApprovedMoney(WithStatus(s, id, Rejected)) == ApprovedMoney(s.payments)
  {
    forall b: nat
      ensures ShareTotal(WithStatus(s, id, Rejected), b, Approved) == ShareTotal(s.payments, b, Approved)
    {
      UpdateShare(s.payments, id, s.payments[id].(status := Rejected), b, Approved);
    }
    UpdateMoney(s.payments, id, s.payments[id].(status := Rejected));
  }

  lemma RejectedKeeps(s: State, id: nat)
    requires Inv(s) && id < |s.payments| && s.payments[id].status == Pending
    ensures Inv(s.(payments := WithStatus(s, id, Rejected)))
  {
    RejectionTotals(s, id);
    forall b | 0 <= b < |s.bills|
      ensures BillAgrees(s.(payments := WithStatus(s, id, Rejected)), b)
    {
      assert BillAgrees(s, b);
    }
  }

  /** Recomputing statuses in a state that keeps the invariant keeps it. */
  lemma ReconcileKeeps(s: State, p: Payment)
    requires Inv(s)
    ensures Inv(s.(bills := ReconciledBills(s, p)))
  {
    var t := s.(bills := ReconciledBills(s, p));
    forall b | 0 <= b < |s.bills|
      ensures t.bills[b] == s.bills[b].(status := t.bills[b].status) && BillAgrees(t, b)
    {
      assert BillAgrees(s, b);
    }
  }

  /** A pending payment turned down: no approved total changes, and recomputing a status agrees with it. */
  lemma RejectKeeps(s: State, id: nat)
    requires Inv(s) && id < |s.payments| && s.payments[id].status == Pending
    ensures Inv(s.(payments := WithStatus(s, id, Rejected)))
    ensures Inv(RejectPayment(s, id))
    ensures SameApproved(s, WithStatus(s, id, Rejected))
  {
    RejectionTotals(s, id);
    RejectedKeeps(s, id);
    ReconcileKeeps(s.(payments := WithStatus(s, id, Rejected)), s.payments[id]);
  }

  lemma ReversalTotals(s: State, id: nat, b: nat)
    requires id < |s.payments| && s.payments[id].status == Approved
    ensures ShareTotal(WithStatus(s, id, Reversed), b, Approved)
      == ShareTotal(s.payments, b, Approved) - Share(s.payments[id], b)
  {
    UpdateShare(s.payments, id, s.payments[id].(status := Reversed), b, Approved);
  }

  /** A compensation is no income row, so every payment keeps as many as it had. */
  lemma CompensationKeepsRows(txns: seq<Txn>, t: Txn, payments: seq<Payment>, id: nat, reversed: seq<Payment>)
    requires RowsMatch(txns, payments) && id < |payments| && payments[id].status == Approved
    requires reversed == payments[id := payments[id].(status := Reversed)]
    requires t.payment == Some(id) && t.kind.Expense?
    ensures RowsMatch(txns + [t], reversed)
  {
    forall k | 0 <= k < |payments|
      ensures IncomeRows(txns + [t], k) == IncomeRows(txns, k)
    {
      AppendRow(txns, t, k);
    }
  }

  lemma ReversalKeepsLedger(s: State, id: nat, row: nat, location: Option<nat>, at: int)
    requires LedgerAgrees(s) && id < |s.payments| && s.payments[id].status == Approved
    ensures var txns := s.books.txns + [CompensationOf(s.payments[id], id, row, location, at)];
      RowsMatch(txns, WithStatus(s, id, Reversed)) && LinkedNet(txns) == ApprovedMoney(WithStatus(s, id, Reversed))
  {
    var t := CompensationOf(s.payments[id], id, row, location, at);
    CompensationKeepsRows(s.books.txns, t, s.payments, id, WithStatus(s, id, Reversed));
    AppendRow(s.books.txns, t, 0);
    UpdateMoney(s.payments, id, s.payments[id].(status := Reversed));
  }

  lemma ReversedBillAgrees(s: State, id: nat, at: int, b: nat)
    requires WellFormed(s) && DuesKnown(s) && ReversePayment(s, id, at).Ok?
    requires b < |s.bills| && BillAgrees(s, b)
    ensures BillAgrees(ReversePayment(s, id, at).value, b)
  {
    ReversalTotals(s, id, b);
    ShareSign(s.payments[id], |s.bills|, b);
    ShareTotalSign(s.payments, |s.bills|, b, Approved);
  }

  lemma ReversedWellFormed(s: State, id: nat, at: int)
    requires WellFormed(s) && ReversePayment(s, id, at).Ok?
    ensures WellFormed(ReversePayment(s, id, at).value)
  {
    var t := ReversePayment(s, id, at).value;
    assert forall b :: 0 <= b < |t.bills| ==> t.bills[b] == s.bills[b].(status := t.bills[b].status);
  }

  lemma ReverseKeeps(s: State, id: nat, at: int)
    requires Inv(s) && ReversePayment(s, id, at).Ok?
    ensures Inv(ReversePayment(s, id, at).value)
  {
    var row := FirstIncomeRow(s.books.txns, id).value;
    var location := s.books.txns[row].location;
    PostKeepsBooks(s.books, CompensationOf(s.payments[id], id, row, location, at));
    ReversalKeepsLedger(s, id, row, location, at);
    ReversedWellFormed(s, id, at);
    forall b | 0 <= b < |s.bills|
      ensures BillAgrees(ReversePayment(s, id, at).value, b)
    {
      ReversedBillAgrees(s, id, at, b);
    }
  }

  /** An approved payment always has its income row, so reversing it never fails to find one. */
  lemma {:induction false} RowExists(txns: seq<Txn>, id: nat)
    ensures IncomeRows(txns, id) > 0 <==> FirstIncomeRow(txns, id).Some?
  {
    if txns != [] {
      RowExists(txns[..|txns| - 1], id);
    }
  }

  // ----- Each operation -----

  lemma BillPaymentFits(s: State, c: Caller, b: nat, amount: int, paidBy: PaymentMethod, status: PaymentStatus)
    requires DuesKnown(s) && SinglePayError(s, c, b, amount).None?
    ensures var p := Payment(ToBill(b), amount, paidBy, status, c.user, []);
      ValidPayment(p, |s.bills|) && (c.role.Staff? ==> Fits(s, p))
  {
  }

  lemma PayKeeps(s: State, c: Caller, b: nat, amount: int, paidBy: PaymentMethod, at: int)
    requires Inv(s) && CreateBillPayment(s, c, b, amount, paidBy, at).Ok?
    ensures Inv(CreateBillPayment(s, c, b, amount, paidBy, at).value)
  {
    match c.role
    case Warga =>
      BillPaymentFits(s, c, b, amount, paidBy, Pending);
      PendingKeeps(s, Payment(ToBill(b), amount, paidBy, Pending, c.user, []));
    case Staff =>
      var p := Payment(ToBill(b), amount, paidBy, Approved, c.user, []);
      BillPaymentFits(s, c, b, amount, paidBy, Approved);
      SettleKeeps(s, s.payments + [p], p, |s.payments|, None, at);
  }

  lemma DonationShape(s: State, c: Caller, d: nat, amount: int, today: int, paidBy: PaymentMethod, at: int)
    requires CreateDonation(s, c, d, amount, today, paidBy, at).Ok?
    ensures amount > 0
    ensures var p := Payment(ToDue(d), amount, paidBy, if c.role.Warga? then Pending else Approved, c.user, []);
      CreateDonation(s, c, d, amount, today, paidBy, at).value ==
        if c.role.Warga? then s.(payments := s.payments + [p])
        else s.(payments := s.payments + [p], books := Post(s.books, IncomeOf(p, |s.payments|, None, at)))
  {
  }

  lemma DonateKeeps(s: State, c: Caller, d: nat, amount: int, today: int, paidBy: PaymentMethod, at: int)
    requires Inv(s) && CreateDonation(s, c, d, amount, today, paidBy, at).Ok?
    ensures Inv(CreateDonation(s, c, d, amount, today, paidBy, at).value)
  {
    DonationShape(s, c, d, amount, today, paidBy, at);
    if c.role.Warga? {
      PendingKeeps(s, Payment(ToDue(d), amount, paidBy, Pending, c.user, []));
    } else {
      StaffDonationKeeps(s, Payment(ToDue(d), amount, paidBy, Approved, c.user, []), at);
    }
  }

  lemma StaffDonationKeeps(s: State, p: Payment, at: int)
    requires Inv(s) && p.target.ToDue? && p.allocs == [] && p.amount > 0 && p.status == Approved
    ensures Inv(s.(payments := s.payments + [p], books := Post(s.books, IncomeOf(p, |s.payments|, None, at))))
  {
    DonationSettles(s, s.payments + [p], p, |s.payments|, None, at);
    SettleKeeps(s, s.payments + [p], p, |s.payments|, None, at);
  }

  lemma {:induction false} AllocAmountPositive(allocs: seq<Alloc>)
    requires forall i :: 0 <= i < |allocs| ==> allocs[i].amount > 0
    ensures AllocAmount(allocs) >= 0 && (allocs != [] ==> AllocAmount(allocs) > 0)
  {
    if allocs != [] {
      AllocAmountPositive(allocs[..|allocs| - 1]);
    }
  }

  /** What an accepted multi-period request guarantees of each of its allocations. */
  lemma ManyChecks(s: State, c: Caller, billIds: seq<nat>, allocs: seq<Alloc>, stated: Option<int>, i: nat)
    requires DuesKnown(s) && ManyError(s, c, billIds, allocs, stated).None? && i < |allocs|
    ensures BillError(s, allocs[i].bill).None?
    ensures AllocError(s, c.role, allocs[i]).None?
    ensures s.bills[allocs[i].bill].occupancy == s.bills[allocs[0].bill].occupancy
    ensures QueueError(s, allocs, s.bills[allocs[0].bill].occupancy, i).None?
  {
    AllLookedUp(s, allocs);
    assert AllocErrors(s, c.role, allocs)[i] == AllocError(s, c.role, allocs[i]);
    var occupancy := s.bills[allocs[0].bill].occupancy;
    assert QueueErrors(s, allocs, occupancy)[i] == QueueError(s, allocs, occupancy, i);
  }

  lemma ManyFits(s: State, c: Caller, billIds: seq<nat>, allocs: seq<Alloc>, stated: Option<int>,
                 paidBy: PaymentMethod, status: PaymentStatus)
    requires DuesKnown(s) && ManyError(s, c, billIds, allocs, stated).None?
    ensures var p := ManyPayment(c, allocs, paidBy, status);
      ValidPayment(p, |s.bills|) && (c.role.Staff? ==> Fits(s, p))
  {
    var p := ManyPayment(c, allocs, paidBy, status);
    forall i | 0 <= i < |allocs|
      ensures allocs[i].bill < |s.bills| && allocs[i].amount > 0
      ensures c.role.Staff? ==> allocs[i].amount + ApprovedTotal(s, allocs[i].bill) <= s.bills[allocs[i].bill].amount
      ensures s.bills[allocs[i].bill].status != Cancelled
    {
      ManyChecks(s, c, billIds, allocs, stated, i);
    }
    AllocAmountPositive(allocs);
    assert HasAlloc(allocs, allocs[0].bill);
    forall b | 0 <= b < |s.bills| && Covers(p, b)
      ensures s.bills[b].status != Cancelled
      ensures c.role.Staff? ==> ApprovedTotal(s, b) + Share(p, b) <= s.bills[b].amount
    {
      assert HasAlloc(allocs, b);
      AllocSumOf(allocs, b);
    }
  }

  lemma PayManyKeeps(s: State, c: Caller, billIds: seq<nat>, allocs: seq<Alloc>, stated: Option<int>,
                     paidBy: PaymentMethod, at: int)
    requires Inv(s) && CreateMultiPayment(s, c, billIds, allocs, stated, paidBy, at).Ok?
    ensures Inv(CreateMultiPayment(s, c, billIds, allocs, stated, paidBy, at).value)
  {
    match c.role
    case Warga =>
      ManyFits(s, c, billIds, allocs, stated, paidBy, Pending);
      PendingKeeps(s, ManyPayment(c, allocs, paidBy, Pending));
    case Staff =>
      var p := ManyPayment(c, allocs, paidBy, Approved);
      ManyFits(s, c, billIds, allocs, stated, paidBy, Approved);
      SettleKeeps(s, s.payments + [p], p, |s.payments|, None, at);
  }

  lemma MultiApprovalFits(s: State, id: nat)
    requires WellFormed(s) && DuesKnown(s) && id < |s.payments|
    requires s.payments[id].target.ToBill? && s.payments[id].allocs != []
    requires FirstError(OverpayErrors(s, ByBill(s.payments[id].allocs))).None?
    ensures Fits(s, s.payments[id])
  {
    var p := s.payments[id];
    NoneOverpays(s, p.allocs);
    assert HasAlloc(p.allocs, p.allocs[0].bill);
    forall b | 0 <= b < |s.bills| && Covers(p, b)
      ensures s.bills[b].status != Cancelled
      ensures ApprovedTotal(s, b) + Share(p, b) <= s.bills[b].amount
    {
      var i :| 0 <= i < |p.allocs| && p.allocs[i].bill == b;
      assert AllocOverpays(s, p.allocs[i]).None?;
      AllocSumOf(p.allocs, b);
    }
  }

  /** Whatever the payment's target, an accepted approval settles a payment that fits. */
  lemma ApprovalIsSettle(s: State, verifier: nat, id: nat, location: Option<nat>, at: int, enforced: bool)
    requires WellFormed(s) && DuesKnown(s) && VerifyPayment(s, verifier, id, Approve(location, Some(at), enforced)).Ok?
    requires !VerifyPayment(s, verifier, id, Approve(location, Some(at), enforced)).value.overpaid
    ensures VerifyPayment(s, verifier, id, Approve(location, Some(at), enforced)).value.state
      == Settle(s, WithStatus(s, id, Approved), s.payments[id], id, location, at)
    ensures Records(s, WithStatus(s, id, Approved), s.payments[id], id) && ValidPayment(s.payments[id], |s.bills|)
    ensures Fits(s, s.payments[id]) && KnownLocation(s.books, location)
  {
    var p := s.payments[id];
    if p.target.ToDue? {
      DonationSettles(s, WithStatus(s, id, Approved), p, id, location, at);
    } else if p.allocs != [] {
      MultiApprovalFits(s, id);
    }
  }

  lemma VerifyKeeps(s: State, verifier: nat, id: nat, decision: Decision)
    requires Inv(s) && VerifyPayment(s, verifier, id, decision).Ok?
    ensures Inv(VerifyPayment(s, verifier, id, decision).value.state)
  {
    var p := s.payments[id];
    RejectKeeps(s, id);
    if decision.Approve? && !VerifyPayment(s, verifier, id, decision).value.overpaid {
      ApprovalIsSettle(s, verifier, id, decision.location, decision.at.value, decision.enforced);
      SettleKeeps(s, WithStatus(s, id, Approved), p, id, decision.location, decision.at.value);
    }
  }

  /** Changing one bill without touching amount, status, due or key. */
  lemma FlagKeeps(s: State, b: nat, bill: Bill)
    requires Inv(s) && b < |s.bills|
    requires bill == s.bills[b].(isActive := bill.isActive, isObligatory := bill.isObligatory)
    ensures Inv(s.(bills := s.bills[b := bill]))
  {
    var t := s.(bills := s.bills[b := bill]);
    forall k | 0 <= k < |t.bills|
      ensures BillAgrees(t, k)
    {
      assert BillAgrees(s, k);
    }
  }

  lemma BillActiveKeeps(s: State, b: nat, active: bool)
    requires Inv(s) && SetBillActive(s, b, active).Ok?
    ensures Inv(SetBillActive(s, b, active).value)
  {
    FlagKeeps(s, b, s.bills[b].(isActive := active));
  }

  lemma ObligatoryKeeps(s: State, b: nat, obligatory: bool)
    requires Inv(s) && SetObligatory(s, b, obligatory).Ok?
    ensures Inv(SetObligatory(s, b, obligatory).value)
  {
    if s.bills[b].status == Unpaid {
      FlagKeeps(s, b, s.bills[b].(isObligatory := obligatory));
    }
  }

  lemma CancelKeeps(s: State, b: nat)
    requires Inv(s) && CancelBill(s, b).Ok?
    ensures Inv(CancelBill(s, b).value)
  {
    var t := CancelBill(s, b).value;
    ShareTotalSign(s.payments, |s.bills|, b, Approved);
    forall k | 0 <= k < |t.bills|
      ensures BillAgrees(t, k)
    {
      assert BillAgrees(s, k);
    }
  }

  lemma {:induction false} UnknownBillUntouched(payments: seq<Payment>, bills: nat, b: nat, status: PaymentStatus)
    requires forall i :: 0 <= i < |payments| ==> ValidPayment(payments[i], bills)
    requires b >= bills
    ensures ShareTotal(payments, b, status) == 0
  {
    if payments != [] {
      UnknownBillUntouched(payments[..|payments| - 1], bills, b, status);
    }
  }

  lemma AddedKeysDiffer(bills: seq<Bill>, bill: Bill)
    requires UniqueKeys(bills) && !HasKey(bills, bill.occupancy, bill.due, bill.period)
    ensures UniqueKeys(bills + [bill])
  {
    forall i | 0 <= i < |bills|
      ensures !SameKey(bills[i], bill.occupancy, bill.due, bill.period)
    {
    }
  }

  lemma AddedAgrees(s: State, bill: Bill, t: State)
    requires WellFormed(s) && DuesKnown(s) && BillsAgree(s) && DuesKnown(t)
    requires t == s.(bills := s.bills + [bill]) && bill.status == Unpaid && bill.amount >= 0
    ensures BillsAgree(t)
  {
    UnknownBillUntouched(s.payments, |s.bills|, |s.bills|, Approved);
    forall k | 0 <= k < |t.bills|
      ensures BillAgrees(t, k)
    {
      if k < |s.bills| {
        assert BillAgrees(s, k);
      }
    }
  }

  lemma AddBillKeeps(s: State, o: nat, d: nat, amount: int, period: nat, dueDate: nat, obligatory: bool)
    requires Inv(s) && AddBill(s, o, d, amount, period, dueDate, obligatory).Ok?
    ensures Inv(AddBill(s, o, d, amount, period, dueDate, obligatory).value)
  {
    var t := AddBill(s, o, d, amount, period, dueDate, obligatory).value;
    if t != s {
      var bill := Bill(o, d, amount, period, dueDate, Unpaid, true, obligatory);
      AddedKeysDiffer(s.bills, bill);
      AddedAgrees(s, bill, t);
    }
  }

  lemma DueActiveKeeps(s: State, d: nat, active: bool, today: int)
    requires Inv(s) && SetDueActive(s, d, active, today).Ok?
    ensures Inv(SetDueActive(s, d, active, today).value)
  {
    var t := SetDueActive(s, d, active, today).value;
    forall k | 0 <= k < |t.bills|
      ensures BillAgrees(t, k)
    {
      assert BillAgrees(s, k);
    }
  }

  /** The hypothesis on runs: a transaction that belongs to a payment is reversed only through its payment. */
  ghost predicate Admissible(s: State, op: Op) {
    op.BookOp? && op.op.ReverseTxnOp? && op.op.txn < |s.books.txns| ==> s.books.txns[op.op.txn].payment.None?
  }

  /** A ledger operation appends at most one transaction, and under the hypothesis one that no payment owns. */
  lemma BookOpAppends(s: State, op: FundLocation.BookOp)
    requires Admissible(s, Op.BookOp(op))
    ensures var b, a := s.books.txns, ApplyBooks(s.books, op).txns;
      a == b || (|a| == |b| + 1 && a == b + [a[|b|]] && a[|b|].payment.None?)
  {
  }

  lemma BookOpKeeps(s: State, op: FundLocation.BookOp)
    requires Inv(s) && Admissible(s, Op.BookOp(op))
    ensures Inv(s.(books := ApplyBooks(s.books, op)))
  {
    var b, a := s.books, ApplyBooks(s.books, op);
    BookOpKeepsBooks(b, op);
    BookOpAppends(s, op);
    if a.txns != b.txns {
      UnlinkedRowKeeps(b.txns, a.txns[|b.txns|], s.payments);
    }
    forall k | 0 <= k < |s.bills|
      ensures BillAgrees(s.(books := a), k)
    {
      assert BillAgrees(s, k);
    }
  }

  lemma PaymentStepKeeps(s: State, op: Op)
    requires Inv(s) && Try(s, op).Ok?
    requires op.PayOp? || op.DonateOp? || op.PayManyOp? || op.VerifyOp? || op.ReverseOp?
    ensures Inv(Try(s, op).value)
  {
    match op
    case PayOp(c, b, amount, paidBy, at) => PayKeeps(s, c, b, amount, paidBy, at);
    case DonateOp(c, d, amount, today, paidBy, at) => DonateKeeps(s, c, d, amount, today, paidBy, at);
    case PayManyOp(c, billIds, allocs, stated, paidBy, at) => PayManyKeeps(s, c, billIds, allocs, stated, paidBy, at);
    case VerifyOp(verifier, id, decision) => VerifyKeeps(s, verifier, id, decision);
    case ReverseOp(id, at) => ReverseKeeps(s, id, at);
  }

  lemma TableStepKeeps(s: State, op: Op)
    requires Inv(s) && Admissible(s, op) && Try(s, op).Ok?
    requires !op.PayOp? && !op.DonateOp? && !op.PayManyOp? && !op.VerifyOp? && !op.ReverseOp?
    ensures Inv(Try(s, op).value)
  {
    match op
    case CancelOp(b) => CancelKeeps(s, b);
    case BillActiveOp(b, active) => BillActiveKeeps(s, b, active);
    case AddBillOp(o, d, amount, period, dueDate, obligatory) => AddBillKeeps(s, o, d, amount, period, dueDate, obligatory);
    case ObligatoryOp(b, obligatory) => ObligatoryKeeps(s, b, obligatory);
    case DueActiveOp(d, active, today) => DueActiveKeeps(s, d, active, today);
    case BookOp(bookOp) => BookOpKeeps(s, bookOp);
  }

  /** Every operation keeps the invariant. */
  lemma StepKeeps(s: State, op: Op)
    requires Inv(s) && Admissible(s, op)
    ensures Inv(Step(s, op))
  {
    if Try(s, op).Ok? {
      if op.PayOp? || op.DonateOp? || op.PayManyOp? || op.VerifyOp? || op.ReverseOp? {
        PaymentStepKeeps(s, op);
      } else {
        TableStepKeeps(s, op);
      }
    }
  }

  /** Every operation of the run meets the hypothesis in the state it finds. */
  ghost predicate AdmissibleRun(s: State, ops: seq<Op>)
    requires DuesKnown(s)
  {
    ops == [] || (AdmissibleRun(s, ops[..|ops| - 1]) && Admissible(Run(s, ops[..|ops| - 1]), ops[|ops| - 1]))
  }

  lemma {:induction false} RunKeeps(s: State, ops: seq<Op>)
    requires Inv(s) && AdmissibleRun(s, ops)
    ensures Inv(Run(s, ops))
  {
    if ops != [] {
      RunKeeps(s, ops[..|ops| - 1]);
      StepKeeps(Run(s, ops[..|ops| - 1]), ops[|ops| - 1]);
    }
  }

  lemma ReachableInv(s: State, ops: seq<Op>)
    requires Fresh(s) && AdmissibleRun(s, ops)
    ensures Inv(Run(s, ops))
  {
    FreshIsInv(s);
    RunKeeps(s, ops);
  }
}
