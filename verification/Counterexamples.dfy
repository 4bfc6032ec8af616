/** Reachable states in which the payment engine does not do what one might expect of it. Each run starts from a few
    unpaid bills of one household and one active due, before any payment, with empty books. */
module Counterexamples {
  import opened Results
  import opened Ledger
  import opened Billing
  import opened Payments
  import opened PaymentInvariants
  import opened FifoOrder
  import FifoProgress
  import PaymentEffects
  import Reservations

  /** One due under the rule "full", and one obligatory unpaid bill of the amount for each of the periods. */
  ghost predicate Billed(s: State, occupancy: nat, amount: int, periods: seq<nat>) {
    && amount >= 0 && |s.dues| == 1 && s.dues[0] == Due(Regular, false, Full, true, amount, None, None)
    && |s.bills| == |periods|
    && (forall b :: 0 <= b < |periods| ==> s.bills[b] == Bill(occupancy, 0, amount, periods[b], 0, Unpaid, true, true))
    && (forall i, j :: 0 <= i < j < |periods| ==> periods[i] != periods[j])
    && s.payments == [] && s.books == Books([], [], [], [], map[])
  }

  lemma BilledIsFresh(s: State, occupancy: nat, amount: int, periods: seq<nat>)
    requires Billed(s, occupancy, amount, periods)
    ensures Fresh(s)
  {
  }

  lemma NoMoneyYet(s: State, b: nat)
    requires s.payments == []
    ensures ApprovedTotal(s, b) == 0 && PendingTotal(s, b) == 0
  {
  }

  /** The bill of the earliest period is the oldest. */
  lemma EarliestIsOldest(s: State, occupancy: nat, amount: int, periods: seq<nat>, b: nat)
    requires Billed(s, occupancy, amount, periods) && amount > 0 && b < |periods|
    requires forall i :: 0 <= i < |periods| ==> periods[b] <= periods[i]
    ensures IsOldest(s, occupancy, 0, b)
  {
    NoMoneyYet(s, b);
    forall c: nat | Eligible(s, c, occupancy, 0)
      ensures s.bills[b].period <= s.bills[c].period
    {
      assert s.bills[c].period == periods[c];
    }
  }

  lemma TwoSteps(s: State, a: Op, b: Op)
    requires DuesKnown(s)
    ensures Run(s, [a, b]) == Step(Step(s, a), b)
  {
    assert [a, b][..1] == [a] && [a][..0] == [];
    assert Run(s, [a]) == Step(Run(s, []), a);
  }

  /** Two payments of one bill, the first a resident's by bank, the second recorded by staff in cash. */
  function PaidTwice(resident: Caller, staff: Caller, b: nat, amount: int, at: int): seq<Op> {
    [PayOp(resident, b, amount, BankMethod, at), PayOp(staff, b, amount, CashMethod, at)]
  }

  /** What is known of one of the bills. */
  lemma BillOf(s: State, occupancy: nat, amount: int, periods: seq<nat>, b: nat)
    requires Billed(s, occupancy, amount, periods) && b < |periods|
    ensures DuesKnown(s) && b < |s.bills| && s.bills[b] == Bill(occupancy, 0, amount, periods[b], 0, Unpaid, true, true)
    ensures DueOf(s, b) == Due(Regular, false, Full, true, amount, None, None)
    ensures ApprovedTotal(s, b) == 0 && PendingTotal(s, b) == 0
    ensures amount == Remaining(s, Warga, b) == Remaining(s, Staff, b)
  {
    NoMoneyYet(s, b);
  }

  /** A payment of the oldest bill's balance is accepted. */
  lemma OldestIsAccepted(s: State, c: Caller, b: nat, amount: int)
    requires Inv(s) && b < |s.bills| && amount == Remaining(s, c.role, b) > 0
    requires c.role.Warga? ==> c.occupancy == Some(s.bills[b].occupancy)
    requires IsOldest(s, s.bills[b].occupancy, s.bills[b].due, b)
    requires DueOf(s, b).isActive && !DueOf(s, b).isVoluntary
    ensures SinglePayError(s, c, b, amount).None?
  {
    assert BillAgrees(s, b);
    HeadIsOldest(s, s.bills[b].occupancy, s.bills[b].due, b);
  }

  // ----- Reservations -----

  /** A resident submits a payment of the oldest bill, staff record one too: the resident's can no longer be
      approved. */
  lemma ResidentStranded(s: State, occupancy: nat, amount: int, periods: seq<nat>, b: nat, resident: Caller,
                         staff: Caller,
                         at: int, t: State)
    requires Billed(s, occupancy, amount, periods) && amount > 0 && b < |periods|
    requires forall i :: 0 <= i < |periods| ==> periods[b] <= periods[i]
    requires resident.role.Warga? && resident.occupancy == Some(occupancy)
    requires staff.role.Staff? && staff.user != resident.user
    requires DuesKnown(s) && t == Run(s, PaidTwice(resident, staff, b, amount, at))
    ensures Fresh(s)
    ensures |t.payments| > 0 && t.payments[0].status == Pending
    ensures VerifyPayment(t, staff.user, 0, Approve(None, Some(at), false)) == Err(AlreadyPaid)
  {
    BilledIsFresh(s, occupancy, amount, periods);
    FreshIsInv(s);
    BillOf(s, occupancy, amount, periods, b);
    EarliestIsOldest(s, occupancy, amount, periods, b);
    TwoSteps(s, PayOp(resident, b, amount, BankMethod, at), PayOp(staff, b, amount, CashMethod, at));
    StrandedByStaff(s, amount, b, resident, staff, at, t);
  }

  lemma StrandedByStaff(s: State, amount: int, b: nat, resident: Caller, staff: Caller, at: int, t: State)
    requires Inv(s) && s.payments == [] && b < |s.bills| && amount > 0
    requires IsOldest(s, s.bills[b].occupancy, s.bills[b].due, b)
    requires DueOf(s, b).isActive && !DueOf(s, b).isVoluntary
    requires amount == Remaining(s, Warga, b) == Remaining(s, Staff, b)
    requires resident.role.Warga? && resident.occupancy == Some(s.bills[b].occupancy)
    requires staff.role.Staff? && staff.user != resident.user
    requires t == Step(Step(s, PayOp(resident, b, amount, BankMethod, at)), PayOp(staff, b, amount, CashMethod, at))
    ensures |t.payments| > 0 && t.payments[0].status == Pending
    ensures VerifyPayment(t, staff.user, 0, Approve(None, Some(at), false)) == Err(AlreadyPaid)
  {
    OldestIsAccepted(s, resident, b, amount);
    Reservations.StaffStrandsPending(s, b, amount, resident, staff, at);
  }

  // ----- The queue -----

  /** Any positive payment of a bill over nothing is refused as "all paid". */
  lemma ZeroBillIsAllPaid(s: State, occupancy: nat, period: nat, c: Caller, amount: int)
    requires Billed(s, occupancy, 0, [period]) && amount > 0 && (c.role.Warga? ==> c.occupancy == Some(occupancy))
    ensures Fresh(s) && s.bills[0].status == Unpaid && SinglePayError(s, c, 0, amount) == Some(AllPaid)
  {
    BilledIsFresh(s, occupancy, 0, [period]);
    FifoProgress.AllPaidExactly(s, c, 0, amount);
  }

  // ----- The order of payments -----

  /** One unpaid balance less, and nothing else. */
  lemma StaffPaysOldest(s: State, staff: Caller, b: nat, amount: int, at: int, op: Op, t: State)
    requires Inv(s) && staff.role.Staff? && b < |s.bills| && amount == Remaining(s, Staff, b) > 0
    requires IsOldest(s, s.bills[b].occupancy, s.bills[b].due, b)
    requires DueOf(s, b).isActive && !DueOf(s, b).isVoluntary
    requires op == PayOp(staff, b, amount, CashMethod, at) && t == Step(s, op)
    ensures t.dues == s.dues && t.bills == s.bills[b := s.bills[b].(status := Paid)]
    ensures t.payments == s.payments + [Payment(ToBill(b), amount, CashMethod, Approved, staff.user, [])]
    ensures t.books == Post(s.books, Txn(amount, Income, None, Some(|s.payments|), None, at))
    ensures forall e: nat :: ApprovedTotal(t, e) == ApprovedTotal(s, e) + if e == b then amount else 0
  {
    OldestIsAccepted(s, staff, b, amount);
    FifoProgress.StaffPaymentShape(s, staff, b, amount, at, t);
    forall e: nat
      ensures ApprovedTotal(t, e) == ApprovedTotal(s, e) + if e == b then amount else 0
    {
      FifoProgress.HeadPaymentTotals(s, staff, b, amount, at, e);
    }
  }

  lemma SecondIsOldest(s: State, occupancy: nat, amount: int, periods: seq<nat>, first: nat, second: nat, u: State)
    requires Billed(s, occupancy, amount, periods) && |periods| == 2 && amount > 0
    requires first < 2 && second < 2 && first != second
    requires u.bills == s.bills[first := s.bills[first].(status := Paid)]
    requires ApprovedTotal(u, first) == amount && ApprovedTotal(u, second) == 0
    ensures IsOldest(u, occupancy, 0, second)
  {
    forall c: nat | Eligible(u, c, occupancy, 0)
      ensures c == second
    {
    }
  }

  /** The first payment of all leaves one approved row and one income row. */
  lemma FirstPaid(s: State, occupancy: nat, amount: int, periods: seq<nat>, first: nat, second: nat, staff: Caller,
                  at: int,
                  op: Op, u: State)
    requires Billed(s, occupancy, amount, periods) && first < |periods| && second < |periods|
    requires IsOldest(s, occupancy, 0, first)
    requires amount > 0 && staff.role.Staff?
    requires op == PayOp(staff, first, amount, CashMethod, at) && DuesKnown(s) && u == Step(s, op)
    ensures u.dues == s.dues && u.bills == s.bills[first := s.bills[first].(status := Paid)]
    ensures u.payments == [Payment(ToBill(first), amount, CashMethod, Approved, staff.user, [])]
    ensures u.books.txns == [Txn(amount, Income, None, Some(0), None, at)]
    ensures ApprovedTotal(u, first) == amount && (second != first ==> ApprovedTotal(u, second) == 0)
  {
    BilledIsFresh(s, occupancy, amount, periods);
    FreshIsInv(s);
    BillOf(s, occupancy, amount, periods, first);
    NoMoneyYet(s, second);
    StaffPaysOldest(s, staff, first, amount, at, op, u);
  }

  /** The first bill is settled by the only payment, and the second has no money on it. */
  ghost predicate AfterFirst(s: State, amount: int, first: nat, second: nat, staff: Caller, at: int, u: State)
    requires first < |s.bills|
  {
    && u.dues == s.dues && u.bills == s.bills[first := s.bills[first].(status := Paid)]
    && u.payments == [Payment(ToBill(first), amount, CashMethod, Approved, staff.user, [])]
    && u.books.txns == [Txn(amount, Income, None, Some(0), None, at)]
    && ApprovedTotal(u, first) == amount && ApprovedTotal(u, second) == 0
  }

  lemma SecondPaid(s: State, occupancy: nat, amount: int, periods: seq<nat>, first: nat, second: nat,
                   staff: Caller, at: int, u: State, op: Op, t: State)
    requires Billed(s, occupancy, amount, periods) && |periods| == 2 && amount > 0
    requires first < 2 && second < 2 && first != second && staff.role.Staff? && Inv(u)
    requires AfterFirst(s, amount, first, second, staff, at, u)
    requires op == PayOp(staff, second, amount, CashMethod, at) && t == Step(u, op)
    ensures t.dues == s.dues && |t.bills| == 2 && |t.payments| == 2
    ensures t.bills[first] == s.bills[first].(status := Paid) && t.bills[second] == s.bills[second].(status := Paid)
    ensures t.payments[0] == u.payments[0]
    ensures t.books.txns == [Txn(amount, Income, None, Some(0), None, at), Txn(amount, Income, None, Some(1), None, at)]
    ensures ApprovedTotal(t, second) == amount
  {
    SecondIsOldest(s, occupancy, amount, periods, first, second, u);
    StaffPaysOldest(u, staff, second, amount, at, op, t);
  }

  lemma FirstRow(t: State, amount: int, at: int, back: int)
    requires |t.payments| == 2 && t.payments[0].status == Approved
    requires t.books.txns == [Txn(amount, Income, None, Some(0), None, at), Txn(amount, Income, None, Some(1), None, at)]
    ensures ReversePayment(t, 0, back).Ok?
  {
    var one := [Txn(amount, Income, None, Some(0), None, at)];
    assert t.books.txns[..1] == one && one[..0] == [];
    assert FirstIncomeRow(one, 0) == Some(0);
    PaymentEffects.ReversalAccepted(t, 0, 0, None, back);
  }

  function PayBoth(staff: Caller, first: nat, second: nat, amount: int, at: int): seq<Op> {
    [PayOp(staff, first, amount, CashMethod, at), PayOp(staff, second, amount, CashMethod, at)]
  }

  /** Two bills of one strict due, the first settled by the first payment and the second by the second. */
  ghost predicate BothPaid(t: State, first: nat, second: nat, amount: int) {
    && |t.dues| == 1 && !t.dues[0].isVoluntary && t.dues[0].rule.Full?
    && first < |t.bills| && second < |t.bills| && first != second && |t.payments| == 2
    && t.bills[first].occupancy == t.bills[second].occupancy && t.bills[first].due == t.bills[second].due == 0
    && t.bills[first].period < t.bills[second].period
    && t.bills[first].status == Paid && t.bills[first].isActive && t.bills[first].isObligatory
    && t.payments[0].target == ToBill(first) && t.payments[0].amount == amount && t.payments[0].status == Approved
    && t.payments[0].allocs == [] && ApprovedTotal(t, second) == amount > 0
  }

  lemma FirstCoversEarlier(t: State, first: nat, second: nat, amount: int)
    requires WellFormed(t) && BothPaid(t, first, second, amount)
    ensures Strict(t, second) && CoversEarlier(t, 0, second, first) && !Covers(t.payments[0], second)
  {
  }

  lemma FirstReversedBreaks(t: State, first: nat, second: nat, amount: int, back: int)
    requires Inv(t) && Ordered(t) && BothPaid(t, first, second, amount) && ReversePayment(t, 0, back).Ok?
    ensures !PaidInOrder(ReversePayment(t, 0, back).value, second)
  {
    FirstCoversEarlier(t, first, second, amount);
    ReversalKeepsPaidExactly(t, 0, back, second);
  }

  /** Staff settle two bills in order and reverse the first payment: the later bill stays paid while the earlier
      owes. */
  lemma ReversalBreaksOrder(s: State, occupancy: nat, amount: int, periods: seq<nat>, first: nat, second: nat,
                            staff: Caller, at: int, back: int, t: State)
    requires Billed(s, occupancy, amount, periods) && |periods| == 2 && amount > 0
    requires first < 2 && second < 2 && periods[first] < periods[second] && staff.role.Staff?
    requires DuesKnown(s) && t == Run(s, PayBoth(staff, first, second, amount, at))
    ensures Fresh(s) && DuesKnown(t) && Ordered(t)
    ensures ReversePayment(t, 0, back).Ok? && !PaidInOrder(ReversePayment(t, 0, back).value, second)
  {
    var one, two := PayOp(staff, first, amount, CashMethod, at), PayOp(staff, second, amount, CashMethod, at);
    BilledIsFresh(s, occupancy, amount, periods);
    TwoSteps(s, one, two);
    FirstPaymentInOrder(s, one);
    PaymentStaysOrdered(Step(s, one), two);
    BothArePaid(s, occupancy, amount, periods, first, second, staff, at, one, two, Step(s, one), t);
    FirstRow(t, amount, at, back);
    FirstReversedBreaks(t, first, second, amount, back);
  }

  lemma BothSettled(s: State, occupancy: nat, amount: int, periods: seq<nat>, first: nat, second: nat,
                    staff: Caller, t: State)
    requires Billed(s, occupancy, amount, periods) && |periods| == 2 && amount > 0
    requires first < 2 && second < 2 && periods[first] < periods[second]
    requires t.dues == s.dues && |t.bills| == 2 && |t.payments| == 2
    requires t.bills[first] == s.bills[first].(status := Paid) && t.bills[second] == s.bills[second].(status := Paid)
    requires t.payments[0] == Payment(ToBill(first), amount, CashMethod, Approved, staff.user, [])
    requires ApprovedTotal(t, second) == amount
    ensures BothPaid(t, first, second, amount)
  {
  }

  lemma SecondSettles(s: State, occupancy: nat, amount: int, periods: seq<nat>, first: nat, second: nat,
                      staff: Caller, at: int, u: State, op: Op, t: State)
    requires Billed(s, occupancy, amount, periods) && |periods| == 2 && amount > 0
    requires first < 2 && second < 2 && periods[first] < periods[second] && staff.role.Staff? && Inv(u)
    requires AfterFirst(s, amount, first, second, staff, at, u)
    requires op == PayOp(staff, second, amount, CashMethod, at) && t == Step(u, op)
    ensures BothPaid(t, first, second, amount)
    ensures t.books.txns == [Txn(amount, Income, None, Some(0), None, at), Txn(amount, Income, None, Some(1), None, at)]
  {
    SecondPaid(s, occupancy, amount, periods, first, second, staff, at, u, op, t);
    BothSettled(s, occupancy, amount, periods, first, second, staff, t);
  }

  lemma FirstOfTwoPaid(s: State, occupancy: nat, amount: int, periods: seq<nat>, first: nat, second: nat,
                       staff: Caller, at: int, one: Op, u: State)
    requires Billed(s, occupancy, amount, periods) && |periods| == 2 && amount > 0
    requires first < 2 && second < 2 && periods[first] < periods[second] && staff.role.Staff?
    requires one == PayOp(staff, first, amount, CashMethod, at) && DuesKnown(s) && u == Step(s, one)
    ensures AfterFirst(s, amount, first, second, staff, at, u)
  {
    EarliestIsOldest(s, occupancy, amount, periods, first);
    FirstPaid(s, occupancy, amount, periods, first, second, staff, at, one, u);
  }

  lemma BothArePaid(s: State, occupancy: nat, amount: int, periods: seq<nat>, first: nat, second: nat,
                    staff: Caller, at: int, one: Op, two: Op, u: State, t: State)
    requires Billed(s, occupancy, amount, periods) && |periods| == 2 && amount > 0
    requires first < 2 && second < 2 && periods[first] < periods[second] && staff.role.Staff? && Inv(u)
    requires one == PayOp(staff, first, amount, CashMethod, at) && two == PayOp(staff, second, amount, CashMethod, at)
    requires DuesKnown(s) && u == Step(s, one) && t == Step(u, two)
    ensures BothPaid(t, first, second, amount)
    ensures t.books.txns == [Txn(amount, Income, None, Some(0), None, at), Txn(amount, Income, None, Some(1), None, at)]
  {
    FirstOfTwoPaid(s, occupancy, amount, periods, first, second, staff, at, one, u);
    SecondSettles(s, occupancy, amount, periods, first, second, staff, at, u, two, t);
  }

  lemma PaymentStaysOrdered(s: State, op: Op)
    requires Inv(s) && Ordered(s) && op.PayOp?
    ensures Inv(Step(s, op)) && Ordered(Step(s, op))
  {
    StepKeeps(s, op);
    StepKeepsOrderExactly(s, op);
  }

  lemma FreshIsOrdered(s: State)
    requires Fresh(s)
    ensures Ordered(s)
  {
    assert [] == s.payments;
    RunKeepsOrder(s, []);
  }

  lemma FirstPaymentInOrder(s: State, op: Op)
    requires Fresh(s) && op.PayOp?
    ensures Inv(Step(s, op)) && Ordered(Step(s, op))
  {
    FreshIsInv(s);
    FreshIsOrdered(s);
    PaymentStaysOrdered(s, op);
  }

  /** Once a bill is paid, issuing one for an earlier month breaks the order. */
  lemma LateIssueBreaksOrder(s: State, occupancy: nat, amount: int, periods: seq<nat>, b: nat, staff: Caller, at: int,
                             earlier: nat, pay: Op, issue: Op, t: State)
    requires Billed(s, occupancy, amount, periods) && amount > 0 && b < |periods| && staff.role.Staff?
    requires forall i :: 0 <= i < |periods| ==> earlier < periods[b] <= periods[i]
    requires pay == PayOp(staff, b, amount, CashMethod, at) && issue == AddBillOp(occupancy, 0, amount, earlier, 0, true)
    requires DuesKnown(s) && t == Step(s, pay)
    ensures Fresh(s) && Ordered(t) && !Ordered(Step(t, issue))
  {
    BilledIsFresh(s, occupancy, amount, periods);
    EarliestPaid(s, occupancy, amount, periods, b, staff, at, earlier, pay, t);
    FirstPaymentInOrder(s, pay);
    LateAfterPaid(t, occupancy, amount, earlier, b, issue);
  }

  lemma EarliestPaid(s: State, occupancy: nat, amount: int, periods: seq<nat>, b: nat, staff: Caller, at: int,
                     earlier: nat,
                     pay: Op, t: State)
    requires Billed(s, occupancy, amount, periods) && amount > 0 && b < |periods| && staff.role.Staff?
    requires forall i :: 0 <= i < |periods| ==> earlier < periods[b] <= periods[i]
    requires pay == PayOp(staff, b, amount, CashMethod, at) && DuesKnown(s) && t == Step(s, pay)
    ensures |t.dues| == 1 && !t.dues[0].isVoluntary && t.dues[0].rule.Full?
    ensures b < |t.bills| && ApprovedTotal(t, b) == amount
    ensures t.bills[b].occupancy == occupancy && t.bills[b].due == 0
    ensures forall i :: 0 <= i < |t.bills| ==> earlier < t.bills[i].period
  {
    EarliestIsOldest(s, occupancy, amount, periods, b);
    FirstPaid(s, occupancy, amount, periods, b, b, staff, at, pay, t);
  }

  lemma LateAfterPaid(t: State, occupancy: nat, amount: int, earlier: nat, b: nat, issue: Op)
    requires Inv(t) && Ordered(t) && |t.dues| == 1 && !t.dues[0].isVoluntary && t.dues[0].rule.Full? && b < |t.bills|
    requires t.bills[b].occupancy == occupancy && t.bills[b].due == 0
    requires forall i :: 0 <= i < |t.bills| ==> earlier < t.bills[i].period
    requires ApprovedTotal(t, b) == amount > 0 && issue == AddBillOp(occupancy, 0, amount, earlier, 0, true)
    ensures !Ordered(Step(t, issue))
  {
    ShareTotalSign(t.payments, |t.bills|, b, Pending);
    assert PaidAhead(t, occupancy, 0, earlier);
    IssueKeepsOrderExactly(t, issue);
  }

  // ----- A pending payment overtakes -----

  /** Of two bills of one strict due the first is settled by the first payment; the second one's payment waits. */
  ghost predicate PaidAndPending(t: State, first: nat, second: nat, amount: int, resident: Caller, at: int) {
    && |t.dues| == 1 && !t.dues[0].isVoluntary && t.dues[0].rule.Full?
    && first < |t.bills| && second < |t.bills| && first != second && |t.payments| == 2 && amount > 0
    && t.bills[first] == Bill(t.bills[second].occupancy, 0, amount, t.bills[first].period, 0, Paid, true, true)
    && t.bills[second].due == 0 && t.bills[second].amount == amount && t.bills[first].period < t.bills[second].period
    && t.bills[second].status == Unpaid && t.bills[second].isActive && t.bills[second].isObligatory
    && t.payments[0] == Payment(ToBill(first), amount, CashMethod, Approved, t.payments[0].submittedBy, [])
    && t.payments[1] == Payment(ToBill(second), amount, BankMethod, Pending, resident.user, [])
    && t.books.txns == [Txn(amount, Income, None, Some(0), None, at)]
  }

  lemma NothingPending(u: State, first: nat, amount: int, user: nat, b: nat)
    requires u.payments == [Payment(ToBill(first), amount, CashMethod, Approved, user, [])]
    ensures PendingTotal(u, b) == 0
  {
    assert u.payments[..0] == [];
    AppendShare([], u.payments[0], b, Pending);
    assert [] + [u.payments[0]] == u.payments;
  }

  lemma SecondSubmitted(s: State, occupancy: nat, amount: int, periods: seq<nat>, first: nat, second: nat,
                        staff: Caller, resident: Caller, at: int, u: State, op: Op, t: State)
    requires Billed(s, occupancy, amount, periods) && |periods| == 2 && amount > 0
    requires first < 2 && second < 2 && periods[first] < periods[second] && Inv(u)
    requires resident.role.Warga? && resident.occupancy == Some(occupancy)
    requires AfterFirst(s, amount, first, second, staff, at, u)
    requires op == PayOp(resident, second, amount, BankMethod, at) && t == Step(u, op)
    ensures PaidAndPending(t, first, second, amount, resident, at)
  {
    SecondIsOldest(s, occupancy, amount, periods, first, second, u);
    NothingPending(u, first, amount, staff.user, second);
    OldestIsAccepted(u, resident, second, amount);
  }

  lemma OnlyRow(t: State, first: nat, second: nat, amount: int, resident: Caller, at: int, back: int)
    requires PaidAndPending(t, first, second, amount, resident, at)
    ensures ReversePayment(t, 0, back).Ok?
  {
    assert t.books.txns[..0] == [];
    assert FirstIncomeRow(t.books.txns, 0) == Some(0);
    PaymentEffects.ReversalAccepted(t, 0, 0, None, back);
  }

  /** After the reversal: two owing bills of one due, the later one with a payment waiting. */
  ghost predicate LaterWaits(r: State, first: nat, second: nat, amount: int, resident: Caller) {
    && |r.dues| == 1 && !r.dues[0].isVoluntary && r.dues[0].rule.Full?
    && first < |r.bills| && second < |r.bills| && first != second && |r.payments| == 2 && amount > 0
    && Group(r, second, first) && r.bills[first].period < r.bills[second].period
    && r.bills[first].due == 0 && r.bills[first].amount == r.bills[second].amount == amount
    && r.bills[first].status != Cancelled && r.bills[first].isActive && r.bills[first].isObligatory
    && r.bills[second].status != Cancelled && r.bills[second].isActive && r.bills[second].isObligatory
    && r.payments[1] == Payment(ToBill(second), amount, BankMethod, Pending, resident.user, [])
    && ApprovedTotal(r, first) == 0 && ApprovedTotal(r, second) == 0
  }

  lemma ReversalLeavesWaiting(t: State, first: nat, second: nat, amount: int, resident: Caller, at: int, back: int,
                              r: State)
    requires Inv(t) && PaidAndPending(t, first, second, amount, resident, at) && ReversePayment(t, 0, back) == Ok(r)
    ensures LaterWaits(r, first, second, amount, resident)
  {
    ReversedBill(t, 0, back, first, r);
    ReversedBill(t, 0, back, second, r);
    PaidAndPendingTotals(t, first, second, amount, resident, at, first);
    PaidAndPendingTotals(t, first, second, amount, resident, at, second);
  }

  lemma PaidAndPendingTotals(t: State, first: nat, second: nat, amount: int, resident: Caller, at: int, b: nat)
    requires PaidAndPending(t, first, second, amount, resident, at)
    ensures ApprovedTotal(t, b) == if b == first then amount else 0
  {
    var one := t.payments[..1];
    assert t.payments == one + [t.payments[1]] && one == [] + [t.payments[0]];
    AppendShare([], t.payments[0], b, Approved);
    AppendShare(one, t.payments[1], b, Approved);
  }

  lemma WaitingBreaksOrder(t: State, first: nat, second: nat, amount: int, resident: Caller, at: int, back: int,
                           r: State)
    requires Inv(t) && Ordered(t) && PaidAndPending(t, first, second, amount, resident, at)
    requires ReversePayment(t, 0, back) == Ok(r) && DuesKnown(r)
    ensures !Ordered(r)
  {
    assert PendingWithout(t, second, first);
    assert LeavesAhead(t, 0, second, first);
    ReversalKeepsOrderExactly(t, 0, back, r);
  }

  /** The waiting payment can still be approved, although an earlier bill owes again. */
  lemma WaitingIsApproved(r: State, first: nat, second: nat, amount: int, resident: Caller, verifier: nat, at: int)
    requires Inv(r) && LaterWaits(r, first, second, amount, resident) && verifier != resident.user
    ensures Reservations.Approves(VerifyPayment(r, verifier, 1, Approve(None, Some(at), false)))
  {
    Reservations.SingleApprovalExact(r, verifier, 1, None, at, false);
  }

  lemma ApprovedOvertakes(r: State, first: nat, second: nat, amount: int, resident: Caller, at: int, v: State)
    requires Inv(r) && LaterWaits(r, first, second, amount, resident) && DuesKnown(v)
    requires v == Settle(r, WithStatus(r, 1, Approved), r.payments[1], 1, None, at)
    ensures !PaidInOrder(v, second)
  {
    ApprovalTotals(r, v.payments, r.payments[1], 1, first);
    ApprovalTotals(r, v.payments, r.payments[1], 1, second);
    assert v.bills[first] == r.bills[first];
    assert v.bills[second] == r.bills[second].(status := v.bills[second].status);
    assert OwedBefore(v, first, second);
  }

  /** The pending payment can be approved, and then pays the bill before an earlier one that owes. */
  ghost predicate CanOvertake(r: State, verifier: nat, id: nat, b: nat, at: int)
    requires DuesKnown(r)
  {
    var outcome := VerifyPayment(r, verifier, id, Approve(None, Some(at), false));
    Reservations.Approves(outcome) && DuesKnown(outcome.value.state) && !PaidInOrder(outcome.value.state, b)
  }

  lemma WaitingOvertakes(r: State, first: nat, second: nat, amount: int, resident: Caller, verifier: nat, at: int)
    requires Inv(r) && LaterWaits(r, first, second, amount, resident) && verifier != resident.user
    ensures CanOvertake(r, verifier, 1, second, at)
  {
    var outcome := VerifyPayment(r, verifier, 1, Approve(None, Some(at), false));
    WaitingIsApproved(r, first, second, amount, resident, verifier, at);
    ApprovalIsSettle(r, verifier, 1, None, at, false);
    ApprovedOvertakes(r, first, second, amount, resident, at, outcome.value.state);
  }

  function PayAndSubmit(staff: Caller, resident: Caller, first: nat, second: nat, amount: int, at: int): seq<Op> {
    [PayOp(staff, first, amount, CashMethod, at), PayOp(resident, second, amount, BankMethod, at)]
  }

  lemma FirstAndWaiting(s: State, occupancy: nat, amount: int, periods: seq<nat>, first: nat, second: nat,
                        staff: Caller, resident: Caller, at: int, one: Op, two: Op, u: State, t: State)
    requires Billed(s, occupancy, amount, periods) && |periods| == 2 && amount > 0
    requires first < 2 && second < 2 && periods[first] < periods[second] && staff.role.Staff?
    requires resident.role.Warga? && resident.occupancy == Some(occupancy) && Inv(u)
    requires one == PayOp(staff, first, amount, CashMethod, at) && two == PayOp(resident, second, amount, BankMethod, at)
    requires DuesKnown(s) && u == Step(s, one) && t == Step(u, two)
    ensures PaidAndPending(t, first, second, amount, resident, at)
  {
    FirstOfTwoPaid(s, occupancy, amount, periods, first, second, staff, at, one, u);
    SecondSubmitted(s, occupancy, amount, periods, first, second, staff, resident, at, u, two, t);
  }

  /** Staff settle the first of two bills, a resident submits the second, and the first payment is reversed: the
      order is broken although no later bill is paid, and the waiting payment is approved, so the second bill is paid
      first. */
  lemma PendingOvertakes(s: State, occupancy: nat, amount: int, periods: seq<nat>, first: nat, second: nat,
                         staff: Caller, resident: Caller, at: int, back: int, t: State, r: State)
    requires Billed(s, occupancy, amount, periods) && |periods| == 2 && amount > 0
    requires first < 2 && second < 2 && periods[first] < periods[second]
    requires staff.role.Staff? && staff.user != resident.user
    requires resident.role.Warga? && resident.occupancy == Some(occupancy)
    requires DuesKnown(s) && t == Run(s, PayAndSubmit(staff, resident, first, second, amount, at))
    requires DuesKnown(t) && r == Step(t, ReverseOp(0, back))
    ensures Fresh(s) && Ordered(t) && ReversePayment(t, 0, back).Ok? && DuesKnown(r) && !Ordered(r)
    ensures CanOvertake(r, staff.user, 1, second, back)
  {
    var one, two := PayOp(staff, first, amount, CashMethod, at), PayOp(resident, second, amount, BankMethod, at);
    BilledIsFresh(s, occupancy, amount, periods);
    TwoSteps(s, one, two);
    FirstPaymentInOrder(s, one);
    PaymentStaysOrdered(Step(s, one), two);
    FirstAndWaiting(s, occupancy, amount, periods, first, second, staff, resident, at, one, two, Step(s, one), t);
    OvertakenAfterReversal(t, first, second, amount, resident, staff.user, at, back, r);
  }

  lemma FirstReversed(t: State, first: nat, second: nat, amount: int, resident: Caller, at: int, back: int, r: State)
    requires Inv(t) && PaidAndPending(t, first, second, amount, resident, at) && r == Step(t, ReverseOp(0, back))
    ensures ReversePayment(t, 0, back) == Ok(r) && Inv(r) && LaterWaits(r, first, second, amount, resident)
  {
    OnlyRow(t, first, second, amount, resident, at, back);
    ReverseKeeps(t, 0, back);
    ReversalLeavesWaiting(t, first, second, amount, resident, at, back, r);
  }

  lemma OvertakenAfterReversal(t: State, first: nat, second: nat, amount: int, resident: Caller, verifier: nat,
                               at: int, back: int, r: State)
    requires Inv(t) && Ordered(t) && PaidAndPending(t, first, second, amount, resident, at) && verifier != resident.user
    requires r == Step(t, ReverseOp(0, back))
    ensures ReversePayment(t, 0, back).Ok? && DuesKnown(r) && !Ordered(r)
    ensures CanOvertake(r, verifier, 1, second, back)
  {
    FirstReversed(t, first, second, amount, resident, at, back, r);
    WaitingBreaksOrder(t, first, second, amount, resident, at, back, r);
    WaitingOvertakes(r, first, second, amount, resident, verifier, back);
  }

  // ----- A bill is made payable again -----

  lemma WithFirstInactive(s: State, occupancy: nat, amount: int, periods: seq<nat>, first: nat, second: nat,
                          off: Op, u: State)
    requires Billed(s, occupancy, amount, periods) && |periods| == 2 && amount > 0
    requires first < 2 && second < 2 && first != second && off == BillActiveOp(first, false)
    requires DuesKnown(s) && u == Step(s, off)
    ensures u == s.(bills := s.bills[first := s.bills[first].(isActive := false)])
    ensures IsOldest(u, occupancy, 0, second)
    ensures ApprovedTotal(u, first) == 0 && amount == Remaining(u, Staff, second)
  {
    NoMoneyYet(s, first);
    NoMoneyYet(u, first);
    NoMoneyYet(u, second);
    forall c: nat | Eligible(u, c, occupancy, 0)
      ensures c == second
    {
    }
  }

  /** An inactive bill that owes, behind a later paid one of its strict due. */
  ghost predicate BehindInactive(t: State, first: nat, second: nat) {
    && |t.dues| == 1 && !t.dues[0].isVoluntary && t.dues[0].rule.Full?
    && first < |t.bills| && second < |t.bills| && Group(t, second, first) && t.bills[first].due == 0
    && t.bills[first].period < t.bills[second].period && t.bills[first].status == Unpaid
    && !t.bills[first].isActive && t.bills[first].isObligatory
    && ApprovedTotal(t, first) < t.bills[first].amount && ApprovedTotal(t, second) > 0
  }

  lemma SecondPaidAlone(s: State, occupancy: nat, amount: int, periods: seq<nat>, first: nat, second: nat,
                        staff: Caller, at: int, off: Op, pay: Op, u: State, t: State)
    requires Billed(s, occupancy, amount, periods) && |periods| == 2 && amount > 0
    requires first < 2 && second < 2 && periods[first] < periods[second] && staff.role.Staff?
    requires off == BillActiveOp(first, false) && pay == PayOp(staff, second, amount, CashMethod, at)
    requires DuesKnown(s) && u == Step(s, off) && Inv(u) && t == Step(u, pay)
    ensures BehindInactive(t, first, second)
  {
    WithFirstInactive(s, occupancy, amount, periods, first, second, off, u);
    StaffPaysOldest(u, staff, second, amount, at, pay, t);
  }

  lemma RevivingBreaks(t: State, first: nat, second: nat, revive: Op)
    requires Inv(t) && Ordered(t) && BehindInactive(t, first, second) && revive == BillActiveOp(first, true)
    ensures !Ordered(Step(t, revive))
  {
    assert Revives(t, revive, first) && Overtaken(t, first);
    FlagKeepsOrderExactly(t, revive);
  }

  /** The first of two bills is deactivated, staff pay the second, and activating the first again breaks the order. */
  lemma RevivalBreaksOrder(s: State, occupancy: nat, amount: int, periods: seq<nat>, first: nat, second: nat,
                           staff: Caller, at: int, off: Op, pay: Op, revive: Op, t: State)
    requires Billed(s, occupancy, amount, periods) && |periods| == 2 && amount > 0
    requires first < 2 && second < 2 && periods[first] < periods[second] && staff.role.Staff?
    requires off == BillActiveOp(first, false) && pay == PayOp(staff, second, amount, CashMethod, at)
    requires revive == BillActiveOp(first, true) && DuesKnown(s) && t == Run(s, [off, pay])
    ensures Fresh(s) && DuesKnown(t) && Ordered(t) && !Ordered(Step(t, revive))
  {
    BilledIsFresh(s, occupancy, amount, periods);
    TwoSteps(s, off, pay);
    DeactivationInOrder(s, off);
    PaymentStaysOrdered(Step(s, off), pay);
    SecondPaidAlone(s, occupancy, amount, periods, first, second, staff, at, off, pay, Step(s, off), t);
    RevivingBreaks(t, first, second, revive);
  }

  lemma DeactivationInOrder(s: State, off: Op)
    requires Fresh(s) && off.BillActiveOp? && !off.active
    ensures Inv(Step(s, off)) && Ordered(Step(s, off))
  {
    FreshIsInv(s);
    FreshIsOrdered(s);
    StepKeeps(s, off);
    FlagKeepsOrderExactly(s, off);
  }

  // ----- A voluntary bill -----

  /** One voluntary due and one unpaid bill of it, before any payment. */
  ghost predicate OneVoluntary(s: State, occupancy: nat, amount: int, period: nat) {
    && |s.dues| == 1 && s.dues[0] == Due(Voluntary, true, Partially, true, amount, None, None)
    && |s.bills| == 1 && s.bills[0] == Bill(occupancy, 0, amount, period, 0, Unpaid, true, true) && amount >= 0
    && s.payments == [] && s.books == Books([], [], [], [], map[])
  }

  /** Staff pay a voluntary bill: whatever the amount, it is marked paid. */
  lemma VoluntaryPaid(s: State, b: nat, staff: Caller, part: int, at: int, pay: Op, p: Payment, t: State)
    requires Inv(s) && b < |s.bills| && DueOf(s, b).isVoluntary && s.bills[b].isActive && s.bills[b].status != Cancelled
    requires staff.role.Staff? && part > 0 && pay == PayOp(staff, b, part, CashMethod, at) && t == Step(s, pay)
    requires p == Payment(ToBill(b), part, CashMethod, Approved, staff.user, [])
    ensures t == Settle(s, s.payments + [p], p, |s.payments|, None, at) && t.bills[b] == s.bills[b].(status := Paid)
    ensures ValidPayment(p, |s.bills|) && Fits(s, p) && Covers(p, b)
    ensures ApprovedTotal(t, b) == ApprovedTotal(s, b) + part
  {
    AppendShare(s.payments, p, b, Approved);
  }

  /** A voluntary bill that one payment paid in part and marked paid. */
  ghost predicate PartlyCovered(t: State, b: nat, part: int)
    requires DuesKnown(t)
  {
    && |t.bills| == 1 && b < |t.bills| && DueOf(t, b).isVoluntary && |t.payments| == 1
    && t.bills[b].isActive && t.bills[b].status == Paid && ApprovedTotal(t, b) == part && 0 < part < t.bills[b].amount
  }

  lemma VoluntaryIsFresh(s: State, occupancy: nat, amount: int, period: nat, b: nat)
    requires OneVoluntary(s, occupancy, amount, period) && b < |s.bills|
    ensures Fresh(s) && Inv(s) && ApprovedTotal(s, b) == 0
  {
    assert Fresh(s);
    FreshIsInv(s);
    NoMoneyYet(s, b);
  }

  lemma FirstPartPaid(s: State, b: nat, staff: Caller, part: int, at: int, pay: Op, t: State)
    requires Inv(s) && |s.bills| == 1 && b < |s.bills| && |s.payments| == 0 && ApprovedTotal(s, b) == 0
    requires DueOf(s, b).isVoluntary && s.bills[b].isActive && s.bills[b].status == Unpaid
    requires staff.role.Staff? && 0 < part < s.bills[b].amount
    requires pay == PayOp(staff, b, part, CashMethod, at) && t == Step(s, pay)
    ensures PartlyCovered(t, b, part)
  {
    VoluntaryPaid(s, b, staff, part, at, pay, Payment(ToBill(b), part, CashMethod, Approved, staff.user, []), t);
  }

  /** The second of two partial payments is reversed: the bill was marked paid before it and is partly paid after. */
  lemma VoluntaryStatusLost(s: State, occupancy: nat, amount: int, period: nat, b: nat, staff: Caller, part: int,
                            more: int,
                            at: int, back: int, one: Op, two: Op, t: State, u: State)
    requires OneVoluntary(s, occupancy, amount, period) && b < |s.bills| && staff.role.Staff?
    requires 0 < part < amount && more > 0
    requires one == PayOp(staff, b, part, CashMethod, at) && two == PayOp(staff, b, more, CashMethod, at)
    requires DuesKnown(s) && t == Step(s, one) && u == Step(t, two)
    ensures Fresh(s) && b < |t.bills| && t.bills[b].status == Paid && ReversePayment(u, 1, back).Ok?
    ensures var r := ReversePayment(u, 1, back).value; b < |r.bills| && r.bills[b].status == Partial
  {
    VoluntaryIsFresh(s, occupancy, amount, period, b);
    FirstPartPaid(s, b, staff, part, at, one, t);
    StepKeeps(s, one);
    SecondPartReversed(t, b, staff, part, more, at, back, two, u);
  }

  lemma SecondPartReversed(t: State, b: nat, staff: Caller, part: int, more: int, at: int, back: int, two: Op, u: State)
    requires Inv(t) && PartlyCovered(t, b, part) && staff.role.Staff? && more > 0
    requires two == PayOp(staff, b, more, CashMethod, at) && u == Step(t, two)
    ensures ReversePayment(u, 1, back).Ok?
    ensures var r := ReversePayment(u, 1, back).value; b < |r.bills| && r.bills[b].status == Partial
  {
    var p := Payment(ToBill(b), more, CashMethod, Approved, staff.user, []);
    VoluntaryPaid(t, b, staff, more, at, two, p, u);
    PaymentEffects.ReversalUndoesApproval(t, t.payments + [p], p, 1, None, at, u, back);
  }
}
