/** A staff payment that settles several bills at once has the effect of settling them one by one, oldest first. */
module BatchPayment {
  import opened Results
  import opened Ledger
  import opened PeriodBalance
  import opened Billing
  import opened Payments
  import opened PaymentInvariants
  import FifoOrder

  /** Every allocation is its bill's whole remaining balance, on an active, non-voluntary due. */
  predicate SettlesAll(s: State, allocs: seq<Alloc>)
    requires DuesKnown(s) && BillsExist(s, allocs)
  {
    forall i :: 0 <= i < |allocs| ==>
      && allocs[i].amount == Remaining(s, Staff, allocs[i].bill)
      && DueOf(s, allocs[i].bill).isActive && !DueOf(s, allocs[i].bill).isVoluntary
  }

  /** The allocations in some order of rising periods. */
  ghost predicate InPeriodOrder(s: State, allocs: seq<Alloc>, sorted: seq<Alloc>) {
    && multiset(sorted) == multiset(allocs)
    && forall i, j :: 0 <= i < j < |sorted| ==> PeriodOf(s.bills, sorted[i].bill) <= PeriodOf(s.bills, sorted[j].bill)
  }

  // ----- Reordering allocations -----

  function Without(allocs: seq<Alloc>, i: nat): seq<Alloc>
    requires i < |allocs|
  {
    allocs[..i] + allocs[i + 1..]
  }

  lemma WithoutFromInit(allocs: seq<Alloc>, i: nat)
    requires i < |allocs| - 1
    ensures Without(allocs, i) == Without(allocs[..|allocs| - 1], i) + [allocs[|allocs| - 1]]
  {
  }

  lemma {:induction false} AmountWithout(allocs: seq<Alloc>, i: nat)
    requires i < |allocs|
    ensures AllocAmount(allocs) == AllocAmount(Without(allocs, i)) + allocs[i].amount
  {
    var n := |allocs| - 1;
    if i < n {
      AmountWithout(allocs[..n], i);
      WithoutFromInit(allocs, i);
      AppendAlloc(Without(allocs[..n], i), allocs[n], 0);
    } else {
      assert Without(allocs, i) == allocs[..n];
    }
  }

  /** Dropping the same allocation on both sides keeps the sides equal up to order. */
  lemma DropBoth(a: seq<Alloc>, b: seq<Alloc>, i: nat)
    requires multiset(a) == multiset(b) && i < |b| && a != [] && b[i] == a[|a| - 1]
    ensures multiset(a[..|a| - 1]) == multiset(Without(b, i))
  {
    var n := |a| - 1;
    assert a == a[..n] + [a[n]];
    assert b == b[..i] + [b[i]] + b[i + 1..];
    assert multiset(a[..n]) == multiset(a) - multiset{a[n]} == multiset(Without(b, i));
  }

  lemma {:induction false} AmountOfPermutation(a: seq<Alloc>, b: seq<Alloc>)
    requires multiset(a) == multiset(b)
    ensures AllocAmount(a) == AllocAmount(b)
  {
    assert |a| == |multiset(a)| == |multiset(b)| == |b|;
    if a != [] {
      var n := |a| - 1;
      assert a[n] in multiset(b);
      var i :| 0 <= i < |b| && b[i] == a[n];
      DropBoth(a, b, i);
      AmountOfPermutation(a[..n], Without(b, i));
      AmountWithout(b, i);
    }
  }

  lemma {:induction false} AtMostOnce(allocs: seq<Alloc>, a: Alloc)
    requires DistinctBills(allocs)
    ensures multiset(allocs)[a] <= 1
  {
    if allocs != [] {
      var n := |allocs| - 1;
      assert allocs == allocs[..n] + [allocs[n]];
      AtMostOnce(allocs[..n], a);
    }
  }

  lemma TwoPlaces(b: seq<Alloc>, i: nat, j: nat)
    requires i < j < |b|
    ensures b[i] == b[j] ==> multiset(b)[b[i]] >= 2
  {
    assert b == b[..i] + [b[i]] + b[i + 1..];
    assert b[i + 1..][j - i - 1] == b[j];
  }

  lemma SameBills(a: seq<Alloc>, b: seq<Alloc>, bill: nat)
    requires multiset(a) == multiset(b)
    ensures HasAlloc(a, bill) ==> HasAlloc(b, bill)
  {
    if i :| 0 <= i < |a| && a[i].bill == bill {
      assert a[i] in multiset(b);
    }
  }

  /** Reordering keeps the bills distinct and their amounts. */
  lemma PermutedAllocs(a: seq<Alloc>, b: seq<Alloc>)
    requires multiset(a) == multiset(b) && DistinctBills(a)
    ensures DistinctBills(b)
    ensures forall bill: nat :: HasAlloc(a, bill) == HasAlloc(b, bill) && AllocSum(a, bill) == AllocSum(b, bill)
  {
    forall i, j | 0 <= i < j < |b|
      ensures b[i].bill != b[j].bill
    {
      TwoPlaces(b, i, j);
      AtMostOnce(a, b[i]);
      assert b[i] in multiset(a) && b[j] in multiset(a);
    }
    forall bill: nat
      ensures HasAlloc(a, bill) == HasAlloc(b, bill) && AllocSum(a, bill) == AllocSum(b, bill)
    {
      SameBills(a, b, bill);
      SameBills(b, a, bill);
      AllocSumOf(a, bill);
      AllocSumOf(b, bill);
      if i :| 0 <= i < |a| && a[i].bill == bill {
        assert a[i] in multiset(b);
      }
    }
  }

  // ----- Paying one by one -----

  /** Only the statuses of the bills named by `paid` changed, and they became paid. */
  ghost predicate SettledRows(s: State, bills: seq<Bill>, paid: seq<Alloc>) {
    && |bills| == |s.bills|
    && forall b :: 0 <= b < |s.bills| ==>
         bills[b] == if HasAlloc(paid, b) then s.bills[b].(status := Paid) else s.bills[b]
  }

  /** Approved money grew by the allocations in `paid`. */
  ghost predicate SettledTotals(s: State, payments: seq<Payment>, paid: seq<Alloc>) {
    forall b: nat ::
      && ShareTotal(payments, b, Approved) == ShareTotal(s.payments, b, Approved) + AllocSum(paid, b)
      && ShareTotal(payments, b, Pending) == ShareTotal(s.payments, b, Pending)
  }

  /** The ledger grew by `amount` cents of payment income, and no location balance moved. */
  ghost predicate SettledBooks(b: Books, a: Books, amount: int) {
    && a.changes == b.changes && a.transfers == b.transfers && a.locations == b.locations && a.openings == b.openings
    && LinkedNet(a.txns) == LinkedNet(b.txns) + amount
    && NetBalance(a.txns) == NetBalance(b.txns) + amount
  }

  /** Bills, totals and ledger as they stand once exactly `paid` has been settled. */
  ghost predicate Settled(s: State, t: State, paid: seq<Alloc>) {
    && t.dues == s.dues && SettledRows(s, t.bills, paid) && SettledTotals(s, t.payments, paid)
    && SettledBooks(s.books, t.books, AllocAmount(paid))
  }

  /** A request that the service accepts from staff and that settles every bill it names. */
  ghost predicate Accepted(s: State, c: Caller, billIds: seq<nat>, allocs: seq<Alloc>, stated: Option<int>) {
    Inv(s) && c.role.Staff? && ManyError(s, c, billIds, allocs, stated).None? && SettlesAll(s, allocs)
  }

  lemma AppendNet(txns: seq<Txn>, t: Txn)
    ensures NetBalance(txns + [t]) == NetBalance(txns) + Signed(t)
  {
    assert (txns + [t])[..|txns|] == txns;
  }

  lemma BatchIsSettle(s: State, c: Caller, billIds: seq<nat>, allocs: seq<Alloc>, stated: Option<int>,
                      paidBy: PaymentMethod, at: int, p: Payment)
    requires Accepted(s, c, billIds, allocs, stated) && p == ManyPayment(c, allocs, paidBy, Approved)
    ensures Step(s, PayManyOp(c, billIds, allocs, stated, paidBy, at))
      == Settle(s, s.payments + [p], p, |s.payments|, None, at)
    ensures ValidPayment(p, |s.bills|)
  {
    ManyFits(s, c, billIds, allocs, stated, paidBy, Approved);
  }

  lemma BatchTotals(s: State, p: Payment, b: nat)
    requires WellFormed(s) && ValidPayment(p, |s.bills|) && p.allocs != [] && p.target.ToBill? && p.status == Approved
    ensures ShareTotal(s.payments + [p], b, Approved) == ShareTotal(s.payments, b, Approved) + AllocSum(p.allocs, b)
    ensures ShareTotal(s.payments + [p], b, Pending) == ShareTotal(s.payments, b, Pending)
    ensures Covers(p, b) == HasAlloc(p.allocs, b)
  {
    AppendShare(s.payments, p, b, Approved);
    AppendShare(s.payments, p, b, Pending);
    ShareSign(p, |s.bills|, b);
    AllocSumOf(p.allocs, b);
  }

  lemma BatchBill(s: State, p: Payment, b: nat)
    requires WellFormed(s) && DuesKnown(s) && ValidPayment(p, |s.bills|) && p.allocs != [] && p.target.ToBill?
    requires SettlesAll(s, p.allocs) && b < |s.bills|
    ensures SettledBills(s, p)[b] == if HasAlloc(p.allocs, b) then s.bills[b].(status := Paid) else s.bills[b]
  {
    ShareSign(p, |s.bills|, b);
    AllocSumOf(p.allocs, b);
    if HasAlloc(p.allocs, b) {
      var i :| 0 <= i < |p.allocs| && p.allocs[i].bill == b;
      assert ApprovedTotal(s, b) + Share(p, b) == s.bills[b].amount;
    }
  }

  lemma PostSettles(b: Books, p: Payment, id: nat, at: int)
    ensures SettledBooks(b, Post(b, IncomeOf(p, id, None, at)), p.amount)
  {
    AppendRow(b.txns, IncomeOf(p, id, None, at), 0);
    AppendNet(b.txns, IncomeOf(p, id, None, at));
  }

  /** The batch settles all of its allocations in one row. */
  lemma BatchSettles(s: State, p: Payment, at: int)
    requires WellFormed(s) && DuesKnown(s) && ValidPayment(p, |s.bills|) && p.allocs != [] && p.target.ToBill?
    requires SettlesAll(s, p.allocs) && p.status == Approved
    ensures Settled(s, Settle(s, s.payments + [p], p, |s.payments|, None, at), p.allocs)
  {
    assert SettledTotals(s, s.payments + [p], p.allocs) by {
      forall b: nat
        ensures ShareTotal(s.payments + [p], b, Approved) == ShareTotal(s.payments, b, Approved) + AllocSum(p.allocs, b)
        ensures ShareTotal(s.payments + [p], b, Pending) == ShareTotal(s.payments, b, Pending)
      {
        BatchTotals(s, p, b);
      }
    }
    assert SettledRows(s, SettledBills(s, p), p.allocs) by {
      forall b | 0 <= b < |s.bills|
        ensures SettledBills(s, p)[b] == if HasAlloc(p.allocs, b) then s.bills[b].(status := Paid) else s.bills[b]
      {
        BatchBill(s, p, b);
      }
    }
    PostSettles(s.books, p, |s.payments|, at);
  }

  // ----- One more single payment -----

  /** Staff may pay the whole remaining balance of a payable bill that heads its queue. */
  lemma PayableHead(t: State, c: Caller, b: nat)
    requires DuesKnown(t) && c.role.Staff? && b < |t.bills| && UniqueKeys(t.bills)
    requires BillError(t, b).None? && DueOf(t, b).isActive && !DueOf(t, b).isVoluntary && Remaining(t, Staff, b) > 0
    requires IsOldest(t, t.bills[b].occupancy, t.bills[b].due, b)
    ensures SinglePayError(t, c, b, Remaining(t, Staff, b)).None?
  {
    HeadIsOldest(t, t.bills[b].occupancy, t.bills[b].due, b);
  }

  /** The bill may still be paid, and the allocation is its whole remaining balance. */
  ghost predicate SettlesBill(s: State, a: Alloc)
    requires DuesKnown(s)
  {
    && a.bill < |s.bills| && BillError(s, a.bill).None? && DueOf(s, a.bill).isActive && !DueOf(s, a.bill).isVoluntary
    && a.amount == Remaining(s, Staff, a.bill) > 0
  }

  /** Allocations of different bills in period order that settle them and leave out no earlier bill still owing. */
  ghost predicate SettlesFront(s: State, sorted: seq<Alloc>)
    requires DuesKnown(s)
  {
    && DistinctBills(sorted)
    && (forall i :: 0 <= i < |sorted| ==> SettlesBill(s, sorted[i]))
    && (forall i, e: nat :: 0 <= i < |sorted| && FifoOrder.OwedBefore(s, e, sorted[i].bill) ==> HasAlloc(sorted, e))
    && (forall i, j :: 0 <= i < j < |sorted| ==> PeriodOf(s.bills, sorted[i].bill) <= PeriodOf(s.bills, sorted[j].bill))
  }

  lemma RequestedBill(s: State, c: Caller, billIds: seq<nat>, allocs: seq<Alloc>, stated: Option<int>, i: nat)
    requires Accepted(s, c, billIds, allocs, stated) && i < |allocs|
    ensures SettlesBill(s, allocs[i])
    ensures forall e: nat :: FifoOrder.OwedBefore(s, e, allocs[i].bill) ==> HasAlloc(allocs, e)
  {
    ManyChecks(s, c, billIds, allocs, stated, i);
    forall k | 0 <= k < |allocs|
      ensures s.bills[allocs[k].bill].occupancy == s.bills[allocs[0].bill].occupancy
    {
      ManyChecks(s, c, billIds, allocs, stated, k);
    }
    forall e: nat | FifoOrder.OwedBefore(s, e, allocs[i].bill)
      ensures HasAlloc(allocs, e)
    {
      FifoOrder.RequestIsClosed(s, allocs, s.bills[allocs[0].bill].occupancy, i, e);
    }
  }

  /** An accepted request, in period order, takes the front of each queue it touches. */
  lemma RequestSettlesFront(s: State, c: Caller, billIds: seq<nat>, allocs: seq<Alloc>, stated: Option<int>,
                            sorted: seq<Alloc>)
    requires Accepted(s, c, billIds, allocs, stated) && InPeriodOrder(s, allocs, sorted)
    ensures SettlesFront(s, sorted)
  {
    PermutedAllocs(allocs, sorted);
    forall i | 0 <= i < |sorted|
      ensures SettlesBill(s, sorted[i])
      ensures forall e: nat :: FifoOrder.OwedBefore(s, e, sorted[i].bill) ==> HasAlloc(sorted, e)
    {
      assert sorted[i] in multiset(allocs);
      var k :| 0 <= k < |allocs| && allocs[k] == sorted[i];
      RequestedBill(s, c, billIds, allocs, stated, k);
    }
  }

  /** The next bill in order is untouched so far, and as payable as it was at the start. */
  lemma NextIsPayable(s: State, t: State, sorted: seq<Alloc>, n: nat)
    requires DuesKnown(s) && SettlesFront(s, sorted) && n < |sorted| && DuesKnown(t) && Settled(s, t, sorted[..n])
    ensures SettlesBill(t, sorted[n]) && t.bills[sorted[n].bill] == s.bills[sorted[n].bill]
  {
    assert SettlesBill(s, sorted[n]);
    NotYetPaid(sorted, n);
  }

  /** After the first `n` single payments the next allocation still settles its bill's queue head. */
  lemma NextIsAccepted(s: State, t: State, c: Caller, sorted: seq<Alloc>, n: nat)
    requires DuesKnown(s) && c.role.Staff? && SettlesFront(s, sorted) && n < |sorted|
    requires DuesKnown(t) && UniqueKeys(t.bills) && BillsAgree(t) && Settled(s, t, sorted[..n])
    ensures SettlesBill(t, sorted[n]) && SinglePayError(t, c, sorted[n].bill, sorted[n].amount).None?
  {
    var b := sorted[n].bill;
    NextIsPayable(s, t, sorted, n);
    forall e: nat | Eligible(t, e, t.bills[b].occupancy, t.bills[b].due)
      ensures t.bills[b].period <= t.bills[e].period
    {
      NoneEarlier(s, t, sorted, n, e);
    }
    PayableHead(t, c, b);
  }

  lemma NotYetPaid(sorted: seq<Alloc>, n: nat)
    requires DistinctBills(sorted) && n < |sorted|
    ensures !HasAlloc(sorted[..n], sorted[n].bill) && AllocSum(sorted[..n], sorted[n].bill) == 0
  {
    AllocSumOf(sorted[..n], sorted[n].bill);
  }

  /** A bill that still owes was not settled, and owed from the start. */
  lemma StillOwing(s: State, t: State, paid: seq<Alloc>, e: nat, occupancy: nat, due: nat)
    requires DuesKnown(t) && BillsAgree(t) && Settled(s, t, paid) && DistinctBills(paid)
    requires due < |t.dues| && !t.dues[due].isVoluntary && Eligible(t, e, occupancy, due)
    ensures !HasAlloc(paid, e) && Eligible(s, e, occupancy, due)
  {
    assert BillAgrees(t, e);
    AllocSumOf(paid, e);
  }

  /** In period order, a bill named by the request but not among its first `n` is not earlier than the next one. */
  lemma LaterInOrder(s: State, sorted: seq<Alloc>, n: nat, e: nat)
    requires DuesKnown(s) && SettlesFront(s, sorted) && n < |sorted| && HasAlloc(sorted, e) && !HasAlloc(sorted[..n], e)
    ensures PeriodOf(s.bills, sorted[n].bill) <= PeriodOf(s.bills, e)
  {
    assert forall k :: 0 <= k < n ==> sorted[..n][k] == sorted[k];
    var k :| 0 <= k < |sorted| && sorted[k].bill == e;
  }

  /** A bill that still owes is not an earlier one of the same household and due: those were all in the request. */
  lemma NoneEarlier(s: State, t: State, sorted: seq<Alloc>, n: nat, e: nat)
    requires DuesKnown(s) && SettlesFront(s, sorted) && n < |sorted|
    requires DuesKnown(t) && BillsAgree(t) && Settled(s, t, sorted[..n])
    requires var b := sorted[n].bill; Eligible(t, e, s.bills[b].occupancy, s.bills[b].due)
    ensures PeriodOf(s.bills, sorted[n].bill) <= PeriodOf(s.bills, e)
  {
    var b := sorted[n].bill;
    assert SettlesBill(s, sorted[n]);
    StillOwing(s, t, sorted[..n], e, s.bills[b].occupancy, s.bills[b].due);
    if s.bills[e].period < s.bills[b].period {
      assert FifoOrder.OwedBefore(s, e, b);
      LaterInOrder(s, sorted, n, e);
    }
  }

  lemma AppendAlloc(paid: seq<Alloc>, a: Alloc, b: nat)
    ensures HasAlloc(paid + [a], b) == (HasAlloc(paid, b) || a.bill == b)
    ensures AllocSum(paid + [a], b) == AllocSum(paid, b) + if a.bill == b then a.amount else 0
    ensures AllocAmount(paid + [a]) == AllocAmount(paid) + a.amount
  {
    assert (paid + [a])[..|paid|] == paid;
    assert (paid + [a])[|paid|] == a;
    assert forall i :: 0 <= i < |paid| ==> (paid + [a])[i] == paid[i];
  }

  /** A single staff payment of a remaining balance settles one more allocation. */
  lemma SingleSettles(s: State, t: State, paid: seq<Alloc>, a: Alloc, p: Payment, at: int, next: State,
                      more: seq<Alloc>)
    requires DuesKnown(t) && Settled(s, t, paid) && SettlesBill(t, a)
    requires p == Payment(ToBill(a.bill), a.amount, p.paidBy, Approved, p.submittedBy, [])
    requires next == Settle(t, t.payments + [p], p, |t.payments|, None, at) && more == paid + [a]
    ensures Settled(s, next, more) && |next.payments| == |t.payments| + 1
  {
    forall b: nat
      ensures HasAlloc(paid + [a], b) == (HasAlloc(paid, b) || a.bill == b)
      ensures AllocSum(paid + [a], b) == AllocSum(paid, b) + if a.bill == b then a.amount else 0
    {
      AppendAlloc(paid, a, b);
    }
    assert SettledTotals(s, t.payments + [p], paid + [a]) by {
      forall b: nat
        ensures ShareTotal(t.payments + [p], b, Approved) == ShareTotal(t.payments, b, Approved) + Share(p, b)
        ensures ShareTotal(t.payments + [p], b, Pending) == ShareTotal(t.payments, b, Pending)
      {
        AppendShare(t.payments, p, b, Approved);
        AppendShare(t.payments, p, b, Pending);
      }
    }
    assert SettledRows(s, SettledBills(t, p), paid + [a]);
    AppendAlloc(paid, a, 0);
    PostSettles(t.books, p, |t.payments|, at);
  }

  /** Consecutive states in which the allocations are paid one by one. */
  predicate PayingEach(states: seq<State>, c: Caller, allocs: seq<Alloc>, paidBy: PaymentMethod, at: int) {
    && |states| == |allocs| + 1
    && forall i {:trigger allocs[i]} :: 0 <= i < |allocs| ==>
         DuesKnown(states[i]) && states[i + 1] == Step(states[i], PayOp(c, allocs[i].bill, allocs[i].amount, paidBy, at))
  }

  lemma SingleIsSettle(t: State, c: Caller, a: Alloc, op: Op, paidBy: PaymentMethod, at: int, p: Payment, next: State)
    requires DuesKnown(t) && c.role.Staff? && SinglePayError(t, c, a.bill, a.amount).None?
    requires p == Payment(ToBill(a.bill), a.amount, paidBy, Approved, c.user, [])
    requires op == PayOp(c, a.bill, a.amount, paidBy, at) && next == Step(t, op)
    ensures next == Settle(t, t.payments + [p], p, |t.payments|, None, at)
  {
  }

  lemma NextIsSettle(s: State, t: State, c: Caller, sorted: seq<Alloc>, n: nat, op: Op, paidBy: PaymentMethod, at: int,
                     p: Payment, next: State)
    requires DuesKnown(s) && c.role.Staff? && SettlesFront(s, sorted) && n < |sorted|
    requires DuesKnown(t) && UniqueKeys(t.bills) && BillsAgree(t) && Settled(s, t, sorted[..n])
    requires op == PayOp(c, sorted[n].bill, sorted[n].amount, paidBy, at) && next == Step(t, op)
    requires p == Payment(ToBill(sorted[n].bill), sorted[n].amount, paidBy, Approved, c.user, [])
    ensures SettlesBill(t, sorted[n]) && next == Settle(t, t.payments + [p], p, |t.payments|, None, at)
  {
    NextIsAccepted(s, t, c, sorted, n);
    SingleIsSettle(t, c, sorted[n], op, paidBy, at, p, next);
  }

  lemma NextSettles(s: State, t: State, c: Caller, sorted: seq<Alloc>, n: nat, op: Op, paidBy: PaymentMethod, at: int,
                    next: State)
    requires DuesKnown(s) && c.role.Staff? && SettlesFront(s, sorted) && n < |sorted|
    requires DuesKnown(t) && UniqueKeys(t.bills) && BillsAgree(t) && Settled(s, t, sorted[..n])
    requires op == PayOp(c, sorted[n].bill, sorted[n].amount, paidBy, at) && next == Step(t, op)
    ensures Settled(s, next, sorted[..n + 1]) && |next.payments| == |t.payments| + 1
  {
    var p := Payment(ToBill(sorted[n].bill), sorted[n].amount, paidBy, Approved, c.user, []);
    NextIsSettle(s, t, c, sorted, n, op, paidBy, at, p, next);
    SingleSettles(s, t, sorted[..n], sorted[n], p, at, next, sorted[..n + 1]);
  }

  lemma NothingSettled(s: State, paid: seq<Alloc>)
    requires paid == []
    ensures Settled(s, s, paid)
  {
  }

  /** If exactly the first `n` allocations are settled in state `n`, the next state settles one more, in one more
      row. */
  ghost predicate Advances(states: seq<State>, sorted: seq<Alloc>, n: nat)
    requires n < |sorted| < |states|
  {
    var s, t, next := states[0], states[n], states[n + 1];
    Inv(t) && Settled(s, t, sorted[..n]) ==>
      Inv(next) && Settled(s, next, sorted[..n + 1]) && |next.payments| == |t.payments| + 1
  }

  lemma NextAdvances(states: seq<State>, c: Caller, sorted: seq<Alloc>, n: nat, op: Op, paidBy: PaymentMethod, at: int)
    requires n < |sorted| < |states| && DuesKnown(states[0]) && c.role.Staff? && SettlesFront(states[0], sorted)
    requires op == PayOp(c, sorted[n].bill, sorted[n].amount, paidBy, at)
    requires DuesKnown(states[n]) && states[n + 1] == Step(states[n], op)
    ensures Advances(states, sorted, n)
  {
    if Inv(states[n]) && Settled(states[0], states[n], sorted[..n]) {
      StepKeeps(states[n], op);
      NextSettles(states[0], states[n], c, sorted, n, op, paidBy, at, states[n + 1]);
    }
  }

  lemma {:induction false} AdvancesAlong(states: seq<State>, sorted: seq<Alloc>, n: nat)
    requires |states| == |sorted| + 1 && n <= |sorted| && Inv(states[0])
    requires forall k :: 0 <= k < |sorted| ==> Advances(states, sorted, k)
    ensures Inv(states[n]) && Settled(states[0], states[n], sorted[..n])
    ensures |states[n].payments| == |states[0].payments| + n
    decreases n
  {
    if n == 0 {
      NothingSettled(states[0], sorted[..0]);
    } else {
      AdvancesAlong(states, sorted, n - 1);
      assert Advances(states, sorted, n - 1);
    }
  }

  /** None of the single payments is refused, and after `n` of them exactly the first `n` allocations are settled. */
  lemma SinglesSettle(states: seq<State>, c: Caller, sorted: seq<Alloc>, n: nat, paidBy: PaymentMethod, at: int)
    requires PayingEach(states, c, sorted, paidBy, at) && n <= |sorted|
    requires Inv(states[0]) && c.role.Staff? && SettlesFront(states[0], sorted)
    ensures Inv(states[n]) && Settled(states[0], states[n], sorted[..n])
    ensures |states[n].payments| == |states[0].payments| + n
  {
    forall k | 0 <= k < |sorted|
      ensures Advances(states, sorted, k)
    {
      NextAdvances(states, c, sorted, k, PayOp(c, sorted[k].bill, sorted[k].amount, paidBy, at), paidBy, at);
    }
    AdvancesAlong(states, sorted, n);
  }

  /** Two states that differ only in how many rows the same money was recorded in. */
  ghost predicate SameEffect(t: State, u: State) {
    && t.dues == u.dues && t.bills == u.bills
    && (forall b: nat :: ApprovedTotal(t, b) == ApprovedTotal(u, b) && PendingTotal(t, b) == PendingTotal(u, b))
    && LinkedNet(t.books.txns) == LinkedNet(u.books.txns) && NetBalance(t.books.txns) == NetBalance(u.books.txns)
    && t.books.(txns := u.books.txns) == u.books
  }

  /** The statuses, totals and ledger after settling the same allocations in another order are the same. */
  lemma SettledAlike(s: State, t: State, u: State, a: seq<Alloc>, b: seq<Alloc>)
    requires Settled(s, t, a) && Settled(s, u, b) && multiset(a) == multiset(b) && DistinctBills(a)
    ensures SameEffect(t, u)
  {
    PermutedAllocs(a, b);
    AmountOfPermutation(a, b);
  }

  /** The batch settles all of its allocations, in one row. */
  lemma BatchEffect(s: State, c: Caller, billIds: seq<nat>, allocs: seq<Alloc>, stated: Option<int>,
                    paidBy: PaymentMethod, at: int, batch: State)
    requires Accepted(s, c, billIds, allocs, stated)
    requires batch == Step(s, PayManyOp(c, billIds, allocs, stated, paidBy, at))
    ensures Settled(s, batch, allocs) && |batch.payments| == |s.payments| + 1 && DistinctBills(allocs)
  {
    var p := ManyPayment(c, allocs, paidBy, Approved);
    BatchIsSettle(s, c, billIds, allocs, stated, paidBy, at, p);
    BatchSettles(s, p, at);
  }

  /** A staff payment that settles several bills leaves the same bills, totals and ledger as paying
      each of them singly in period order; it only records the money in one payment and one row. */
  lemma BatchEqualsSequence(states: seq<State>, c: Caller, billIds: seq<nat>, allocs: seq<Alloc>, stated: Option<int>,
                            sorted: seq<Alloc>, paidBy: PaymentMethod, at: int)
    requires PayingEach(states, c, sorted, paidBy, at)
    requires Accepted(states[0], c, billIds, allocs, stated) && InPeriodOrder(states[0], allocs, sorted)
    ensures var batch := Step(states[0], PayManyOp(c, billIds, allocs, stated, paidBy, at));
      && SameEffect(batch, states[|sorted|])
      && |batch.payments| == |states[0].payments| + 1
      && |states[|sorted|].payments| == |states[0].payments| + |allocs|
  {
    var s := states[0];
    var batch := Step(s, PayManyOp(c, billIds, allocs, stated, paidBy, at));
    BatchEffect(s, c, billIds, allocs, stated, paidBy, at, batch);
    RequestSettlesFront(s, c, billIds, allocs, stated, sorted);
    SinglesSettle(states, c, sorted, |sorted|, paidBy, at);
    assert sorted[..|sorted|] == sorted;
    assert |sorted| == |multiset(sorted)| == |multiset(allocs)| == |allocs|;
    SettledAlike(s, batch, states[|sorted|], allocs, sorted);
  }
}
