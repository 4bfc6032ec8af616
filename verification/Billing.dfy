/** Dues, bills and payments, and the queries the payment engine runs over them. A row's id is its position. */
module Billing {
  import opened Results
  import opened Ledger

  datatype DueType = Regular | Voluntary | MultiMonth

  datatype PaymentRule = Full | Partially

  datatype Due = Due(
    dueType: DueType,
    isVoluntary: bool,
    rule: PaymentRule,
    isActive: bool,
    amount: int,
    year: Option<nat>,
    validUntil: Option<int>)

  datatype BillStatus = Unpaid | Partial | Paid | Cancelled

  datatype Bill = Bill(
    occupancy: nat,
    due: nat,
    amount: int,
    period: nat,
    dueDate: nat,
    status: BillStatus,
    isActive: bool,
    isObligatory: bool)

  datatype PaymentStatus = Pending | Approved | Rejected | Reversed

  /** The part of a multi-period payment that goes to one bill. */
  datatype Alloc = Alloc(bill: nat, amount: int)

  /** A payment names either a bill or, as a donation, a due. */
  datatype Target = ToBill(bill: nat) | ToDue(due: nat)

  datatype PaymentMethod = CashMethod | BankMethod

  datatype Payment = Payment(
    target: Target,
    amount: int,
    paidBy: PaymentMethod,
    status: PaymentStatus,
    submittedBy: nat,
    allocs: seq<Alloc>)

  datatype State = State(dues: seq<Due>, bills: seq<Bill>, payments: seq<Payment>, books: Books)

  // ----- Allocations -----

  function AllocSum(allocs: seq<Alloc>, bill: nat): int {
    if allocs == [] then 0
    else
      var last := allocs[|allocs| - 1];
      AllocSum(allocs[..|allocs| - 1], bill) + if last.bill == bill then last.amount else 0
  }

  function AllocAmount(allocs: seq<Alloc>): int {
    if allocs == [] then 0 else AllocAmount(allocs[..|allocs| - 1]) + allocs[|allocs| - 1].amount
  }

  predicate HasAlloc(allocs: seq<Alloc>, bill: nat) {
    exists i :: 0 <= i < |allocs| && allocs[i].bill == bill
  }

  predicate DistinctBills(allocs: seq<Alloc>) {
    forall i, j :: 0 <= i < j < |allocs| ==> allocs[i].bill != allocs[j].bill
  }

  /** A bill's allocations sum to its own entry. */
  lemma {:induction false} AllocSumOf(allocs: seq<Alloc>, bill: nat)
    requires DistinctBills(allocs)
    ensures forall i :: 0 <= i < |allocs| && allocs[i].bill == bill ==> AllocSum(allocs, bill) == allocs[i].amount
    ensures !HasAlloc(allocs, bill) ==> AllocSum(allocs, bill) == 0
  {
    if allocs != [] {
      var init := allocs[..|allocs| - 1];
      AllocSumOf(init, bill);
      assert HasAlloc(init, bill) ==> HasAlloc(allocs, bill);
      if allocs[|allocs| - 1].bill == bill {
        assert !HasAlloc(init, bill);
        assert HasAlloc(allocs, bill);
      } else {
        assert forall i :: 0 <= i < |init| ==> init[i] == allocs[i];
      }
    }
  }

  // ----- Payment totals of a bill -----

  /** Payments that name the bill and have no allocation for it. */
  function DirectTotal(payments: seq<Payment>, bill: nat, status: PaymentStatus): int {
    if payments == [] then 0
    else
      var p := payments[|payments| - 1];
      DirectTotal(payments[..|payments| - 1], bill, status)
      + if p.target == ToBill(bill) && p.status == status && !HasAlloc(p.allocs, bill) then p.amount else 0
  }

  /** Allocations to the bill of payments in the status. */
  function AllocTotal(payments: seq<Payment>, bill: nat, status: PaymentStatus): int {
    if payments == [] then 0
    else
      var p := payments[|payments| - 1];
      AllocTotal(payments[..|payments| - 1], bill, status)
      + if p.status == status then AllocSum(p.allocs, bill) else 0
  }

  predicate Covers(p: Payment, bill: nat) {
    HasAlloc(p.allocs, bill) || p.target == ToBill(bill)
  }

  /** What one payment brings to one bill. */
  function Share(p: Payment, bill: nat): int {
    if HasAlloc(p.allocs, bill) then AllocSum(p.allocs, bill)
    else if p.target == ToBill(bill) then p.amount
    else 0
  }

  /** The list view's sum over payments left-joined with their allocations: `COALESCE(pa.amount, p.amount)`. */
  function ShareTotal(payments: seq<Payment>, bill: nat, status: PaymentStatus): int {
    if payments == [] then 0
    else
      var p := payments[|payments| - 1];
      ShareTotal(payments[..|payments| - 1], bill, status)
      + if p.status == status && Covers(p, bill) then Share(p, bill) else 0
  }

  lemma {:induction false} NoAllocNoSum(allocs: seq<Alloc>, bill: nat)
    requires !HasAlloc(allocs, bill)
    ensures AllocSum(allocs, bill) == 0
  {
    if allocs != [] {
      var init := allocs[..|allocs| - 1];
      assert HasAlloc(init, bill) ==> HasAlloc(allocs, bill);
      NoAllocNoSum(init, bill);
    }
  }

  /** The union of the two paths counts every payment exactly as the list view's join does. */
  lemma {:induction false} TwoPathsAgree(payments: seq<Payment>, bill: nat, status: PaymentStatus)
    ensures DirectTotal(payments, bill, status) + AllocTotal(payments, bill, status) == ShareTotal(payments, bill, status)
  {
    if payments != [] {
      TwoPathsAgree(payments[..|payments| - 1], bill, status);
      var p := payments[|payments| - 1];
      if !HasAlloc(p.allocs, bill) {
        NoAllocNoSum(p.allocs, bill);
      }
    }
  }

  /** `GetApprovedPaymentTotal` and `GetPendingPaymentTotal`. */
  function PaymentTotal(payments: seq<Payment>, bill: nat, status: PaymentStatus): (total: int)
    ensures total == ShareTotal(payments, bill, status)
  {
    TwoPathsAgree(payments, bill, status);
    DirectTotal(payments, bill, status) + AllocTotal(payments, bill, status)
  }

  /** `GetApprovedPaymentCount`: payments in the status that reach the bill on either path. */
  function PaymentCount(payments: seq<Payment>, bill: nat, status: PaymentStatus): nat {
    if payments == [] then 0
    else
      var p := payments[|payments| - 1];
      PaymentCount(payments[..|payments| - 1], bill, status) + if p.status == status && Covers(p, bill) then 1 else 0
  }

  lemma {:induction false} AppendShare(payments: seq<Payment>, p: Payment, bill: nat, status: PaymentStatus)
    ensures ShareTotal(payments + [p], bill, status)
      == ShareTotal(payments, bill, status) + if p.status == status then Share(p, bill) else 0
  {
    assert (payments + [p])[..|payments|] == payments;
  }

  lemma {:induction false} UpdateShare(payments: seq<Payment>, i: nat, p: Payment, bill: nat, status: PaymentStatus)
    requires i < |payments|
    ensures ShareTotal(payments[i := p], bill, status)
      == ShareTotal(payments, bill, status)
         - (if payments[i].status == status then Share(payments[i], bill) else 0)
         + (if p.status == status then Share(p, bill) else 0)
  {
    var n := |payments| - 1;
    if i < n {
      UpdateShare(payments[..n], i, p, bill, status);
      assert payments[i := p][..n] == payments[..n][i := p];
    } else {
      assert payments[i := p][..n] == payments[..n];
    }
  }

  // ----- Well-formed rows -----

  predicate ValidPayment(p: Payment, bills: nat) {
    && p.amount > 0
    && match p.target
       case ToDue(_) => p.allocs == []
       case ToBill(b) =>
         && b < bills
         && (p.allocs != [] ==>
               && p.allocs[0].bill == b && DistinctBills(p.allocs) && AllocAmount(p.allocs) == p.amount
               && forall i :: 0 <= i < |p.allocs| ==> p.allocs[i].bill < bills && p.allocs[i].amount > 0)
  }

  /** `UNIQUE (household_occupancy_id, due_id, period)`. */
  ghost predicate UniqueKeys(bills: seq<Bill>) {
    forall i, j :: 0 <= i < j < |bills| ==>
      bills[i].occupancy != bills[j].occupancy || bills[i].due != bills[j].due || bills[i].period != bills[j].period
  }

  /** What the tables' constraints and the way payments are written guarantee of every row. */
  ghost predicate WellFormed(s: State) {
    && UniqueKeys(s.bills)
    && (forall b :: 0 <= b < |s.bills| ==> s.bills[b].due < |s.dues| && s.bills[b].amount >= 0)
    && (forall i :: 0 <= i < |s.payments| ==> ValidPayment(s.payments[i], |s.bills|))
  }

  lemma ShareSign(p: Payment, bills: nat, bill: nat)
    requires ValidPayment(p, bills)
    ensures Share(p, bill) >= 0
    ensures Share(p, bill) > 0 <==> Covers(p, bill)
    ensures p.target.ToBill? && p.allocs != [] ==> (Covers(p, bill) <==> HasAlloc(p.allocs, bill))
  {
    if p.allocs != [] {
      AllocSumOf(p.allocs, bill);
      assert HasAlloc(p.allocs, p.allocs[0].bill);
    }
  }

  lemma {:induction false} ShareTotalSign(payments: seq<Payment>, bills: nat, bill: nat, status: PaymentStatus)
    requires forall i :: 0 <= i < |payments| ==> ValidPayment(payments[i], bills)
    ensures ShareTotal(payments, bill, status) >= 0
    ensures ShareTotal(payments, bill, status) > 0 <==> PaymentCount(payments, bill, status) > 0
    ensures forall i :: 0 <= i < |payments| && payments[i].status == status ==>
      ShareTotal(payments, bill, status) >= Share(payments[i], bill)
  {
    if payments != [] {
      var init := payments[..|payments| - 1];
      assert forall i :: 0 <= i < |init| ==> init[i] == payments[i];
      ShareTotalSign(init, bills, bill, status);
      ShareSign(payments[|payments| - 1], bills, bill);
    }
  }

  function ApprovedTotal(s: State, bill: nat): int {
    PaymentTotal(s.payments, bill, Approved)
  }

  function PendingTotal(s: State, bill: nat): int {
    PaymentTotal(s.payments, bill, Pending)
  }

  function DueOf(s: State, bill: nat): Due
    requires bill < |s.bills| && s.bills[bill].due < |s.dues|
  {
    s.dues[s.bills[bill].due]
  }

  /** The status `reconcileBillStatus` computes for a bill that is not cancelled. */
  function ComputedStatus(approved: int, amount: int): BillStatus {
    if approved >= amount && amount > 0 then Paid
    else if approved > 0 then Partial
    else Unpaid
  }

  // ----- The queue of unpaid bills -----

  /** Not cancelled, active, obligatory, and with a balance left. */
  predicate Eligible(s: State, b: nat, occupancy: nat, due: nat) {
    && b < |s.bills|
    && s.bills[b].occupancy == occupancy && s.bills[b].due == due
    && s.bills[b].status != Cancelled && s.bills[b].isActive && s.bills[b].isObligatory
    && ApprovedTotal(s, b) < s.bills[b].amount
  }

  function EligibleIds(s: State, occupancy: nat, due: nat, n: nat): seq<nat> {
    if n == 0 then []
    else if Eligible(s, n - 1, occupancy, due) then EligibleIds(s, occupancy, due, n - 1) + [n - 1]
    else EligibleIds(s, occupancy, due, n - 1)
  }

  lemma {:induction false} EligibleIdsMembers(s: State, occupancy: nat, due: nat, n: nat)
    ensures var ids := EligibleIds(s, occupancy, due, n);
      && (forall b: nat :: b in ids <==> b < n && Eligible(s, b, occupancy, due))
      && (forall i :: 0 <= i < |ids| ==> ids[i] < n && Eligible(s, ids[i], occupancy, due))
      && (forall i, j :: 0 <= i < j < |ids| ==> ids[i] < ids[j])
  {
    if n > 0 {
      EligibleIdsMembers(s, occupancy, due, n - 1);
    }
  }

  function PeriodOf(bills: seq<Bill>, id: nat): nat {
    if id < |bills| then bills[id].period else 0
  }

  ghost predicate PeriodsRise(bills: seq<Bill>, ids: seq<nat>) {
    forall i, j :: 0 <= i < j < |ids| ==> PeriodOf(bills, ids[i]) < PeriodOf(bills, ids[j])
  }

  /** Insert before the first bill of a later period. */
  function Insert(bills: seq<Bill>, sorted: seq<nat>, id: nat): seq<nat> {
    if sorted == [] then [id]
    else if PeriodOf(bills, id) < PeriodOf(bills, sorted[0]) then [id] + sorted
    else [sorted[0]] + Insert(bills, sorted[1..], id)
  }

  /** `ORDER BY period ASC`. */
  function SortByPeriod(bills: seq<Bill>, ids: seq<nat>): seq<nat> {
    if ids == [] then [] else Insert(bills, SortByPeriod(bills, ids[..|ids| - 1]), ids[|ids| - 1])
  }

  lemma {:induction false} InsertMembers(bills: seq<Bill>, sorted: seq<nat>, id: nat)
    ensures multiset(Insert(bills, sorted, id)) == multiset(sorted) + multiset{id}
    ensures forall b: nat :: b in Insert(bills, sorted, id) <==> b in sorted || b == id
  {
    if sorted != [] {
      assert sorted == [sorted[0]] + sorted[1..];
      if PeriodOf(bills, id) >= PeriodOf(bills, sorted[0]) {
        InsertMembers(bills, sorted[1..], id);
      }
    }
  }

  /** Sorting keeps every bill, as often as it was there. */
  lemma {:induction false} SortMembers(bills: seq<Bill>, ids: seq<nat>)
    ensures multiset(SortByPeriod(bills, ids)) == multiset(ids)
    ensures forall b: nat :: b in SortByPeriod(bills, ids) <==> b in ids
  {
    if ids != [] {
      var init := ids[..|ids| - 1];
      assert ids == init + [ids[|ids| - 1]];
      SortMembers(bills, init);
      InsertMembers(bills, SortByPeriod(bills, init), ids[|ids| - 1]);
    }
  }

  /** No two of these bills share a period. */
  ghost predicate DistinctPeriods(bills: seq<Bill>, ids: seq<nat>) {
    forall i, j :: 0 <= i < j < |ids| ==> PeriodOf(bills, ids[i]) != PeriodOf(bills, ids[j])
  }

  lemma PrependRises(bills: seq<Bill>, head: nat, rest: seq<nat>)
    requires PeriodsRise(bills, rest)
    requires forall i :: 0 <= i < |rest| ==> PeriodOf(bills, head) < PeriodOf(bills, rest[i])
    ensures PeriodsRise(bills, [head] + rest)
  {
  }

  lemma {:induction false} InsertRises(bills: seq<Bill>, sorted: seq<nat>, id: nat)
    requires PeriodsRise(bills, sorted)
    requires forall i :: 0 <= i < |sorted| ==> PeriodOf(bills, sorted[i]) != PeriodOf(bills, id)
    ensures PeriodsRise(bills, Insert(bills, sorted, id))
  {
    if sorted != [] {
      if PeriodOf(bills, id) < PeriodOf(bills, sorted[0]) {
        PrependRises(bills, id, sorted);
      } else {
        var rest := Insert(bills, sorted[1..], id);
        InsertRises(bills, sorted[1..], id);
        InsertMembers(bills, sorted[1..], id);
        forall i | 0 <= i < |rest|
          ensures PeriodOf(bills, sorted[0]) < PeriodOf(bills, rest[i])
        {
          assert rest[i] in rest;
        }
        PrependRises(bills, sorted[0], rest);
      }
    }
  }

  lemma {:induction false} SortRises(bills: seq<Bill>, ids: seq<nat>)
    requires DistinctPeriods(bills, ids)
    ensures PeriodsRise(bills, SortByPeriod(bills, ids))
  {
    if ids != [] {
      var init := ids[..|ids| - 1];
      SortRises(bills, init);
      SortMembers(bills, init);
      var sorted := SortByPeriod(bills, init);
      forall i | 0 <= i < |sorted|
        ensures PeriodOf(bills, sorted[i]) != PeriodOf(bills, ids[|ids| - 1])
      {
        assert sorted[i] in sorted;
        assert sorted[i] in init;
      }
      InsertRises(bills, sorted, ids[|ids| - 1]);
    }
  }

  /** `GetOldestUnpaidBillIDs` without its limit. */
  function Queue(s: State, occupancy: nat, due: nat): seq<nat> {
    SortByPeriod(s.bills, EligibleIds(s, occupancy, due, |s.bills|))
  }

  /** The queue holds exactly the eligible bills. */
  lemma QueueMembers(s: State, occupancy: nat, due: nat)
    ensures forall b: nat :: b in Queue(s, occupancy, due) <==> Eligible(s, b, occupancy, due)
  {
    EligibleIdsMembers(s, occupancy, due, |s.bills|);
    SortMembers(s.bills, EligibleIds(s, occupancy, due, |s.bills|));
  }

  /** The queue is in strict period order, without repetition. */
  lemma QueueRises(s: State, occupancy: nat, due: nat)
    requires UniqueKeys(s.bills)
    ensures PeriodsRise(s.bills, Queue(s, occupancy, due))
  {
    EligibleIdsMembers(s, occupancy, due, |s.bills|);
    SortRises(s.bills, EligibleIds(s, occupancy, due, |s.bills|));
  }

  /** `b` is the eligible bill of the earliest period. */
  ghost predicate IsOldest(s: State, occupancy: nat, due: nat, b: nat) {
    && Eligible(s, b, occupancy, due)
    && forall c: nat :: Eligible(s, c, occupancy, due) ==> s.bills[b].period <= s.bills[c].period
  }

  /** The head of the queue is the oldest eligible bill, and there is one unless no bill is eligible. */
  lemma HeadIsOldest(s: State, occupancy: nat, due: nat, b: nat)
    requires UniqueKeys(s.bills)
    ensures var q := Queue(s, occupancy, due); (q != [] && q[0] == b) <==> IsOldest(s, occupancy, due, b)
  {
    var q := Queue(s, occupancy, due);
    QueueRises(s, occupancy, due);
    QueueMembers(s, occupancy, due);
    if q != [] && q[0] == b {
      assert b in q;
      forall c: nat | Eligible(s, c, occupancy, due)
        ensures s.bills[b].period <= s.bills[c].period
      {
        assert c in q;
      }
    }
    if IsOldest(s, occupancy, due, b) {
      assert b in q;
      assert q[0] in q;
    }
  }

  /** `group` holds bills of `q`, and with each of them every earlier bill of `q`. */
  ghost predicate ClosedIn(bills: seq<Bill>, group: seq<nat>, q: seq<nat>) {
    && (forall b :: b in group ==> b in q)
    && (forall b, c :: b in group && c in q && PeriodOf(bills, c) < PeriodOf(bills, b) ==> c in group)
  }

  /** A rising sequence is the front of another exactly when it is closed under earlier members of that other. */
  lemma PrefixMeansClosed(bills: seq<Bill>, group: seq<nat>, q: seq<nat>)
    requires PeriodsRise(bills, group) && PeriodsRise(bills, q)
    ensures group <= q <==> ClosedIn(bills, group, q)
  {
    if group <= q {
      forall b, c | b in group && c in q && PeriodOf(bills, c) < PeriodOf(bills, b)
        ensures c in group
      {
        var i :| 0 <= i < |group| && group[i] == b;
        var j :| 0 <= j < |q| && q[j] == c;
        assert group[i] == q[i];
        assert j < i;
        assert group[j] == q[j];
      }
      forall b | b in group
        ensures b in q
      {
        var i :| 0 <= i < |group| && group[i] == b;
        assert group[i] == q[i];
      }
    }
    if ClosedIn(bills, group, q) {
      ClosedIsPrefix(bills, group, q, |group|);
      assert group == q[..|group|];
    }
  }

  lemma {:induction false} ClosedIsPrefix(bills: seq<Bill>, group: seq<nat>, q: seq<nat>, n: nat)
    requires n <= |group| && PeriodsRise(bills, group) && PeriodsRise(bills, q) && ClosedIn(bills, group, q)
    ensures n <= |q| && forall k :: 0 <= k < n ==> group[k] == q[k]
  {
    if n > 0 {
      ClosedIsPrefix(bills, group, q, n - 1);
      assert group[n - 1] in group;
      var j :| 0 <= j < |q| && q[j] == group[n - 1];
      assert n - 1 < j ==> q[n - 1] in q;
      forall k | 0 <= k < |group| && n - 1 < j
        ensures group[k] != q[n - 1]
      {
        assert k < n - 1 ==> group[k] == q[k];
      }
    }
  }
}
