/** Bills of a due that requires full payment are paid whole, once, and oldest first. */
module FifoOrder {
  import opened Results
  import opened Ledger
  import opened FundLocation
  import opened Billing
  import opened Payments
  import opened PaymentInvariants

  /** A bill of a non-voluntary due with the rule "full". */
  predicate Strict(s: State, b: nat)
    requires DuesKnown(s)
  {
    b < |s.bills| && !DueOf(s, b).isVoluntary && DueOf(s, b).rule.Full?
  }

  predicate Group(s: State, b: nat, c: nat) {
    b < |s.bills| && c < |s.bills|
      && s.bills[b].occupancy == s.bills[c].occupancy && s.bills[b].due == s.bills[c].due
  }

  /** `c` is an eligible bill of the same household and due as `b`, for an earlier period. */
  predicate OwedBefore(s: State, c: nat, b: nat) {
    && Group(s, b, c) && s.bills[c].period < s.bills[b].period
    && Eligible(s, c, s.bills[c].occupancy, s.bills[c].due)
  }

  /** Approved and pending money on the bill is nothing or the whole of it, from at most one payment each. */
  ghost predicate Whole(s: State, b: nat)
    requires DuesKnown(s)
  {
    Strict(s, b) ==>
      && ApprovedTotal(s, b) in {0, s.bills[b].amount} && PaymentCount(s.payments, b, Approved) <= 1
      && PendingTotal(s, b) in {0, s.bills[b].amount} && PaymentCount(s.payments, b, Pending) <= 1
  }

  /** What is approved on the bill leaves no earlier bill owing. */
  ghost predicate PaidInOrder(s: State, b: nat)
    requires DuesKnown(s)
  {
    Strict(s, b) && ApprovedTotal(s, b) > 0 ==> forall c: nat :: !OwedBefore(s, c, b)
  }

  /** With each bill, the payment covers every earlier bill that is still owing, and it covers bills whole. */
  ghost predicate TakesFront(s: State, p: Payment)
    requires DuesKnown(s)
  {
    forall b: nat :: Strict(s, b) && Covers(p, b) ==>
      && Share(p, b) == s.bills[b].amount
      && forall c: nat :: OwedBefore(s, c, b) ==> Covers(p, c)
  }

  ghost predicate Ordered(s: State)
    requires DuesKnown(s)
  {
    && (forall b :: 0 <= b < |s.bills| ==> Whole(s, b) && PaidInOrder(s, b))
    && (forall i :: 0 <= i < |s.payments| && s.payments[i].status == Pending ==> TakesFront(s, s.payments[i]))
  }

  /** A pending payment reaches the bill without the other one. */
  ghost predicate PendingWithout(s: State, b: nat, c: nat) {
    exists i :: 0 <= i < |s.payments| && s.payments[i].status == Pending
      && Covers(s.payments[i], b) && !Covers(s.payments[i], c)
  }

  /** `b` has approved money, or will have some while `c` goes without. */
  ghost predicate Ahead(s: State, b: nat, c: nat) {
    ApprovedTotal(s, b) > 0 || PendingWithout(s, b, c)
  }

  /** No bill is ahead of an earlier one that still owes. */
  ghost predicate NoneAhead(s: State)
    requires DuesKnown(s)
  {
    forall b: nat, c: nat :: Strict(s, b) && OwedBefore(s, c, b) ==> !Ahead(s, b, c)
  }

  /** Approved and pending payments take bills whole. */
  ghost predicate TakenWhole(s: State)
    requires DuesKnown(s)
  {
    && (forall b :: 0 <= b < |s.bills| ==> Whole(s, b))
    && (forall i, b: nat ::
          0 <= i < |s.payments| && s.payments[i].status == Pending && Strict(s, b) && Covers(s.payments[i], b) ==>
            Share(s.payments[i], b) == s.bills[b].amount)
  }

  /** The order says two things: bills are taken whole, and none is ahead of an earlier one that owes. */
  lemma OrderedMeans(s: State)
    requires DuesKnown(s)
    ensures Ordered(s) <==> TakenWhole(s) && NoneAhead(s)
  {
    if Ordered(s) {
      forall b: nat, c: nat | Strict(s, b) && OwedBefore(s, c, b)
        ensures !Ahead(s, b, c)
      {
        assert PaidInOrder(s, b);
        forall i | 0 <= i < |s.payments| && s.payments[i].status == Pending && Covers(s.payments[i], b)
          ensures Covers(s.payments[i], c)
        {
          assert TakesFront(s, s.payments[i]);
        }
      }
      forall i, b: nat |
        0 <= i < |s.payments| && s.payments[i].status == Pending && Strict(s, b) && Covers(s.payments[i], b)
        ensures Share(s.payments[i], b) == s.bills[b].amount
      {
        assert TakesFront(s, s.payments[i]);
      }
    }
    if TakenWhole(s) && NoneAhead(s) {
      forall b | 0 <= b < |s.bills|
        ensures PaidInOrder(s, b)
      {
        assert forall c: nat :: Strict(s, b) && OwedBefore(s, c, b) ==> !Ahead(s, b, c);
      }
      forall i | 0 <= i < |s.payments| && s.payments[i].status == Pending
        ensures TakesFront(s, s.payments[i])
      {
        forall b: nat, c: nat | Strict(s, b) && Covers(s.payments[i], b) && OwedBefore(s, c, b)
          ensures Covers(s.payments[i], c)
        {
          assert !Ahead(s, b, c);
        }
      }
    }
  }

  // ----- The runs -----

  /** A bill of a later period of the household and due has approved or pending money already. */
  ghost predicate PaidAhead(s: State, occupancy: nat, due: nat, period: nat) {
    exists b: nat :: b < |s.bills| && s.bills[b].occupancy == occupancy && s.bills[b].due == due
      && period < s.bills[b].period && ApprovedTotal(s, b) + PendingTotal(s, b) > 0
  }

  /** Issuing a bill that owes, under the rule "full", after a later one was paid or submitted. */
  ghost predicate IssuedLate(s: State, op: Op) {
    && op.AddBillOp? && !HasKey(s.bills, op.occupancy, op.due, op.period) && op.obligatory && op.amount > 0
    && op.due < |s.dues| && !s.dues[op.due].isVoluntary && s.dues[op.due].rule.Full?
    && PaidAhead(s, op.occupancy, op.due, op.period)
  }

  /** `c` is an earlier payable bill of the same household and due that payment `id` covers. */
  predicate CoversEarlier(s: State, id: nat, b: nat, c: nat)
    requires id < |s.payments|
  {
    && Group(s, b, c) && s.bills[c].period < s.bills[b].period
    && s.bills[c].isActive && s.bills[c].isObligatory && Covers(s.payments[id], c)
  }

  /** The payment leaves a bill ahead of one that it covers: paid by another payment, or about to be by a pending
      one. */
  ghost predicate LeavesAhead(s: State, id: nat, b: nat, c: nat)
    requires DuesKnown(s) && id < |s.payments|
  {
    && Strict(s, b) && CoversEarlier(s, id, b, c)
    && ((ApprovedTotal(s, b) > 0 && !Covers(s.payments[id], b)) || PendingWithout(s, b, c))
  }

  /** Reversing a payment of a bill while a later one is paid or submitted otherwise. */
  ghost predicate ReversedLate(s: State, op: Op)
    requires DuesKnown(s)
  {
    && op.ReverseOp? && Try(s, op).Ok? && exists b: nat, c: nat :: LeavesAhead(s, op.payment, b, c)
  }

  /** The flag keeps the bill out of its queue, and setting it lets the bill in. */
  predicate Revives(s: State, op: Op, c: nat) {
    && c < |s.bills| && s.bills[c].status != Cancelled && ApprovedTotal(s, c) < s.bills[c].amount
    && match op
       case BillActiveOp(b, active) => b == c && active && !s.bills[c].isActive && s.bills[c].isObligatory
       case ObligatoryOp(b, obligatory) =>
         b == c && obligatory && !s.bills[c].isObligatory && s.bills[c].isActive && s.bills[c].status == Unpaid
       case _ => false
  }

  ghost predicate Overtaken(s: State, c: nat)
    requires DuesKnown(s)
  {
    exists b: nat :: Strict(s, b) && Group(s, b, c) && s.bills[c].period < s.bills[b].period && Ahead(s, b, c)
  }

  /** Making a bill payable again after a later one was paid or submitted. */
  ghost predicate RevivedLate(s: State, op: Op)
    requires DuesKnown(s)
  {
    exists c: nat :: Revives(s, op, c) && Overtaken(s, c)
  }

  /** Every operation but one that comes late. */
  ghost predicate OrderOp(s: State, op: Op)
    requires DuesKnown(s)
  {
    !IssuedLate(s, op) && !ReversedLate(s, op) && !RevivedLate(s, op)
  }

  /** Every operation of the run is one of those in the state it finds. */
  ghost predicate OrderRun(s: State, ops: seq<Op>)
    requires DuesKnown(s)
  {
    ops == [] || (OrderRun(s, ops[..|ops| - 1]) && OrderOp(Run(s, ops[..|ops| - 1]), ops[|ops| - 1]))
  }

  // ----- Counting payments -----

  lemma AppendCount(payments: seq<Payment>, p: Payment, b: nat, status: PaymentStatus)
    ensures PaymentCount(payments + [p], b, status)
      == PaymentCount(payments, b, status) + if p.status == status && Covers(p, b) then 1 else 0
  {
    assert (payments + [p])[..|payments|] == payments;
  }

  lemma {:induction false} UpdateCount(payments: seq<Payment>, i: nat, p: Payment, b: nat, status: PaymentStatus)
    requires i < |payments|
    ensures PaymentCount(payments[i := p], b, status)
      == PaymentCount(payments, b, status)
         - (if payments[i].status == status && Covers(payments[i], b) then 1 else 0)
         + (if p.status == status && Covers(p, b) then 1 else 0)
  {
    var n := |payments| - 1;
    if i < n {
      UpdateCount(payments[..n], i, p, b, status);
      assert payments[i := p][..n] == payments[..n][i := p];
    } else {
      assert payments[i := p][..n] == payments[..n];
    }
  }

  // ----- Fewer bills owing -----

  /** From `s` to `t` no bill starts owing, and no row moves to another household, due or period. */
  ghost predicate OwesNoMore(s: State, t: State)
    requires DuesKnown(s) && DuesKnown(t)
  {
    && |t.bills| == |s.bills|
    && (forall b: nat :: Strict(t, b) == Strict(s, b))
    && (forall b :: 0 <= b < |s.bills| ==> t.bills[b].amount == s.bills[b].amount)
    && (forall b: nat, c: nat :: Strict(t, b) && OwedBefore(t, c, b) ==> OwedBefore(s, c, b))
  }

  lemma FrontSurvives(s: State, t: State, p: Payment)
    requires DuesKnown(s) && DuesKnown(t) && OwesNoMore(s, t) && TakesFront(s, p)
    ensures TakesFront(t, p)
  {
  }

  // ----- The three ways the payments change -----

  /** A new pending payment: every strict bill it covers is untouched so far. */
  ghost predicate Untouched(s: State, p: Payment, pendingToo: bool)
    requires DuesKnown(s)
  {
    forall b: nat :: Strict(s, b) && Covers(p, b) ==>
      ApprovedTotal(s, b) == 0 && (pendingToo ==> PendingTotal(s, b) == 0)
  }

  lemma PendingIsWhole(s: State, p: Payment, b: nat)
    requires Inv(s) && b < |s.bills| && Whole(s, b) && ValidPayment(p, |s.bills|) && p.status == Pending
    requires TakesFront(s, p) && Untouched(s, p, true)
    ensures Whole(s.(payments := s.payments + [p]), b)
  {
    AppendShare(s.payments, p, b, Approved);
    AppendShare(s.payments, p, b, Pending);
    AppendCount(s.payments, p, b, Pending);
    AppendCount(s.payments, p, b, Approved);
    ShareTotalSign(s.payments, |s.bills|, b, Pending);
    ShareSign(p, |s.bills|, b);
  }

  lemma PendingKeepsOrder(s: State, p: Payment)
    requires Inv(s) && Ordered(s) && ValidPayment(p, |s.bills|) && p.status == Pending
    requires TakesFront(s, p) && Untouched(s, p, true)
    ensures Ordered(s.(payments := s.payments + [p]))
  {
    var t := s.(payments := s.payments + [p]);
    forall b: nat
      ensures ApprovedTotal(t, b) == ApprovedTotal(s, b)
    {
      AppendShare(s.payments, p, b, Approved);
    }
    assert OwesNoMore(s, t);
    forall b | 0 <= b < |t.bills|
      ensures Whole(t, b) && PaidInOrder(t, b)
    {
      assert Whole(s, b) && PaidInOrder(s, b);
      PendingIsWhole(s, p, b);
    }
    forall i | 0 <= i < |t.payments| && t.payments[i].status == Pending
      ensures TakesFront(t, t.payments[i])
    {
      FrontSurvives(s, t, t.payments[i]);
    }
  }

  /** `t` is `s` once `p` was approved as row `id`; the books are free. */
  ghost predicate IsSettled(s: State, p: Payment, id: nat, t: State)
    requires DuesKnown(s)
  {
    Records(s, t.payments, p, id) && t.dues == s.dues && t.bills == SettledBills(s, p)
  }

  lemma SettledTotals(s: State, p: Payment, id: nat, t: State, b: nat)
    requires WellFormed(s) && DuesKnown(s) && IsSettled(s, p, id, t) && ValidPayment(p, |s.bills|)
    ensures ApprovedTotal(t, b) == ApprovedTotal(s, b) + Share(p, b) && ApprovedTotal(s, b) >= 0
    ensures Share(p, b) >= 0 && (Share(p, b) > 0 <==> Covers(p, b))
  {
    ApprovalTotals(s, t.payments, p, id, b);
    ShareSign(p, |s.bills|, b);
    ShareTotalSign(s.payments, |s.bills|, b, Approved);
  }

  /** Approving makes bills stop owing and never start. */
  lemma SettleOwesNoMore(s: State, p: Payment, id: nat, t: State)
    requires WellFormed(s) && DuesKnown(s) && DuesKnown(t) && IsSettled(s, p, id, t)
    requires ValidPayment(p, |s.bills|) && Fits(s, p)
    ensures OwesNoMore(s, t)
  {
    forall c | 0 <= c < |s.bills|
      ensures t.bills[c] == s.bills[c].(status := t.bills[c].status)
      ensures ApprovedTotal(t, c) >= ApprovedTotal(s, c)
      ensures s.bills[c].status == Cancelled ==> t.bills[c].status == Cancelled
    {
      SettledTotals(s, p, id, t, c);
    }
  }

  /** How an approval moves a bill's counts, and its pending total. */
  lemma ApprovalCounts(s: State, payments: seq<Payment>, p: Payment, id: nat, b: nat)
    requires Records(s, payments, p, id)
    ensures PaymentCount(payments, b, Approved) == PaymentCount(s.payments, b, Approved) + if Covers(p, b) then 1 else 0
    ensures var moved := id < |s.payments|;
      && PaymentCount(payments, b, Pending) == PaymentCount(s.payments, b, Pending) - (if moved && Covers(p, b) then 1 else 0)
      && ShareTotal(payments, b, Pending) == ShareTotal(s.payments, b, Pending) - (if moved then Share(p, b) else 0)
  {
    if id == |s.payments| {
      AppendShare(s.payments, p, b, Pending);
      AppendCount(s.payments, p, b, Approved);
      AppendCount(s.payments, p, b, Pending);
    } else {
      var q := p.(status := Approved);
      UpdateShare(s.payments, id, q, b, Pending);
      UpdateCount(s.payments, id, q, b, Approved);
      UpdateCount(s.payments, id, q, b, Pending);
    }
  }

  /** A bill stays whole when the payment brings it nothing, or all of it while it had nothing approved. */
  lemma WholeFromTotals(s: State, p: Payment, t: State, b: nat, moved: bool)
    requires DuesKnown(s) && DuesKnown(t) && b < |s.bills| && Whole(s, b)
    requires t.dues == s.dues && |t.bills| == |s.bills| && t.bills[b] == s.bills[b].(status := t.bills[b].status)
    requires Strict(s, b) && Covers(p, b) ==> ApprovedTotal(s, b) == 0 && Share(p, b) == s.bills[b].amount
    requires Share(p, b) >= 0 && (Share(p, b) > 0 <==> Covers(p, b))
    requires ApprovedTotal(t, b) == ApprovedTotal(s, b) + Share(p, b)
    requires PendingTotal(t, b) == PendingTotal(s, b) - (if moved then Share(p, b) else 0) >= 0
    requires ApprovedTotal(s, b) == 0 <==> PaymentCount(s.payments, b, Approved) == 0
    requires PaymentCount(t.payments, b, Approved) == PaymentCount(s.payments, b, Approved) + if Covers(p, b) then 1 else 0
    requires PaymentCount(t.payments, b, Pending) <= PaymentCount(s.payments, b, Pending)
    ensures Whole(t, b)
    ensures Strict(s, b) && Covers(p, b) ==> ApprovedTotal(t, b) == s.bills[b].amount
  {
  }

  /** What approving does to the counts and pending money of one bill. */
  lemma SettledCounts(s: State, p: Payment, id: nat, t: State, b: nat)
    requires WellFormed(s) && DuesKnown(s) && IsSettled(s, p, id, t) && ValidPayment(p, |s.bills|)
    ensures PendingTotal(t, b) == PendingTotal(s, b) - (if id < |s.payments| then Share(p, b) else 0) >= 0
    ensures ApprovedTotal(s, b) == 0 <==> PaymentCount(s.payments, b, Approved) == 0
    ensures PaymentCount(t.payments, b, Approved) == PaymentCount(s.payments, b, Approved) + if Covers(p, b) then 1 else 0
    ensures PaymentCount(t.payments, b, Pending) <= PaymentCount(s.payments, b, Pending)
  {
    ApprovalCounts(s, t.payments, p, id, b);
    ShareTotalSign(s.payments, |s.bills|, b, Approved);
    ShareTotalSign(s.payments, |s.bills|, b, Pending);
  }

  lemma SettledWhole(s: State, p: Payment, id: nat, t: State, b: nat)
    requires WellFormed(s) && DuesKnown(s) && DuesKnown(t) && IsSettled(s, p, id, t) && ValidPayment(p, |s.bills|)
    requires b < |s.bills| && Whole(s, b)
    requires Strict(s, b) && Covers(p, b) ==> ApprovedTotal(s, b) == 0 && Share(p, b) == s.bills[b].amount
    ensures Whole(t, b) && (Strict(s, b) && Covers(p, b) ==> ApprovedTotal(t, b) == t.bills[b].amount)
    ensures ApprovedTotal(t, b) == ApprovedTotal(s, b) + Share(p, b) && (Share(p, b) > 0 <==> Covers(p, b))
  {
    SettledTotals(s, p, id, t, b);
    SettledCounts(s, p, id, t, b);
    WholeFromTotals(s, p, t, b, id < |s.payments|);
  }

  /** What the payment covers was at the front, so no earlier bill is left owing. */
  lemma SettledInOrder(s: State, p: Payment, t: State, b: nat)
    requires Inv(s) && DuesKnown(t) && OwesNoMore(s, t) && b < |s.bills| && PaidInOrder(s, b) && TakesFront(s, p)
    requires ApprovedTotal(t, b) == ApprovedTotal(s, b) + Share(p, b) && (Share(p, b) > 0 <==> Covers(p, b))
    requires forall c: nat :: c < |s.bills| && Strict(s, c) && Covers(p, c) ==> ApprovedTotal(t, c) == t.bills[c].amount
    ensures PaidInOrder(t, b)
  {
    forall c: nat | Strict(t, b) && OwedBefore(t, c, b)
      ensures !Covers(p, b)
    {
      assert OwedBefore(s, c, b);
    }
  }

  /** Approving gathered from its parts: bills, totals and the payments still pending. */
  lemma ApprovalKeepsOrder(s: State, p: Payment, t: State)
    requires Inv(s) && Ordered(s) && DuesKnown(t) && OwesNoMore(s, t) && TakesFront(s, p)
    requires forall b :: 0 <= b < |s.bills| ==>
      Whole(t, b) && (Strict(s, b) && Covers(p, b) ==> ApprovedTotal(t, b) == t.bills[b].amount)
    requires forall b :: 0 <= b < |s.bills| ==>
      ApprovedTotal(t, b) == ApprovedTotal(s, b) + Share(p, b) && (Share(p, b) > 0 <==> Covers(p, b))
    requires forall i :: 0 <= i < |t.payments| && t.payments[i].status == Pending ==>
      i < |s.payments| && t.payments[i] == s.payments[i]
    ensures Ordered(t)
  {
    forall b | 0 <= b < |t.bills|
      ensures PaidInOrder(t, b)
    {
      assert PaidInOrder(s, b);
      SettledInOrder(s, p, t, b);
    }
    forall i | 0 <= i < |t.payments| && t.payments[i].status == Pending
      ensures TakesFront(t, t.payments[i])
    {
      FrontSurvives(s, t, t.payments[i]);
    }
  }

  lemma SettledIsOrdered(s: State, p: Payment, id: nat, t: State)
    requires Inv(s) && Ordered(s) && DuesKnown(t) && IsSettled(s, p, id, t) && ValidPayment(p, |s.bills|) && Fits(s, p)
    requires TakesFront(s, p) && Untouched(s, p, false)
    ensures Ordered(t)
  {
    SettleOwesNoMore(s, p, id, t);
    forall b | 0 <= b < |s.bills|
      ensures Whole(t, b) && (Strict(s, b) && Covers(p, b) ==> ApprovedTotal(t, b) == t.bills[b].amount)
      ensures ApprovedTotal(t, b) == ApprovedTotal(s, b) + Share(p, b) && (Share(p, b) > 0 <==> Covers(p, b))
    {
      SettledWhole(s, p, id, t, b);
    }
    ApprovalKeepsOrder(s, p, t);
  }

  /** Approving a payment that takes the front of every queue it touches keeps the order. */
  lemma SettleKeepsOrder(s: State, payments: seq<Payment>, p: Payment, id: nat, location: Option<nat>, at: int)
    requires Inv(s) && Ordered(s) && Records(s, payments, p, id) && ValidPayment(p, |s.bills|) && Fits(s, p)
    requires TakesFront(s, p) && Untouched(s, p, false)
    ensures Ordered(Settle(s, payments, p, id, location, at))
  {
    SettledIsOrdered(s, p, id, Settle(s, payments, p, id, location, at));
  }

  /** Steps that leave every payment, or turn one pending payment down, and start no bill owing. */
  lemma QuietKeepsOrder(s: State, t: State, id: nat)
    requires Inv(s) && Ordered(s) && DuesKnown(t) && OwesNoMore(s, t)
    requires t.payments == s.payments
      || (id < |s.payments| && s.payments[id].status == Pending && t.payments == WithStatus(s, id, Rejected))
    ensures Ordered(t)
  {
    forall b | 0 <= b < |t.bills|
      ensures Whole(t, b) && PaidInOrder(t, b)
    {
      assert Whole(s, b) && PaidInOrder(s, b);
      if t.payments != s.payments {
        var q := s.payments[id].(status := Rejected);
        UpdateShare(s.payments, id, q, b, Approved);
        UpdateShare(s.payments, id, q, b, Pending);
        UpdateCount(s.payments, id, q, b, Approved);
        UpdateCount(s.payments, id, q, b, Pending);
        ShareSign(s.payments[id], |s.bills|, b);
        if Strict(s, b) && Covers(s.payments[id], b) {
          assert TakesFront(s, s.payments[id]);
          ShareTotalSign(s.payments, |s.bills|, b, Pending);
        }
      }
    }
    forall i | 0 <= i < |t.payments| && t.payments[i].status == Pending
      ensures TakesFront(t, t.payments[i])
    {
      assert t.payments[i] == s.payments[i];
      FrontSurvives(s, t, t.payments[i]);
    }
  }

  // ----- Requests take the front of the queue -----

  /** A strict bill that may still be paid has no approved money yet. */
  lemma UnpaidIsUntouched(s: State, b: nat)
    requires Inv(s) && Ordered(s) && Strict(s, b) && s.bills[b].status != Cancelled
    requires s.bills[b].status != Paid
    ensures ApprovedTotal(s, b) == 0
  {
    assert BillAgrees(s, b) && Whole(s, b);
  }

  lemma SingleTakesFront(s: State, c: Caller, b: nat, amount: int, paidBy: PaymentMethod, status: PaymentStatus)
    requires Inv(s) && Ordered(s) && SinglePayError(s, c, b, amount).None?
    ensures var p := Payment(ToBill(b), amount, paidBy, status, c.user, []);
      TakesFront(s, p) && Untouched(s, p, c.role.Warga?)
  {
    var p := Payment(ToBill(b), amount, paidBy, status, c.user, []);
    if Strict(s, b) {
      UnpaidIsUntouched(s, b);
      assert Whole(s, b);
      HeadIsOldest(s, s.bills[b].occupancy, s.bills[b].due, b);
    }
  }

  lemma {:induction false} BillsOfDueMembers(s: State, allocs: seq<Alloc>, due: nat)
    requires BillsExist(s, allocs) && DistinctBills(allocs)
    ensures var ids := BillsOfDue(s, allocs, due);
      && (forall b: nat :: b in ids <==> HasAlloc(allocs, b) && b < |s.bills| && s.bills[b].due == due)
      && (forall i, j :: 0 <= i < j < |ids| ==> ids[i] != ids[j])
  {
    if allocs != [] {
      var init := allocs[..|allocs| - 1];
      var last := allocs[|allocs| - 1];
      BillsOfDueMembers(s, init, due);
      forall b: nat
        ensures HasAlloc(allocs, b) <==> HasAlloc(init, b) || last.bill == b
      {
        if i :| 0 <= i < |init| && init[i].bill == b {
          assert allocs[i].bill == b;
        }
      }
      assert !HasAlloc(init, last.bill);
    }
  }

  /** An accepted request for bills of one household includes every earlier bill still owing. */
  lemma RequestIsClosed(s: State, allocs: seq<Alloc>, occupancy: nat, i: nat, c: nat)
    requires WellFormed(s) && DuesKnown(s) && BillsExist(s, allocs) && DistinctBills(allocs) && i < |allocs|
    requires forall k :: 0 <= k < |allocs| ==> s.bills[allocs[k].bill].occupancy == occupancy
    requires !DueOf(s, allocs[i].bill).isVoluntary && QueueError(s, allocs, occupancy, i).None?
    ensures OwedBefore(s, c, allocs[i].bill) ==> HasAlloc(allocs, c)
    ensures Eligible(s, allocs[i].bill, occupancy, s.bills[allocs[i].bill].due)
  {
    var b := allocs[i].bill;
    var due := s.bills[b].due;
    var ids := BillsOfDue(s, allocs, due);
    var group := SortByPeriod(s.bills, ids);
    var q := Queue(s, occupancy, due);
    BillsOfDueMembers(s, allocs, due);
    forall x, y | 0 <= x < y < |ids|
      ensures PeriodOf(s.bills, ids[x]) != PeriodOf(s.bills, ids[y])
    {
      assert ids[x] in ids && ids[y] in ids;
    }
    SortRises(s.bills, ids);
    SortMembers(s.bills, ids);
    QueueRises(s, occupancy, due);
    QueueMembers(s, occupancy, due);
    PrefixMeansClosed(s.bills, group, q);
    assert HasAlloc(allocs, b);
    assert b in group;
  }

  /** Each strict bill of an accepted request is taken whole, untouched, with every earlier one still owing. */
  lemma RequestedBill(s: State, c: Caller, billIds: seq<nat>, allocs: seq<Alloc>, stated: Option<int>, i: nat)
    requires Inv(s) && Ordered(s) && ManyError(s, c, billIds, allocs, stated).None? && i < |allocs|
    requires Strict(s, allocs[i].bill)
    ensures var b := allocs[i].bill;
      && allocs[i].amount == s.bills[b].amount
      && ApprovedTotal(s, b) == 0 && (c.role.Warga? ==> PendingTotal(s, b) == 0)
      && forall e: nat :: OwedBefore(s, e, b) ==> HasAlloc(allocs, e)
  {
    var b := allocs[i].bill;
    ManyChecks(s, c, billIds, allocs, stated, i);
    UnpaidIsUntouched(s, b);
    assert Whole(s, b);
    forall e: nat | OwedBefore(s, e, b)
      ensures HasAlloc(allocs, e)
    {
      RequestIsClosed(s, allocs, s.bills[allocs[0].bill].occupancy, i, e);
    }
  }

  lemma ManyTakesFront(s: State, c: Caller, billIds: seq<nat>, allocs: seq<Alloc>, stated: Option<int>,
                       paidBy: PaymentMethod, status: PaymentStatus)
    requires Inv(s) && Ordered(s) && ManyError(s, c, billIds, allocs, stated).None?
    ensures var p := ManyPayment(c, allocs, paidBy, status);
      TakesFront(s, p) && Untouched(s, p, c.role.Warga?)
  {
    var p := ManyPayment(c, allocs, paidBy, status);
    assert HasAlloc(allocs, allocs[0].bill);
    forall b: nat | Strict(s, b) && Covers(p, b)
      ensures Share(p, b) == s.bills[b].amount
      ensures ApprovedTotal(s, b) == 0 && (c.role.Warga? ==> PendingTotal(s, b) == 0)
      ensures forall e: nat :: OwedBefore(s, e, b) ==> Covers(p, e)
    {
      var i :| 0 <= i < |allocs| && allocs[i].bill == b;
      RequestedBill(s, c, billIds, allocs, stated, i);
      AllocSumOf(allocs, b);
    }
  }

  // ----- Each operation -----

  lemma PayKeepsOrder(s: State, c: Caller, b: nat, amount: int, paidBy: PaymentMethod, at: int)
    requires Inv(s) && Ordered(s) && CreateBillPayment(s, c, b, amount, paidBy, at).Ok?
    ensures Ordered(CreateBillPayment(s, c, b, amount, paidBy, at).value)
  {
    var status := if c.role.Warga? then Pending else Approved;
    var p := Payment(ToBill(b), amount, paidBy, status, c.user, []);
    BillPaymentFits(s, c, b, amount, paidBy, status);
    SingleTakesFront(s, c, b, amount, paidBy, status);
    match c.role
    case Warga => PendingKeepsOrder(s, p);
    case Staff => SettleKeepsOrder(s, s.payments + [p], p, |s.payments|, None, at);
  }

  lemma PayManyKeepsOrder(s: State, c: Caller, billIds: seq<nat>, allocs: seq<Alloc>, stated: Option<int>,
                          paidBy: PaymentMethod, at: int)
    requires Inv(s) && Ordered(s) && CreateMultiPayment(s, c, billIds, allocs, stated, paidBy, at).Ok?
    ensures Ordered(CreateMultiPayment(s, c, billIds, allocs, stated, paidBy, at).value)
  {
    var status := if c.role.Warga? then Pending else Approved;
    var p := ManyPayment(c, allocs, paidBy, status);
    ManyFits(s, c, billIds, allocs, stated, paidBy, status);
    ManyTakesFront(s, c, billIds, allocs, stated, paidBy, status);
    match c.role
    case Warga => PendingKeepsOrder(s, p);
    case Staff => SettleKeepsOrder(s, s.payments + [p], p, |s.payments|, None, at);
  }

  lemma DonateKeepsOrder(s: State, c: Caller, d: nat, amount: int, today: int, paidBy: PaymentMethod, at: int)
    requires Inv(s) && Ordered(s) && CreateDonation(s, c, d, amount, today, paidBy, at).Ok?
    ensures Ordered(CreateDonation(s, c, d, amount, today, paidBy, at).value)
  {
    var status := if c.role.Warga? then Pending else Approved;
    var p := Payment(ToDue(d), amount, paidBy, status, c.user, []);
    match c.role
    case Warga => PendingKeepsOrder(s, p);
    case Staff =>
      DonationSettles(s, s.payments + [p], p, |s.payments|, None, at);
      SettleKeepsOrder(s, s.payments + [p], p, |s.payments|, None, at);
  }

  /** A pending payment that fits touches only bills without approved money. */
  lemma PendingIsUntouched(s: State, id: nat)
    requires Inv(s) && Ordered(s) && id < |s.payments| && s.payments[id].status == Pending && Fits(s, s.payments[id])
    ensures Untouched(s, s.payments[id], false)
  {
    var p := s.payments[id];
    forall b: nat | Strict(s, b) && Covers(p, b)
      ensures ApprovedTotal(s, b) == 0
    {
      assert TakesFront(s, p) && Whole(s, b);
      ShareSign(p, |s.bills|, b);
    }
  }

  /** Recomputing statuses moves no balance and revives no cancelled bill. */
  lemma ReconcileOwesNoMore(s: State, payments: seq<Payment>, p: Payment, t: State)
    requires DuesKnown(s) && DuesKnown(t) && SameApproved(s, payments) && t.dues == s.dues && t.payments == payments
    requires t.bills == s.bills || t.bills == ReconciledBills(s.(payments := payments), p)
    ensures OwesNoMore(s, t)
  {
    forall b | 0 <= b < |s.bills|
      ensures t.bills[b] == s.bills[b].(status := t.bills[b].status)
      ensures s.bills[b].status == Cancelled ==> t.bills[b].status == Cancelled
    {
    }
  }

  lemma RejectOwesNoMore(s: State, id: nat, t: State)
    requires Inv(s) && id < |s.payments| && s.payments[id].status == Pending && DuesKnown(t)
    requires t == RejectPayment(s, id) || t == s.(payments := WithStatus(s, id, Rejected))
    ensures OwesNoMore(s, t)
  {
    RejectionTotals(s, id);
    ReconcileOwesNoMore(s, WithStatus(s, id, Rejected), s.payments[id], t);
  }

  lemma VerifyKeepsOrder(s: State, verifier: nat, id: nat, decision: Decision)
    requires Inv(s) && Ordered(s) && VerifyPayment(s, verifier, id, decision).Ok?
    ensures Ordered(VerifyPayment(s, verifier, id, decision).value.state)
  {
    var v := VerifyPayment(s, verifier, id, decision).value;
    var p := s.payments[id];
    if decision.Reject? || v.overpaid {
      RejectOwesNoMore(s, id, v.state);
      QuietKeepsOrder(s, v.state, id);
    } else {
      ApprovalIsSettle(s, verifier, id, decision.location, decision.at.value, decision.enforced);
      PendingIsUntouched(s, id);
      SettleKeepsOrder(s, WithStatus(s, id, Approved), p, id, decision.location, decision.at.value);
    }
  }

  lemma CancelKeepsOrder(s: State, b: nat)
    requires Inv(s) && Ordered(s) && CancelBill(s, b).Ok?
    ensures Ordered(CancelBill(s, b).value)
  {
    QuietKeepsOrder(s, CancelBill(s, b).value, 0);
  }

  lemma DueActiveKeepsOrder(s: State, d: nat, active: bool, today: int)
    requires Inv(s) && Ordered(s) && SetDueActive(s, d, active, today).Ok?
    ensures Ordered(SetDueActive(s, d, active, today).value)
  {
    QuietKeepsOrder(s, SetDueActive(s, d, active, today).value, 0);
  }

  lemma BooksKeepOrder(s: State, books: Books)
    requires Inv(s) && Ordered(s)
    ensures Ordered(s.(books := books))
  {
    QuietKeepsOrder(s, s.(books := books), 0);
  }

  /** The new bill has no money on it yet, and the others keep theirs. */
  lemma IssuedTotals(s: State, t: State, b: nat)
    requires WellFormed(s) && DuesKnown(s) && DuesKnown(t) && t.payments == s.payments && t.dues == s.dues
    requires |t.bills| == |s.bills| + 1 && t.bills[..|s.bills|] == s.bills
    ensures b < |s.bills| ==> t.bills[b] == s.bills[b] && Strict(t, b) == Strict(s, b)
    ensures ApprovedTotal(t, b) == ApprovedTotal(s, b) && PendingTotal(t, b) == PendingTotal(s, b)
    ensures b >= |s.bills| ==> ApprovedTotal(t, b) == 0 && PendingTotal(t, b) == 0
    ensures ApprovedTotal(t, b) >= 0 && PendingTotal(t, b) >= 0
    ensures ApprovedTotal(t, b) > 0 <==> PaymentCount(t.payments, b, Approved) > 0
    ensures PendingTotal(t, b) > 0 <==> PaymentCount(t.payments, b, Pending) > 0
  {
    ShareTotalSign(s.payments, |s.bills|, b, Approved);
    ShareTotalSign(s.payments, |s.bills|, b, Pending);
    if b >= |s.bills| {
      UnknownBillUntouched(s.payments, |s.bills|, b, Approved);
      UnknownBillUntouched(s.payments, |s.bills|, b, Pending);
    }
  }

  /** The bills owing before `b` are the same as before, and the new bill too if it owes and is earlier. */
  lemma IssuedOwes(s: State, t: State, c: nat, b: nat)
    requires WellFormed(s) && DuesKnown(s) && DuesKnown(t) && t.payments == s.payments && t.dues == s.dues
    requires |t.bills| == |s.bills| + 1 && t.bills[..|s.bills|] == s.bills && b < |s.bills|
    requires var n := t.bills[|s.bills|]; n.status == Unpaid && n.isActive
    ensures var n := t.bills[|s.bills|];
      OwedBefore(t, c, b) <==> (OwedBefore(s, c, b)
        || (c == |s.bills| && n.occupancy == s.bills[b].occupancy && n.due == s.bills[b].due
            && n.period < s.bills[b].period && n.isObligatory && n.amount > 0))
  {
    IssuedTotals(s, t, c);
    assert c < |s.bills| ==> t.bills[c] == s.bills[c];
    assert t.bills[b] == s.bills[b];
  }

  lemma IssuedWhole(s: State, t: State, b: nat)
    requires WellFormed(s) && DuesKnown(s) && DuesKnown(t) && t.payments == s.payments && t.dues == s.dues
    requires |t.bills| == |s.bills| + 1 && t.bills[..|s.bills|] == s.bills && b < |t.bills|
    requires b < |s.bills| ==> Whole(s, b)
    ensures Whole(t, b)
  {
    IssuedTotals(s, t, b);
  }

  /** A pending payment reaches a bill with pending money. */
  lemma {:induction false} SomePendingCovers(payments: seq<Payment>, b: nat) returns (i: nat)
    requires PaymentCount(payments, b, Pending) > 0
    ensures i < |payments| && payments[i].status == Pending && Covers(payments[i], b)
  {
    var n := |payments| - 1;
    if payments[n].status == Pending && Covers(payments[n], b) {
      return n;
    }
    i := SomePendingCovers(payments[..n], b);
  }

  lemma NewBillUncovered(s: State, i: nat)
    requires WellFormed(s) && i < |s.payments|
    ensures !Covers(s.payments[i], |s.bills|)
  {
  }

  /** A later bill with money on it, approved or pending, finds the new one owing before it. */
  lemma IssuedLateBreaks(s: State, t: State, b: nat)
    requires Inv(s) && DuesKnown(t) && t.payments == s.payments && t.dues == s.dues
    requires |t.bills| == |s.bills| + 1 && t.bills[..|s.bills|] == s.bills && b < |s.bills|
    requires var n := t.bills[|s.bills|];
      && n.status == Unpaid && n.isActive && n.isObligatory && n.amount > 0
      && n.occupancy == s.bills[b].occupancy && n.due == s.bills[b].due && n.period < s.bills[b].period
    requires Strict(t, b) && ApprovedTotal(s, b) + PendingTotal(s, b) > 0
    ensures !Ordered(t)
  {
    IssuedOwes(s, t, |s.bills|, b);
    IssuedTotals(s, t, b);
    if ApprovedTotal(s, b) > 0 {
      assert !PaidInOrder(t, b);
    } else {
      var i := SomePendingCovers(t.payments, b);
      NewBillUncovered(s, i);
      assert !TakesFront(t, t.payments[i]);
    }
  }

  lemma IssuedInOrder(s: State, t: State)
    requires Inv(s) && Ordered(s) && DuesKnown(t) && t.payments == s.payments && t.dues == s.dues
    requires |t.bills| == |s.bills| + 1 && t.bills[..|s.bills|] == s.bills
    requires t.bills[|s.bills|].status == Unpaid && t.bills[|s.bills|].isActive
    requires forall b: nat :: b < |s.bills| && Strict(s, b) && OwedBefore(t, |s.bills|, b) ==>
      ApprovedTotal(s, b) == 0 && PendingTotal(s, b) == 0
    ensures Ordered(t)
  {
    forall b | 0 <= b < |t.bills|
      ensures Whole(t, b) && PaidInOrder(t, b)
    {
      IssuedTotals(s, t, b);
      IssuedWhole(s, t, b);
      if b < |s.bills| {
        assert PaidInOrder(s, b);
        forall c: nat | OwedBefore(t, c, b)
          ensures Strict(s, b) ==> ApprovedTotal(s, b) == 0
        {
          IssuedOwes(s, t, c, b);
        }
      }
    }
    forall i | 0 <= i < |t.payments| && t.payments[i].status == Pending
      ensures TakesFront(t, t.payments[i])
    {
      IssuedTakesFront(s, t, i);
    }
  }

  lemma IssuedTakesFront(s: State, t: State, i: nat)
    requires Inv(s) && Ordered(s) && DuesKnown(t) && t.payments == s.payments && t.dues == s.dues
    requires |t.bills| == |s.bills| + 1 && t.bills[..|s.bills|] == s.bills
    requires t.bills[|s.bills|].status == Unpaid && t.bills[|s.bills|].isActive
    requires forall b: nat :: b < |s.bills| && Strict(s, b) && OwedBefore(t, |s.bills|, b) ==>
      ApprovedTotal(s, b) == 0 && PendingTotal(s, b) == 0
    requires i < |s.payments| && s.payments[i].status == Pending
    ensures TakesFront(t, s.payments[i])
  {
    var p := s.payments[i];
    NewBillUncovered(s, i);
    assert TakesFront(s, p);
    forall b: nat | Strict(t, b) && Covers(p, b)
      ensures Share(p, b) == t.bills[b].amount && b < |s.bills|
      ensures forall c: nat :: OwedBefore(t, c, b) ==> Covers(p, c)
    {
      IssuedTotals(s, t, b);
      ShareSign(p, |s.bills|, b);
      ShareTotalSign(s.payments, |s.bills|, b, Pending);
      forall c: nat | OwedBefore(t, c, b)
        ensures Covers(p, c)
      {
        IssuedOwes(s, t, c, b);
      }
    }
  }

  /** Issuing a bill keeps the order exactly when it is not issued late. */
  lemma IssueKeepsOrderExactly(s: State, op: Op)
    requires Inv(s) && Ordered(s) && op.AddBillOp?
    ensures Ordered(Step(s, op)) <==> !IssuedLate(s, op)
  {
    var t := Step(s, op);
    if t != s {
      assert t.bills[..|s.bills|] == s.bills;
      if IssuedLate(s, op) {
        var b: nat :| b < |s.bills| && s.bills[b].occupancy == op.occupancy && s.bills[b].due == op.due
          && op.period < s.bills[b].period && ApprovedTotal(s, b) + PendingTotal(s, b) > 0;
        IssuedLateBreaks(s, t, b);
      } else {
        forall b: nat | b < |s.bills| && Strict(s, b) && OwedBefore(t, |s.bills|, b)
          ensures ApprovedTotal(s, b) == 0 && PendingTotal(s, b) == 0
        {
          IssuedOwes(s, t, |s.bills|, b);
          IssuedTotals(s, t, b);
        }
        IssuedInOrder(s, t);
      }
    }
  }

  // ----- Reversals -----

  /** What a reversal does to one bill it may reach: the approved total loses the share, the status follows it. */
  lemma ReversedBill(s: State, id: nat, at: int, c: nat, t: State)
    requires Inv(s) && ReversePayment(s, id, at) == Ok(t) && c < |s.bills|
    ensures |t.bills| == |s.bills| && t.dues == s.dues && t.bills[c] == s.bills[c].(status := t.bills[c].status)
    ensures (t.bills[c].status == Cancelled) == (s.bills[c].status == Cancelled)
    ensures ApprovedTotal(t, c) == ApprovedTotal(s, c) - Share(s.payments[id], c)
    ensures 0 <= Share(s.payments[id], c) <= ApprovedTotal(s, c)
    ensures Share(s.payments[id], c) > 0 <==> Covers(s.payments[id], c)
  {
    ReversalTotals(s, id, c);
    ShareSign(s.payments[id], |s.bills|, c);
    ShareTotalSign(s.payments, |s.bills|, c, Approved);
  }

  /** After a reversal a bill owes if it owed before, or if it is payable and the payment covered it. */
  lemma ReversalFrees(s: State, id: nat, at: int, b: nat, c: nat, t: State)
    requires Inv(s) && ReversePayment(s, id, at) == Ok(t) && Group(s, b, c) && !DueOf(s, c).isVoluntary
    ensures OwedBefore(t, c, b) == (OwedBefore(s, c, b) || CoversEarlier(s, id, b, c))
  {
    assert BillAgrees(s, c);
    ReversedBill(s, id, at, c, t);
    ReversedBill(s, id, at, b, t);
  }

  /** A later bill that another payment paid stays in order exactly when the payment covers no earlier payable bill
      of the same household and due. */
  lemma ReversalKeepsPaidExactly(s: State, id: nat, at: int, b: nat)
    requires Inv(s) && ReversePayment(s, id, at).Ok?
    requires Strict(s, b) && PaidInOrder(s, b) && ApprovedTotal(s, b) > 0 && !Covers(s.payments[id], b)
    ensures PaidInOrder(ReversePayment(s, id, at).value, b) <==> forall c: nat :: !CoversEarlier(s, id, b, c)
  {
    var t := ReversePayment(s, id, at).value;
    ReversalTotals(s, id, b);
    forall c: nat
      ensures OwedBefore(t, c, b) == CoversEarlier(s, id, b, c)
    {
      if Group(s, b, c) {
        ReversalFrees(s, id, at, b, c, t);
      }
    }
  }

  /** A reversal takes away at most the one approved payment of a strict bill, and no pending money. */
  lemma ReversedCounts(s: State, id: nat, at: int, b: nat, t: State)
    requires Inv(s) && ReversePayment(s, id, at) == Ok(t)
    ensures PaymentCount(t.payments, b, Approved)
      == PaymentCount(s.payments, b, Approved) - if Covers(s.payments[id], b) then 1 else 0
    ensures PaymentCount(t.payments, b, Pending) == PaymentCount(s.payments, b, Pending)
    ensures PendingTotal(t, b) == PendingTotal(s, b)
  {
    var q := s.payments[id].(status := Reversed);
    UpdateCount(s.payments, id, q, b, Approved);
    UpdateCount(s.payments, id, q, b, Pending);
    UpdateShare(s.payments, id, q, b, Pending);
  }

  lemma ReversedWhole(s: State, id: nat, at: int, b: nat, t: State)
    requires Inv(s) && ReversePayment(s, id, at) == Ok(t) && DuesKnown(t) && b < |s.bills| && Whole(s, b)
    ensures Whole(t, b)
    ensures Strict(s, b) ==> (ApprovedTotal(t, b) > 0 <==> ApprovedTotal(s, b) > 0 && !Covers(s.payments[id], b))
  {
    ReversedBill(s, id, at, b, t);
    ReversedCounts(s, id, at, b, t);
    ShareTotalSign(t.payments, |s.bills|, b, Approved);
  }

  lemma ReversedPending(s: State, id: nat, at: int, b: nat, c: nat, t: State)
    requires ReversePayment(s, id, at) == Ok(t)
    ensures PendingWithout(t, b, c) <==> PendingWithout(s, b, c)
  {
    assert forall i :: 0 <= i < |s.payments| && i != id ==> t.payments[i] == s.payments[i];
    assert t.payments[id].status == Reversed && s.payments[id].status == Approved;
  }

  lemma ReversedTaken(s: State, id: nat, at: int, t: State)
    requires Inv(s) && ReversePayment(s, id, at) == Ok(t) && DuesKnown(t) && TakenWhole(s)
    ensures TakenWhole(t)
  {
    forall b | 0 <= b < |t.bills|
      ensures Whole(t, b) && Strict(t, b) == Strict(s, b) && t.bills[b].amount == s.bills[b].amount
    {
      ReversedWhole(s, id, at, b, t);
      ReversedBill(s, id, at, b, t);
    }
  }

  /** After the reversal `b` is ahead of an owing `c` exactly if the payment leaves it so. */
  lemma ReversedAhead(s: State, id: nat, at: int, b: nat, c: nat, t: State)
    requires Inv(s) && ReversePayment(s, id, at) == Ok(t) && DuesKnown(t) && TakenWhole(s) && NoneAhead(s)
    ensures Strict(t, b) && OwedBefore(t, c, b) && Ahead(t, b, c) <==> LeavesAhead(s, id, b, c)
  {
    if b < |s.bills| {
      ReversedBill(s, id, at, b, t);
      ReversedWhole(s, id, at, b, t);
      ReversedPending(s, id, at, b, c, t);
      if Strict(s, b) && Group(s, b, c) {
        ReversalFrees(s, id, at, b, c, t);
        assert OwedBefore(s, c, b) ==> !Ahead(s, b, c);
      }
    }
  }

  /** A reversal keeps the order exactly when no bill that the payment covers is behind a later one of its household and
      due, paid by another payment or submitted by one that does not cover the earlier bill. */
  lemma ReversalKeepsOrderExactly(s: State, id: nat, at: int, t: State)
    requires Inv(s) && Ordered(s) && ReversePayment(s, id, at) == Ok(t) && DuesKnown(t)
    ensures Ordered(t) <==> forall b: nat, c: nat :: !LeavesAhead(s, id, b, c)
  {
    OrderedMeans(s);
    OrderedMeans(t);
    ReversedTaken(s, id, at, t);
    forall b: nat, c: nat
      ensures Strict(t, b) && OwedBefore(t, c, b) && Ahead(t, b, c) <==> LeavesAhead(s, id, b, c)
    {
      ReversedAhead(s, id, at, b, c, t);
    }
  }

  // ----- Flags -----

  /** A flag of one bill is set or cleared, and nothing else. */
  ghost predicate Flagged(s: State, op: Op, t: State) {
    && (op.BillActiveOp? || op.ObligatoryOp?) && op.bill < |s.bills| && |t.bills| == |s.bills|
    && t.dues == s.dues && t.payments == s.payments
    && t.bills == s.bills[op.bill := if op.BillActiveOp? then s.bills[op.bill].(isActive := op.active)
                                     else s.bills[op.bill].(isObligatory := op.obligatory)]
    && (op.ObligatoryOp? ==> s.bills[op.bill].status == Unpaid)
  }

  lemma FlaggedTaken(s: State, op: Op, t: State)
    requires DuesKnown(s) && DuesKnown(t) && Flagged(s, op, t) && TakenWhole(s)
    ensures TakenWhole(t)
  {
    forall b | 0 <= b < |t.bills|
      ensures Whole(t, b) && Strict(t, b) == Strict(s, b) && t.bills[b].amount == s.bills[b].amount
    {
      assert Whole(s, b);
    }
  }

  lemma FlaggedOwes(s: State, op: Op, t: State, b: nat, c: nat)
    requires DuesKnown(s) && DuesKnown(t) && Flagged(s, op, t)
    ensures Strict(t, b) == Strict(s, b) && Group(t, b, c) == Group(s, b, c) && Ahead(t, b, c) == Ahead(s, b, c)
    ensures OwedBefore(t, c, b) ==>
      OwedBefore(s, c, b) || (Revives(s, op, c) && Group(s, b, c) && s.bills[c].period < s.bills[b].period)
    ensures Revives(s, op, c) && Group(s, b, c) && s.bills[c].period < s.bills[b].period ==> OwedBefore(t, c, b)
  {
  }

  lemma FlaggedKeepsExactly(s: State, op: Op, t: State)
    requires Inv(s) && Ordered(s) && DuesKnown(t) && Flagged(s, op, t)
    ensures Ordered(t) <==> !RevivedLate(s, op)
  {
    OrderedMeans(s);
    OrderedMeans(t);
    FlaggedTaken(s, op, t);
    forall b: nat, c: nat
      ensures Strict(t, b) && OwedBefore(t, c, b) && Ahead(t, b, c) ==> Revives(s, op, c) && Overtaken(s, c)
    {
      FlaggedOwes(s, op, t, b, c);
    }
    if c: nat :| Revives(s, op, c) && Overtaken(s, c) {
      var b: nat :| Strict(s, b) && Group(s, b, c) && s.bills[c].period < s.bills[b].period && Ahead(s, b, c);
      FlaggedOwes(s, op, t, b, c);
      assert !NoneAhead(t);
    }
  }

  /** Setting or clearing a flag keeps the order exactly when it does not let in a bill behind one that is ahead. */
  lemma FlagKeepsOrderExactly(s: State, op: Op)
    requires Inv(s) && Ordered(s) && (op.BillActiveOp? || op.ObligatoryOp?)
    ensures Ordered(Step(s, op)) <==> !RevivedLate(s, op)
  {
    var t := Step(s, op);
    if t != s {
      FlaggedKeepsExactly(s, op, t);
    } else {
      NothingRevived(s, op);
    }
  }

  lemma NothingRevived(s: State, op: Op)
    requires DuesKnown(s) && (op.BillActiveOp? || op.ObligatoryOp?) && Step(s, op) == s
    ensures !RevivedLate(s, op)
  {
    forall c: nat
      ensures !Revives(s, op, c)
    {
    }
  }

  // ----- All operations -----

  lemma PaymentKeepsOrder(s: State, op: Op)
    requires Inv(s) && Ordered(s) && Try(s, op).Ok? && (op.PayOp? || op.DonateOp? || op.PayManyOp? || op.VerifyOp?)
    ensures Ordered(Step(s, op))
  {
    match op
    case PayOp(c, b, amount, paidBy, at) => PayKeepsOrder(s, c, b, amount, paidBy, at);
    case DonateOp(c, d, amount, today, paidBy, at) => DonateKeepsOrder(s, c, d, amount, today, paidBy, at);
    case PayManyOp(c, billIds, allocs, stated, paidBy, at) =>
      PayManyKeepsOrder(s, c, billIds, allocs, stated, paidBy, at);
    case VerifyOp(verifier, id, decision) => VerifyKeepsOrder(s, verifier, id, decision);
  }

  lemma OtherKeepsOrder(s: State, op: Op)
    requires Inv(s) && Ordered(s) && Try(s, op).Ok? && (op.CancelOp? || op.DueActiveOp? || op.BookOp?)
    ensures Ordered(Step(s, op))
  {
    match op
    case CancelOp(b) => CancelKeepsOrder(s, b);
    case DueActiveOp(d, active, today) => DueActiveKeepsOrder(s, d, active, today);
    case BookOp(bookOp) => BooksKeepOrder(s, ApplyBooks(s.books, bookOp));
  }

  lemma ReverseStepExactly(s: State, op: Op)
    requires Inv(s) && Ordered(s) && op.ReverseOp?
    ensures Ordered(Step(s, op)) <==> !ReversedLate(s, op)
  {
    if Try(s, op).Ok? {
      ReversalKeepsOrderExactly(s, op.payment, op.at, Step(s, op));
    }
  }

  /** Whatever the operation, it keeps the order exactly when it does not come late. */
  lemma StepKeepsOrderExactly(s: State, op: Op)
    requires Inv(s) && Ordered(s)
    ensures Ordered(Step(s, op)) <==> OrderOp(s, op)
  {
    if op.AddBillOp? {
      IssueKeepsOrderExactly(s, op);
    } else if op.ReverseOp? {
      ReverseStepExactly(s, op);
    } else if op.BillActiveOp? || op.ObligatoryOp? {
      FlagKeepsOrderExactly(s, op);
    } else if Try(s, op).Ok? {
      if op.CancelOp? || op.DueActiveOp? || op.BookOp? {
        OtherKeepsOrder(s, op);
      } else {
        PaymentKeepsOrder(s, op);
      }
    }
  }

  lemma {:induction false} RunKeepsOrder(start: State, ops: seq<Op>)
    requires Fresh(start) && AdmissibleRun(start, ops)
    requires OrderRun(start, ops)
    ensures Inv(Run(start, ops)) && Ordered(Run(start, ops))
  {
    ReachableInv(start, ops);
    if ops != [] {
      RunKeepsOrder(start, ops[..|ops| - 1]);
      StepKeepsOrderExactly(Run(start, ops[..|ops| - 1]), ops[|ops| - 1]);
    }
  }

  /** Under the rule "full" a bill is never partly paid, and has at most one approved and one pending share. */
  lemma NeverPartlyPaid(start: State, ops: seq<Op>, b: nat)
    requires Fresh(start) && AdmissibleRun(start, ops)
    requires OrderRun(start, ops)
    requires Strict(Run(start, ops), b)
    ensures var s := Run(start, ops);
      && (ApprovedTotal(s, b) == 0 || ApprovedTotal(s, b) == s.bills[b].amount)
      && s.bills[b].status != Partial
      && PaymentCount(s.payments, b, Approved) <= 1 && PaymentCount(s.payments, b, Pending) <= 1
  {
    RunKeepsOrder(start, ops);
    assert Whole(Run(start, ops), b) && BillAgrees(Run(start, ops), b);
  }

  /** In an ordered state every earlier payable bill of a paid bill is paid in full. */
  lemma EarlierIsPaid(s: State, b: nat, c: nat)
    requires DuesKnown(s) && b < |s.bills| && c < |s.bills| && PaidInOrder(s, b) && Whole(s, c)
    requires Strict(s, b) && ApprovedTotal(s, b) > 0
    requires Group(s, b, c) && s.bills[c].period < s.bills[b].period && s.bills[c].amount >= 0
    requires s.bills[c].isActive && s.bills[c].isObligatory && s.bills[c].status != Cancelled
    ensures ApprovedTotal(s, c) == s.bills[c].amount
  {
    assert !OwedBefore(s, c, b);
  }

  /** If a bill is paid, every earlier active obligatory bill of its household and due is paid in full or cancelled. */
  lemma PaidOldestFirst(start: State, ops: seq<Op>, b: nat, c: nat)
    requires Fresh(start) && AdmissibleRun(start, ops)
    requires OrderRun(start, ops)
    requires b < |Run(start, ops).bills| && c < |Run(start, ops).bills|
    requires Strict(Run(start, ops), b) && ApprovedTotal(Run(start, ops), b) > 0
    requires Group(Run(start, ops), b, c) && Run(start, ops).bills[c].period < Run(start, ops).bills[b].period
    requires Run(start, ops).bills[c].isActive && Run(start, ops).bills[c].isObligatory
    requires Run(start, ops).bills[c].status != Cancelled
    ensures ApprovedTotal(Run(start, ops), c) == Run(start, ops).bills[c].amount
  {
    RunKeepsOrder(start, ops);
    EarlierIsPaid(Run(start, ops), b, c);
  }
}
