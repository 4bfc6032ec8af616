/** For every call of the payment engine: exactly when it is accepted, and everything an accepted call changes. */
module PaymentOutcomes {
  import opened Results
  import opened Ledger
  import opened PeriodBalance
  import opened FundLocation
  import opened Billing
  import opened Payments
  import opened PaymentInvariants
  import opened PaymentEffects
  import FifoOrder

  // ----- What a recorded payment does -----

  /** A payment that waits for a decision: one row more, its shares pending, nothing settled and nothing booked. */
  ghost predicate Waits(s: State, p: Payment, t: State) {
    && p.status == Pending && t.payments == s.payments + [p]
    && t.bills == s.bills && t.dues == s.dues && t.books == s.books
    && (forall b: nat :: PendingTotal(t, b) == PendingTotal(s, b) + Share(p, b))
    && (forall b: nat :: ApprovedTotal(t, b) == ApprovedTotal(s, b))
  }

  /** The books with one income of the payment's amount, linked to it, and with that money at the location. */
  ghost predicate Receives(b: Books, p: Payment, id: nat, location: Option<nat>, at: int, a: Books) {
    && a.txns == b.txns + [Txn(p.amount, Income, None, Some(id), location, at)]
    && NetBalance(a.txns) == NetBalance(b.txns) + p.amount
    && (forall l: nat ::
          LocationSum(a.changes, l) == LocationSum(b.changes, l) + if location == Some(l) then p.amount else 0)
    && a.locations == b.locations && a.transfers == b.transfers && a.openings == b.openings
  }

  /** The bill keeps everything but its status; a bill the payment does not reach keeps that too. */
  predicate OnlyStatus(s: State, p: Payment, t: State, b: nat)
    requires b < |s.bills| && b < |t.bills|
  {
    t.bills[b] == s.bills[b].(status := t.bills[b].status) && (!Covers(p, b) ==> t.bills[b] == s.bills[b])
  }

  /** A paid bill of a voluntary due: one that is paid alone is settled by any amount. */
  predicate VoluntarySettled(p: Payment, total: int, bill: Bill) {
    bill.status == if p.allocs == [] || total >= bill.amount then Paid else Partial
  }

  /** The payment counts: its shares are approved, its bills have the status of their new totals, its money is
      booked. */
  ghost predicate Counts(s: State, p: Payment, id: nat, location: Option<nat>, at: int, t: State)
    requires DuesKnown(s)
  {
    && t.dues == s.dues && |t.bills| == |s.bills| && Receives(s.books, p, id, location, at, t.books)
    && (forall b: nat :: ApprovedTotal(t, b) == ApprovedTotal(s, b) + Share(p, b))
    && (forall b: nat ::
          PendingTotal(t, b) == PendingTotal(s, b) - if id < |s.payments| then Share(p, b) else 0)
    && (forall b :: 0 <= b < |s.bills| ==> OnlyStatus(s, p, t, b))
    && (forall b :: 0 <= b < |s.bills| && Covers(p, b) ==>
          if DueOf(s, b).isVoluntary then VoluntarySettled(p, ApprovedTotal(t, b), t.bills[b])
          else StatusComputed(t, b))
  }

  lemma ReceivesOf(b: Books, p: Payment, id: nat, location: Option<nat>, at: int)
    ensures Receives(b, p, id, location, at, Post(b, IncomeOf(p, id, location, at)))
  {
    forall l: nat
      ensures LocationSum(Post(b, IncomeOf(p, id, location, at)).changes, l)
        == LocationSum(b.changes, l) + if location == Some(l) then p.amount else 0
    {
      PostMoves(b, IncomeOf(p, id, location, at), l);
    }
    PostMoves(b, IncomeOf(p, id, location, at), 0);
  }

  lemma PendingMoves(s: State, payments: seq<Payment>, p: Payment, id: nat, b: nat)
    requires Records(s, payments, p, id)
    ensures ShareTotal(payments, b, Pending)
      == ShareTotal(s.payments, b, Pending) - if id < |s.payments| then Share(p, b) else 0
  {
    if id == |s.payments| {
      AppendShare(s.payments, p, b, Pending);
    } else {
      UpdateShare(s.payments, id, p.(status := Approved), b, Pending);
    }
  }

  lemma SettledStatusMeans(s: State, p: Payment, t: State, b: nat)
    requires DuesKnown(s) && b < |s.bills| && Covers(p, b) && t.bills == SettledBills(s, p)
    requires ApprovedTotal(t, b) == ApprovedTotal(s, b) + Share(p, b) && ApprovedTotal(s, b) >= 0 && Share(p, b) > 0
    requires s.bills[b].amount >= 0
    requires !DueOf(s, b).isVoluntary ==> ApprovedTotal(t, b) <= s.bills[b].amount
    ensures if DueOf(s, b).isVoluntary then VoluntarySettled(p, ApprovedTotal(t, b), t.bills[b]) else StatusComputed(t, b)
  {
  }

  lemma SettledBillMeans(s: State, payments: seq<Payment>, p: Payment, id: nat, location: Option<nat>, at: int,
                         t: State,
                         b: nat)
    requires WellFormed(s) && DuesKnown(s) && Records(s, payments, p, id) && b < |s.bills|
    requires ValidPayment(p, |s.bills|) && Fits(s, p) && t == Settle(s, payments, p, id, location, at)
    ensures OnlyStatus(s, p, t, b)
    ensures Covers(p, b) ==>
      if DueOf(s, b).isVoluntary then VoluntarySettled(p, ApprovedTotal(t, b), t.bills[b]) else StatusComputed(t, b)
  {
    if Covers(p, b) {
      ApprovalTotals(s, payments, p, id, b);
      ShareSign(p, |s.bills|, b);
      ShareTotalSign(s.payments, |s.bills|, b, Approved);
      SettledStatusMeans(s, p, t, b);
    }
  }

  /** Settling a payment that fits makes it count. */
  lemma SettleCounts(s: State, payments: seq<Payment>, p: Payment, id: nat, location: Option<nat>, at: int, t: State)
    requires WellFormed(s) && DuesKnown(s) && Records(s, payments, p, id)
    requires ValidPayment(p, |s.bills|) && Fits(s, p) && t == Settle(s, payments, p, id, location, at)
    ensures Counts(s, p, id, location, at, t)
  {
    ReceivesOf(s.books, p, id, location, at);
    forall b: nat
      ensures ApprovedTotal(t, b) == ApprovedTotal(s, b) + Share(p, b)
      ensures PendingTotal(t, b) == PendingTotal(s, b) - if id < |s.payments| then Share(p, b) else 0
    {
      ApprovalTotals(s, payments, p, id, b);
      PendingMoves(s, payments, p, id, b);
    }
    forall b | 0 <= b < |s.bills|
      ensures OnlyStatus(s, p, t, b)
      ensures Covers(p, b) ==>
        if DueOf(s, b).isVoluntary then VoluntarySettled(p, ApprovedTotal(t, b), t.bills[b]) else StatusComputed(t, b)
    {
      SettledBillMeans(s, payments, p, id, location, at, t, b);
    }
  }

  lemma PendingWaits(s: State, p: Payment, t: State)
    requires p.status == Pending && t == s.(payments := s.payments + [p])
    ensures Waits(s, p, t)
  {
    forall b: nat
      ensures PendingTotal(t, b) == PendingTotal(s, b) + Share(p, b) && ApprovedTotal(t, b) == ApprovedTotal(s, b)
    {
      AppendShare(s.payments, p, b, Pending);
      AppendShare(s.payments, p, b, Approved);
    }
  }

  /** One new row `p`: waiting for a decision if a resident asked, counted at once if staff did. */
  ghost predicate Recorded(s: State, role: Role, p: Payment, at: int, t: State)
    requires DuesKnown(s)
  {
    && p.status == (if role.Warga? then Pending else Approved)
    && t.payments == s.payments + [p]
    && (role.Warga? ==> Waits(s, p, t))
    && (role.Staff? ==> Counts(s, p, |s.payments|, None, at, t))
  }

  // ----- Creating payments -----

  /** A payment of one bill is accepted exactly when the bill is payable and either voluntary or the oldest one owing,
      paid within what its rule allows. It is then recorded for that bill with the whole amount. */
  lemma BillPaymentExactly(s: State, c: Caller, b: nat, amount: int, paidBy: PaymentMethod, at: int)
    requires WellFormed(s) && DuesKnown(s)
    ensures var outcome := CreateBillPayment(s, c, b, amount, paidBy, at);
      && (outcome.Ok? <==>
            && amount > 0 && b < |s.bills| && Payable(s, c, b)
            && (DueOf(s, b).isVoluntary
                || (IsOldest(s, s.bills[b].occupancy, s.bills[b].due, b)
                    && FitsRule(DueOf(s, b), amount, Remaining(s, c.role, b)))))
      && (outcome.Ok? ==>
            var t := outcome.value;
            && |t.payments| > 0
            && var p := t.payments[|t.payments| - 1];
               p == Payment(ToBill(b), amount, paidBy, p.status, c.user, []) && Recorded(s, c.role, p, at, t))
  {
    if b < |s.bills| {
      PaymentAcceptedExactly(s, c, b, amount);
    }
    if CreateBillPayment(s, c, b, amount, paidBy, at).Ok? {
      BillPaymentRecorded(s, c, b, amount, paidBy, at, CreateBillPayment(s, c, b, amount, paidBy, at).value);
    }
  }

  lemma BillPaymentRecorded(s: State, c: Caller, b: nat, amount: int, paidBy: PaymentMethod, at: int, t: State)
    requires WellFormed(s) && DuesKnown(s) && CreateBillPayment(s, c, b, amount, paidBy, at) == Ok(t)
    ensures |t.payments| > 0
    ensures var p := t.payments[|t.payments| - 1];
      && p == Payment(ToBill(b), amount, paidBy, p.status, c.user, []) && Recorded(s, c.role, p, at, t)
  {
    var p := Payment(ToBill(b), amount, paidBy, if c.role.Warga? then Pending else Approved, c.user, []);
    if c.role.Warga? {
      PendingWaits(s, p, t);
    } else {
      BillPaymentFits(s, c, b, amount, paidBy, Approved);
      SettleCounts(s, s.payments + [p], p, |s.payments|, None, at, t);
    }
  }

  /** The due takes donations on that day: active, voluntary, without a set amount, and not past its last day. */
  predicate TakesDonations(s: State, d: nat, today: int) {
    && d < |s.dues| && s.dues[d].isActive && s.dues[d].isVoluntary && s.dues[d].amount == 0
    && (s.dues[d].validUntil == None || today <= s.dues[d].validUntil.value)
  }

  /** A donation is accepted exactly when its due takes donations, of a positive amount, from staff or a resident
      who lives somewhere. It is then recorded for its due and reaches no bill. */
  lemma DonationExactly(s: State, c: Caller, d: nat, amount: int, today: int, paidBy: PaymentMethod, at: int)
    requires WellFormed(s) && DuesKnown(s)
    ensures var outcome := CreateDonation(s, c, d, amount, today, paidBy, at);
      && (outcome.Ok? <==> amount > 0 && TakesDonations(s, d, today) && (c.role.Warga? ==> c.occupancy.Some?))
      && (outcome.Ok? ==>
            var t := outcome.value;
            && |t.payments| > 0 && t.bills == s.bills
            && var p := t.payments[|t.payments| - 1];
               p == Payment(ToDue(d), amount, paidBy, p.status, c.user, []) && Recorded(s, c.role, p, at, t))
  {
    var outcome := CreateDonation(s, c, d, amount, today, paidBy, at);
    if outcome.Ok? {
      DonationShape(s, c, d, amount, today, paidBy, at);
      var p := Payment(ToDue(d), amount, paidBy, if c.role.Warga? then Pending else Approved, c.user, []);
      if c.role.Warga? {
        PendingWaits(s, p, outcome.value);
      } else {
        DonationSettles(s, s.payments + [p], p, |s.payments|, None, at);
        SettleCounts(s, s.payments + [p], p, |s.payments|, None, at, outcome.value);
      }
    }
  }

  /** One to twelve different bills, each with one allocation and no allocation besides, and a stated total that is
      positive and theirs. */
  ghost predicate Matched(billIds: seq<nat>, allocs: seq<Alloc>, stated: Option<int>) {
    && 1 <= |billIds| <= 12 && |allocs| == |billIds|
    && (forall i, j :: 0 <= i < j < |billIds| ==> billIds[i] != billIds[j])
    && (forall i, j :: 0 <= i < j < |allocs| ==> allocs[i].bill != allocs[j].bill)
    && (forall b: nat :: b in billIds <==> exists i :: 0 <= i < |allocs| && allocs[i].bill == b)
    && (stated.Some? ==> stated.value > 0 && stated.value == AllocAmount(allocs))
  }

  /** Every bill is there, active and obligatory, and neither paid nor cancelled. */
  predicate AllOpen(s: State, allocs: seq<Alloc>) {
    forall i :: 0 <= i < |allocs| ==>
      && allocs[i].bill < |s.bills| && s.bills[allocs[i].bill].isActive && s.bills[allocs[i].bill].isObligatory
      && s.bills[allocs[i].bill].status in {Unpaid, Partial}
  }

  /** All bills are of one household: for a resident, of the resident's own. */
  predicate OfHousehold(s: State, c: Caller, allocs: seq<Alloc>)
    requires AllOpen(s, allocs)
  {
    && (forall i, j :: 0 <= i < |allocs| && 0 <= j < |allocs| ==>
          s.bills[allocs[i].bill].occupancy == s.bills[allocs[j].bill].occupancy)
    && (c.role.Warga? ==> forall i :: 0 <= i < |allocs| ==> c.occupancy == Some(s.bills[allocs[i].bill].occupancy))
  }

  /** No bill of a queue is skipped. */
  ghost predicate OldestFirst(s: State, allocs: seq<Alloc>)
    requires DuesKnown(s) && AllOpen(s, allocs)
  {
    forall i :: 0 <= i < |allocs| && !DueOf(s, allocs[i].bill).isVoluntary ==> NoneSkipped(s, allocs, allocs[i].bill)
  }

  /** Every allocation is positive and what its due's rule allows of the remaining balance. */
  predicate AllFit(s: State, role: Role, allocs: seq<Alloc>)
    requires DuesKnown(s) && AllOpen(s, allocs)
  {
    forall i :: 0 <= i < |allocs| ==>
      allocs[i].amount > 0 && FitsRule(DueOf(s, allocs[i].bill), allocs[i].amount, Remaining(s, role, allocs[i].bill))
  }

  /** Everything a multi-period request must meet. */
  ghost predicate Acceptable(s: State, c: Caller, billIds: seq<nat>, allocs: seq<Alloc>, stated: Option<int>)
    requires DuesKnown(s)
  {
    && Matched(billIds, allocs, stated) && AllOpen(s, allocs) && OfHousehold(s, c, allocs)
    && OldestFirst(s, allocs) && AllFit(s, c.role, allocs)
  }

  lemma RequestCheckExact(billIds: seq<nat>, allocs: seq<Alloc>, stated: Option<int>)
    ensures RequestError(billIds, allocs, stated).None? <==>
      Matched(billIds, allocs, stated) && forall i :: 0 <= i < |allocs| ==> allocs[i].amount >= 0
  {
    if Matched(billIds, allocs, stated) {
      forall i | 0 <= i < |billIds|
        ensures HasAlloc(allocs, billIds[i])
      {
        assert billIds[i] in billIds;
      }
      forall i | 0 <= i < |allocs|
        ensures allocs[i].bill in billIds
      {
      }
    }
    if RequestError(billIds, allocs, stated).None? {
      forall b: nat
        ensures b in billIds <==> exists i :: 0 <= i < |allocs| && allocs[i].bill == b
      {
        assert b in billIds <==> HasAlloc(allocs, b);
      }
    }
  }

  lemma LookupExact(s: State, allocs: seq<Alloc>)
    ensures FirstError(BillErrors(s, ByBill(allocs))).None? <==> AllOpen(s, allocs)
  {
    AllLookedUp(s, allocs);
    forall i | 0 <= i < |allocs|
      ensures BillError(s, allocs[i].bill).None? <==>
        && allocs[i].bill < |s.bills| && s.bills[allocs[i].bill].isActive && s.bills[allocs[i].bill].isObligatory
        && s.bills[allocs[i].bill].status in {Unpaid, Partial}
    {
    }
  }

  lemma AmountsExact(s: State, role: Role, allocs: seq<Alloc>)
    requires DuesKnown(s) && AllOpen(s, allocs)
    ensures FirstError(AllocErrors(s, role, allocs)).None? <==> AllFit(s, role, allocs)
  {
    var errors := AllocErrors(s, role, allocs);
    assert forall i :: 0 <= i < |allocs| ==> errors[i] == AllocError(s, role, allocs[i]);
  }

  /** Past the lookup, the remaining checks are those of household, order and amounts. */
  lemma LaterChecksExact(s: State, c: Caller, allocs: seq<Alloc>)
    requires WellFormed(s) && DuesKnown(s) && allocs != [] && DistinctBills(allocs) && AllOpen(s, allocs)
    ensures var occupancy := s.bills[allocs[0].bill].occupancy;
      && OneHousehold(s, allocs) && FirstError(QueueErrors(s, allocs, occupancy)).None?
      && (c.role.Warga? ==> c.occupancy == Some(occupancy)) && FirstError(AllocErrors(s, c.role, allocs)).None?
      <==> OfHousehold(s, c, allocs) && OldestFirst(s, allocs) && AllFit(s, c.role, allocs)
  {
    AmountsExact(s, c.role, allocs);
    assert OfHousehold(s, c, allocs) ==> OneHousehold(s, allocs);
    if OneHousehold(s, allocs) {
      QueueCheckExact(s, allocs, s.bills[allocs[0].bill].occupancy);
    }
  }

  /** A payment of several bills is accepted exactly when the request is acceptable. */
  lemma MultiAcceptedExactly(s: State, c: Caller, billIds: seq<nat>, allocs: seq<Alloc>, stated: Option<int>,
                             paidBy: PaymentMethod, at: int)
    requires WellFormed(s) && DuesKnown(s)
    ensures CreateMultiPayment(s, c, billIds, allocs, stated, paidBy, at).Ok? <==>
      Acceptable(s, c, billIds, allocs, stated)
  {
    RequestCheckExact(billIds, allocs, stated);
    LookupExact(s, allocs);
    if RequestError(billIds, allocs, stated).None? && AllOpen(s, allocs) {
      LaterChecksExact(s, c, allocs);
    }
  }

  lemma MultiShape(s: State, c: Caller, billIds: seq<nat>, allocs: seq<Alloc>, stated: Option<int>,
                   paidBy: PaymentMethod, at: int, t: State)
    requires DuesKnown(s) && CreateMultiPayment(s, c, billIds, allocs, stated, paidBy, at) == Ok(t)
    ensures ManyError(s, c, billIds, allocs, stated).None? && allocs != []
    ensures var p := ManyPayment(c, allocs, paidBy, if c.role.Warga? then Pending else Approved);
      t == if c.role.Warga? then s.(payments := s.payments + [p])
        else Settle(s, s.payments + [p], p, |s.payments|, None, at)
  {
  }

  /** The last row is one payment of the sum of the allocations, to the first bill, by the caller. */
  ghost predicate RecordedMany(s: State, c: Caller, allocs: seq<Alloc>, paidBy: PaymentMethod, at: int, t: State)
    requires DuesKnown(s)
  {
    && allocs != [] && |t.payments| > 0
    && var p := t.payments[|t.payments| - 1];
       && p == Payment(ToBill(allocs[0].bill), AllocAmount(allocs), paidBy, p.status, c.user, allocs)
       && Recorded(s, c.role, p, at, t)
  }

  lemma ManyRecorded(s: State, c: Caller, billIds: seq<nat>, allocs: seq<Alloc>, stated: Option<int>, p: Payment,
                     at: int, t: State)
    requires WellFormed(s) && DuesKnown(s) && ManyError(s, c, billIds, allocs, stated).None?
    requires p == ManyPayment(c, allocs, p.paidBy, if c.role.Warga? then Pending else Approved)
    requires t == if c.role.Warga? then s.(payments := s.payments + [p])
      else Settle(s, s.payments + [p], p, |s.payments|, None, at)
    ensures RecordedMany(s, c, allocs, p.paidBy, at, t)
  {
    if c.role.Warga? {
      PendingWaits(s, p, t);
    } else {
      ManyFits(s, c, billIds, allocs, stated, p.paidBy, Approved);
      SettleCounts(s, s.payments + [p], p, |s.payments|, None, at, t);
    }
  }

  /** An accepted request is recorded as one payment of the sum of its allocations. */
  lemma MultiPaymentRecorded(s: State, c: Caller, billIds: seq<nat>, allocs: seq<Alloc>, stated: Option<int>,
                             paidBy: PaymentMethod, at: int, t: State)
    requires WellFormed(s) && DuesKnown(s) && CreateMultiPayment(s, c, billIds, allocs, stated, paidBy, at) == Ok(t)
    ensures RecordedMany(s, c, allocs, paidBy, at, t)
  {
    MultiShape(s, c, billIds, allocs, stated, paidBy, at, t);
    var p := ManyPayment(c, allocs, paidBy, if c.role.Warga? then Pending else Approved);
    ManyRecorded(s, c, billIds, allocs, stated, p, at, t);
  }

  // ----- Deciding payments -----

  /** The payment leaves its bills: what it reserved is free again, and nothing is booked. */
  ghost predicate Dropped(s: State, p: Payment, t: State)
    requires DuesKnown(s)
  {
    && t.dues == s.dues && t.books == s.books && |t.bills| == |s.bills|
    && (forall b: nat :: PendingTotal(t, b) == PendingTotal(s, b) - Share(p, b))
    && (forall b: nat :: ApprovedTotal(t, b) == ApprovedTotal(s, b))
    && (forall b :: 0 <= b < |s.bills| ==>
          OnlyStatus(s, p, t, b) && (!DueOf(s, b).isVoluntary ==> t.bills[b] == s.bills[b]))
  }

  /** Every bill the payment covers has the status of its approved total, unless cancelled. */
  predicate Recomputed(p: Payment, t: State) {
    forall b :: 0 <= b < |t.bills| && Covers(p, b) && t.bills[b].status != Cancelled ==> StatusComputed(t, b)
  }

  lemma RejectedTotals(s: State, id: nat, b: nat)
    requires id < |s.payments| && s.payments[id].status == Pending
    ensures ShareTotal(WithStatus(s, id, Rejected), b, Pending)
      == ShareTotal(s.payments, b, Pending) - Share(s.payments[id], b)
    ensures ShareTotal(WithStatus(s, id, Rejected), b, Approved) == ShareTotal(s.payments, b, Approved)
  {
    UpdateShare(s.payments, id, s.payments[id].(status := Rejected), b, Pending);
    UpdateShare(s.payments, id, s.payments[id].(status := Rejected), b, Approved);
  }

  lemma RejectionDrops(s: State, id: nat, t: State)
    requires DuesKnown(s) && BillsAgree(s) && id < |s.payments| && s.payments[id].status == Pending
    requires t == RejectPayment(s, id) || t == s.(payments := WithStatus(s, id, Rejected))
    ensures t.payments == s.payments[id := s.payments[id].(status := Rejected)]
    ensures Dropped(s, s.payments[id], t)
    ensures t == RejectPayment(s, id) ==> Recomputed(s.payments[id], t)
  {
    forall b: nat
      ensures PendingTotal(t, b) == PendingTotal(s, b) - Share(s.payments[id], b)
      ensures ApprovedTotal(t, b) == ApprovedTotal(s, b)
    {
      RejectedTotals(s, id, b);
    }
    forall b | 0 <= b < |s.bills|
      ensures OnlyStatus(s, s.payments[id], t, b) && (!DueOf(s, b).isVoluntary ==> t.bills[b] == s.bills[b])
    {
      assert BillAgrees(s, b);
      RejectedTotals(s, id, b);
    }
  }

  /** The status a decision gives a payment. */
  function DecidedStatus(decision: Decision, overpaid: bool): PaymentStatus {
    if decision.Approve? && !overpaid then Approved else Rejected
  }

  /** An accepted decision marks the payment, and only it: a rejection, or an approval that finds too little room, frees
      what it reserved; an approval makes it count. A rejection also recomputes the statuses of its bills. */
  lemma DecisionRecorded(s: State, verifier: nat, id: nat, decision: Decision, v: Verified)
    requires Inv(s) && VerifyPayment(s, verifier, id, decision) == Ok(v)
    ensures id < |s.payments| && s.payments[id].status == Pending && (v.overpaid ==> decision.Approve?)
    ensures v.state.payments == s.payments[id := s.payments[id].(status := DecidedStatus(decision, v.overpaid))]
    ensures DecidedStatus(decision, v.overpaid) == Rejected ==> Dropped(s, s.payments[id], v.state)
    ensures decision.Reject? ==> Recomputed(s.payments[id], v.state)
    ensures v.overpaid ==> v.state.bills == s.bills
    ensures DecidedStatus(decision, v.overpaid) == Approved ==>
      decision.at.Some? && Counts(s, s.payments[id], id, decision.location, decision.at.value, v.state)
  {
    if decision.Reject? {
      RejectionDrops(s, id, v.state);
    } else if v.overpaid {
      RejectionDrops(s, id, v.state);
    } else {
      ApprovalIsSettle(s, verifier, id, decision.location, decision.at.value, decision.enforced);
      SettleCounts(s, WithStatus(s, id, Approved), s.payments[id], id, decision.location, decision.at.value, v.state);
    }
  }

  /** A decided payment cannot be decided again, by anybody. */
  lemma DecidedOnce(s: State, verifier: nat, id: nat, decision: Decision, v: Verified, other: nat, again: Decision)
    requires Inv(s) && VerifyPayment(s, verifier, id, decision) == Ok(v)
    ensures DuesKnown(v.state) && VerifyPayment(v.state, other, id, again) == Err(NotPending)
  {
    VerifyKeeps(s, verifier, id, decision);
    DecisionRecorded(s, verifier, id, decision, v);
  }

  /** An approval turns into a rejection exactly for a single payment of an open bill with too little left. Approving a
      donation succeeds exactly if its due exists and is still voluntary. */
  lemma ApprovalVerdict(s: State, verifier: nat, id: nat, decision: Decision)
    requires Inv(s) && decision.Approve? && MayVerify(s, verifier, id, decision)
    ensures var outcome, p := VerifyPayment(s, verifier, id, decision), s.payments[id];
      && ((outcome.Ok? && outcome.value.overpaid) <==>
            (p.target.ToBill? && p.allocs == [] && !DueOf(s, p.target.bill).isVoluntary
             && AllOpen(s, [Alloc(p.target.bill, p.amount)])
             && ApprovedTotal(s, p.target.bill) + p.amount > s.bills[p.target.bill].amount))
      && (p.target.ToDue? ==>
            (outcome.Ok? <==> p.target.due < |s.dues| && s.dues[p.target.due].isVoluntary))
  {
    var p := s.payments[id];
    if p.target.ToBill? && p.allocs == [] {
      assert AllOpen(s, [Alloc(p.target.bill, p.amount)]) <==>
        BillError(s, [Alloc(p.target.bill, p.amount)][0].bill).None?;
    }
  }

  // ----- Reversing payments -----

  lemma {:induction false} SingleRow(txns: seq<Txn>, id: nat, i: nat, j: nat)
    requires IncomeRows(txns, id) <= 1 && i < |txns| && j < |txns| && IsIncomeRow(txns[i], id) && IsIncomeRow(txns[j], id)
    ensures i == j
  {
    var init := txns[..|txns| - 1];
    if i < |init| && j < |init| {
      SingleRow(init, id, i, j);
    } else if i != j {
      RowCounted(init, id, if i < j then i else j);
    }
  }

  lemma {:induction false} RowCounted(txns: seq<Txn>, id: nat, i: nat)
    requires i < |txns| && IsIncomeRow(txns[i], id)
    ensures IncomeRows(txns, id) > 0
  {
    if i < |txns| - 1 {
      RowCounted(txns[..|txns| - 1], id, i);
    }
  }

  /** Wherever the payment's money was booked, that location still holds as much. */
  predicate StillThere(s: State, id: nat)
    requires id < |s.payments|
  {
    forall i :: 0 <= i < |s.books.txns| && IsIncomeRow(s.books.txns[i], id) && s.books.txns[i].location.Some? ==>
      LocationSum(s.books.changes, s.books.txns[i].location.value) >= s.payments[id].amount
  }

  /** A payment is reversed exactly while it is approved and its location still holds its money. */
  lemma ReversalAcceptedExactly(s: State, id: nat, at: int)
    requires Inv(s)
    ensures ReversePayment(s, id, at).Ok? <==>
      id < |s.payments| && s.payments[id].status == Approved && StillThere(s, id)
  {
    if id < |s.payments| && s.payments[id].status == Approved {
      var row := FirstIncomeRow(s.books.txns, id);
      RowExists(s.books.txns, id);
      assert row.Some?;
      forall i | 0 <= i < |s.books.txns| && IsIncomeRow(s.books.txns[i], id)
        ensures i == row.value
      {
        SingleRow(s.books.txns, id, i, row.value);
      }
      assert ValidPayment(s.payments[id], |s.bills|);
    }
  }

  /** The books with the income row taken back: as much leaves the cash and the location of that row. */
  ghost predicate TakesBack(b: Books, p: Payment, id: nat, row: nat, at: int, a: Books)
    requires row < |b.txns|
  {
    && IsIncomeRow(b.txns[row], id)
    && a.txns == b.txns + [Txn(p.amount, Expense, Some(row), Some(id), b.txns[row].location, at)]
    && NetBalance(a.txns) == NetBalance(b.txns) - p.amount
    && (forall l: nat :: LocationSum(a.changes, l)
          == LocationSum(b.changes, l) - if b.txns[row].location == Some(l) then p.amount else 0)
    && a.locations == b.locations && a.transfers == b.transfers && a.openings == b.openings
  }

  lemma TakesBackOf(b: Books, p: Payment, id: nat, row: nat, at: int, a: Books)
    requires row < |b.txns| && IsIncomeRow(b.txns[row], id)
    requires a == Post(b, CompensationOf(p, id, row, b.txns[row].location, at))
    ensures TakesBack(b, p, id, row, at, a)
  {
    var t := CompensationOf(p, id, row, b.txns[row].location, at);
    forall l: nat
      ensures LocationSum(a.changes, l)
        == LocationSum(b.changes, l) - if b.txns[row].location == Some(l) then p.amount else 0
    {
      PostMoves(b, t, l);
    }
    PostMoves(b, t, 0);
  }

  /** The payment no longer counts: its shares leave the approved totals and its bills get the status of what is
      left. */
  ghost predicate Uncounted(s: State, p: Payment, t: State) {
    && t.dues == s.dues && |t.bills| == |s.bills|
    && (forall b: nat :: ApprovedTotal(t, b) == ApprovedTotal(s, b) - Share(p, b))
    && (forall b: nat :: PendingTotal(t, b) == PendingTotal(s, b))
    && (forall b :: 0 <= b < |s.bills| ==> OnlyStatus(s, p, t, b) && (Covers(p, b) ==> StatusComputed(t, b)))
  }

  lemma ReversedBillComputed(s: State, id: nat, at: int, t: State, b: nat)
    requires WellFormed(s) && DuesKnown(s) && BillsAgree(s) && ReversePayment(s, id, at) == Ok(t) && b < |s.bills|
    ensures |t.bills| == |s.bills| && OnlyStatus(s, s.payments[id], t, b)
    ensures Covers(s.payments[id], b) ==> StatusComputed(t, b)
  {
    ShareSign(s.payments[id], |s.bills|, b);
    ShareTotalSign(s.payments, |s.bills|, b, Approved);
    assert BillAgrees(s, b);
  }

  lemma ReversalBooks(s: State, id: nat, at: int, t: State)
    requires ReversePayment(s, id, at) == Ok(t)
    ensures id < |s.payments| && FirstIncomeRow(s.books.txns, id).Some?
    ensures t.payments == s.payments[id := s.payments[id].(status := Reversed)]
    ensures TakesBack(s.books, s.payments[id], id, FirstIncomeRow(s.books.txns, id).value, at, t.books)
  {
    TakesBackOf(s.books, s.payments[id], id, FirstIncomeRow(s.books.txns, id).value, at, t.books);
  }

  /** A reversed payment is marked, no longer counts, and its money leaves the books where it was booked.
      It cannot be reversed again. */
  lemma ReversalRecorded(s: State, id: nat, at: int, t: State, again: int)
    requires Inv(s) && ReversePayment(s, id, at) == Ok(t)
    ensures id < |s.payments| && t.payments == s.payments[id := s.payments[id].(status := Reversed)]
    ensures Uncounted(s, s.payments[id], t)
    ensures exists row: nat :: row < |s.books.txns| && TakesBack(s.books, s.payments[id], id, row, at, t.books)
    ensures ReversePayment(t, id, again) == Err(NotApproved)
  {
    ReversalBooks(s, id, at, t);
    forall b: nat
      ensures ApprovedTotal(t, b) == ApprovedTotal(s, b) - Share(s.payments[id], b)
      ensures PendingTotal(t, b) == PendingTotal(s, b)
    {
      ReversalTotals(s, id, b);
      UpdateShare(s.payments, id, s.payments[id].(status := Reversed), b, Pending);
    }
    forall b | 0 <= b < |s.bills|
      ensures OnlyStatus(s, s.payments[id], t, b) && (Covers(s.payments[id], b) ==> StatusComputed(t, b))
    {
      ReversedBillComputed(s, id, at, t, b);
    }
  }

  // ----- Bills and dues -----

  /** Neither one bill alone nor any request with it among others is accepted. */
  ghost predicate TakesNoPayment(s: State, b: nat)
    requires DuesKnown(s)
  {
    && (forall c: Caller, amount: int :: SinglePayError(s, c, b, amount).Some?)
    && (forall c: Caller, billIds: seq<nat>, allocs: seq<Alloc>, stated: Option<int> ::
          HasAlloc(allocs, b) ==> ManyError(s, c, billIds, allocs, stated).Some?)
  }

  lemma ClosedTakesNoPayment(s: State, b: nat)
    requires WellFormed(s) && DuesKnown(s) && b < |s.bills|
    requires s.bills[b].status == Cancelled || !s.bills[b].isActive
    ensures TakesNoPayment(s, b)
  {
    forall c: Caller, billIds: seq<nat>, allocs: seq<Alloc>, stated: Option<int> | HasAlloc(allocs, b)
      ensures ManyError(s, c, billIds, allocs, stated).Some?
    {
      LookupExact(s, allocs);
    }
  }

  /** Row `b` is replaced, every other table and row stays. */
  predicate OneBill(s: State, b: nat, t: State) {
    && b < |s.bills| && |t.bills| == |s.bills| && t.dues == s.dues && t.payments == s.payments && t.books == s.books
    && forall k :: 0 <= k < |s.bills| && k != b ==> t.bills[k] == s.bills[k]
  }

  /** A bill is cancelled exactly while it is unpaid and no approved payment reaches it; then nobody can pay it. */
  lemma CancelExactly(s: State, b: nat)
    requires Inv(s)
    ensures CancelBill(s, b).Ok? <==>
      b < |s.bills| && s.bills[b].status == Unpaid
      && forall i :: 0 <= i < |s.payments| && s.payments[i].status == Approved ==> !Covers(s.payments[i], b)
    ensures CancelBill(s, b).Ok? ==>
      var t := CancelBill(s, b).value;
      && OneBill(s, b, t) && t.bills[b] == s.bills[b].(status := Cancelled)
      && DuesKnown(t) && TakesNoPayment(t, b)
  {
    CountMeansCovered(s.payments, b, Approved);
    if CancelBill(s, b).Ok? {
      CancelKeeps(s, b);
      ClosedTakesNoPayment(CancelBill(s, b).value, b);
    }
  }

  lemma {:induction false} CountMeansCovered(payments: seq<Payment>, b: nat, status: PaymentStatus)
    ensures PaymentCount(payments, b, status) > 0 <==>
      exists i :: 0 <= i < |payments| && payments[i].status == status && Covers(payments[i], b)
  {
    if payments != [] {
      var init := payments[..|payments| - 1];
      CountMeansCovered(init, b, status);
      assert forall i :: 0 <= i < |init| ==> init[i] == payments[i];
      if payments[|payments| - 1].status == status && Covers(payments[|payments| - 1], b) {
        assert payments[|payments| - 1].status == status;
      }
    }
  }

  /** A bill of a non-voluntary due cannot be deactivated exactly once it is paid in full; every bill can be
      reactivated. While it is inactive nobody can pay it. */
  lemma BillActiveExactly(s: State, b: nat, active: bool)
    requires Inv(s) && b < |s.bills|
    ensures !DueOf(s, b).isVoluntary ==>
      (SetBillActive(s, b, active).Err? <==> !active && s.bills[b].amount > 0 && ApprovedTotal(s, b) == s.bills[b].amount)
    ensures DueOf(s, b).isVoluntary ==>
      (SetBillActive(s, b, active).Err? <==>
         !active && (s.bills[b].status == Paid || 0 < s.bills[b].amount <= ApprovedTotal(s, b)))
    ensures SetBillActive(s, b, active).Ok? ==>
      var t := SetBillActive(s, b, active).value;
      && OneBill(s, b, t) && t.bills[b] == s.bills[b].(isActive := active)
      && DuesKnown(t) && (!active ==> TakesNoPayment(t, b))
  {
    assert BillAgrees(s, b);
    if SetBillActive(s, b, active).Ok? && !active {
      BillActiveKeeps(s, b, active);
      ClosedTakesNoPayment(SetBillActive(s, b, active).value, b);
    }
  }

  /** Issuing leaves exactly one more bill, unpaid and active, unless its key was there; issuing it again changes
      nothing. */
  lemma IssueExactly(s: State, o: nat, d: nat, amount: int, period: nat, dueDate: nat, obligatory: bool)
    ensures AddBill(s, o, d, amount, period, dueDate, obligatory).Ok? <==> d < |s.dues| && amount >= 0
    ensures AddBill(s, o, d, amount, period, dueDate, obligatory).Ok? ==>
      var t := AddBill(s, o, d, amount, period, dueDate, obligatory).value;
      && HasKey(t.bills, o, d, period) && t.dues == s.dues && t.payments == s.payments && t.books == s.books
      && t.bills == (if HasKey(s.bills, o, d, period) then s.bills
                     else s.bills + [Bill(o, d, amount, period, dueDate, Unpaid, true, obligatory)])
      && AddBill(t, o, d, amount, period, dueDate, obligatory) == Ok(t)
  {
    var outcome := AddBill(s, o, d, amount, period, dueDate, obligatory);
    if outcome.Ok? && !HasKey(s.bills, o, d, period) {
      assert SameKey(outcome.value.bills[|s.bills|], o, d, period);
    }
  }

  /** The obligation flag moves only while the bill is unpaid. */
  lemma ObligatoryExactly(s: State, b: nat, obligatory: bool)
    ensures SetObligatory(s, b, obligatory).Ok? <==> b < |s.bills|
    ensures b < |s.bills| ==>
      var t := SetObligatory(s, b, obligatory).value;
      && OneBill(s, b, t) && t.bills[b] == s.bills[b].(isObligatory := t.bills[b].isObligatory)
      && (t.bills[b].isObligatory == if s.bills[b].status == Unpaid then obligatory else s.bills[b].isObligatory)
  {
  }

  /** One due is opened or closed. */
  predicate DueFlagged(s: State, d: nat, active: bool, t: State) {
    && t.bills == s.bills && t.payments == s.payments && t.books == s.books && |t.dues| == |s.dues| && d < |s.dues|
    && forall k :: 0 <= k < |s.dues| ==> t.dues[k] == if k == d then s.dues[k].(isActive := active) else s.dues[k]
  }

  /** A due is closed whenever it is there; a voluntary one is not opened again after its last day. While it is closed
      it takes no donation and, unless voluntary, no payment of one of its bills. */
  lemma DueActiveExactly(s: State, d: nat, active: bool, today: int, c: Caller, amount: int, day: int,
                         paidBy: PaymentMethod,
                         at: int)
    requires DuesKnown(s)
    ensures SetDueActive(s, d, active, today).Ok? <==>
      && d < |s.dues|
      && (active && s.dues[d].isVoluntary && s.dues[d].validUntil.Some? ==> today <= s.dues[d].validUntil.value)
    ensures SetDueActive(s, d, active, today).Ok? ==>
      var t := SetDueActive(s, d, active, today).value;
      && DueFlagged(s, d, active, t) && DuesKnown(t)
      && (!active ==> CreateDonation(t, c, d, amount, day, paidBy, at).Err?)
      && (!active ==> forall b: nat :: b < |t.bills| && t.bills[b].due == d && !t.dues[d].isVoluntary ==>
            SinglePayError(t, c, b, amount).Some?)
  {
  }

  lemma SameSkips(s: State, t: State, allocs: seq<Alloc>, b: nat)
    requires t == s.(dues := t.dues)
    ensures NoneSkipped(s, allocs, b) <==> NoneSkipped(t, allocs, b)
  {
    forall e: nat
      ensures FifoOrder.OwedBefore(s, e, b) <==> FifoOrder.OwedBefore(t, e, b)
    {
    }
  }

  lemma SameOrder(s: State, d: nat, active: bool, t: State, allocs: seq<Alloc>)
    requires DuesKnown(s) && DueFlagged(s, d, active, t) && DuesKnown(t) && AllOpen(s, allocs) && AllOpen(t, allocs)
    ensures OldestFirst(s, allocs) <==> OldestFirst(t, allocs)
  {
    forall i | 0 <= i < |allocs|
      ensures NoneSkipped(s, allocs, allocs[i].bill) <==> NoneSkipped(t, allocs, allocs[i].bill)
      ensures DueOf(s, allocs[i].bill).isVoluntary <==> DueOf(t, allocs[i].bill).isVoluntary
    {
      SameSkips(s, t, allocs, allocs[i].bill);
    }
  }

  lemma SameRoom(s: State, d: nat, active: bool, t: State, role: Role, allocs: seq<Alloc>)
    requires DuesKnown(s) && DueFlagged(s, d, active, t) && DuesKnown(t) && AllOpen(s, allocs) && AllOpen(t, allocs)
    ensures AllFit(s, role, allocs) <==> AllFit(t, role, allocs)
  {
    forall i | 0 <= i < |allocs|
      ensures Remaining(s, role, allocs[i].bill) == Remaining(t, role, allocs[i].bill)
      ensures DueOf(s, allocs[i].bill).rule == DueOf(t, allocs[i].bill).rule
    {
    }
  }

  lemma SameAcceptable(s: State, d: nat, active: bool, t: State, c: Caller, billIds: seq<nat>, allocs: seq<Alloc>,
                       stated: Option<int>)
    requires DuesKnown(s) && DueFlagged(s, d, active, t) && DuesKnown(t)
    ensures Acceptable(s, c, billIds, allocs, stated) <==> Acceptable(t, c, billIds, allocs, stated)
  {
    assert AllOpen(s, allocs) <==> AllOpen(t, allocs);
    if AllOpen(s, allocs) {
      SameOrder(s, d, active, t, allocs);
      SameRoom(s, d, active, t, c.role, allocs);
      assert OfHousehold(s, c, allocs) <==> OfHousehold(t, c, allocs);
    }
  }

  /** A request for several bills does not look whether their dues are active: opening or closing one changes
      nothing. */
  lemma ClosedDueStillInRequests(s: State, d: nat, active: bool, today: int, t: State, c: Caller, billIds: seq<nat>,
                                 allocs: seq<Alloc>, stated: Option<int>, paidBy: PaymentMethod, at: int)
    requires WellFormed(s) && DuesKnown(s) && SetDueActive(s, d, active, today) == Ok(t)
    ensures DuesKnown(t)
    ensures CreateMultiPayment(t, c, billIds, allocs, stated, paidBy, at).Ok? <==>
      CreateMultiPayment(s, c, billIds, allocs, stated, paidBy, at).Ok?
  {
    MultiAcceptedExactly(s, c, billIds, allocs, stated, paidBy, at);
    MultiAcceptedExactly(t, c, billIds, allocs, stated, paidBy, at);
    SameAcceptable(s, d, active, t, c, billIds, allocs, stated);
  }
}
