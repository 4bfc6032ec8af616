/** Pending payments reserve room on their bills: without staff payments an approval never finds its bill full. */
module Reservations {
  import opened Results
  import opened Ledger
  import opened FundLocation
  import opened Billing
  import opened Payments
  import opened PaymentInvariants
  import opened PaymentEffects

  /** No payment of a bill is recorded by staff. */
  predicate ByResidents(op: Op) {
    match op
    case PayOp(c, _, _, _, _) => c.role.Warga?
    case PayManyOp(c, _, _, _, _, _) => c.role.Warga?
    case _ => true
  }

  ghost predicate RoomOn(s: State, b: nat)
    requires DuesKnown(s) && b < |s.bills|
  {
    !DueOf(s, b).isVoluntary ==> ApprovedTotal(s, b) + PendingTotal(s, b) <= s.bills[b].amount
  }

  ghost predicate Reserved(s: State)
    requires DuesKnown(s)
  {
    forall b :: 0 <= b < |s.bills| ==> RoomOn(s, b)
  }

  lemma {:induction false} PendingShares(s: State, p: Payment, b: nat)
    ensures ShareTotal(s.payments + [p], b, Pending)
      == ShareTotal(s.payments, b, Pending) + if p.status == Pending then Share(p, b) else 0
    ensures ShareTotal(s.payments + [p], b, Approved)
      == ShareTotal(s.payments, b, Approved) + if p.status == Approved then Share(p, b) else 0
  {
    AppendShare(s.payments, p, b, Pending);
    AppendShare(s.payments, p, b, Approved);
  }

  /** A status change of one payment moves its share between the totals. */
  lemma MovedShares(s: State, id: nat, status: PaymentStatus, b: nat)
    requires WellFormed(s) && id < |s.payments|
    ensures var payments, p := WithStatus(s, id, status), s.payments[id];
      ShareTotal(payments, b, Approved) + ShareTotal(payments, b, Pending)
      == ShareTotal(s.payments, b, Approved) + ShareTotal(s.payments, b, Pending)
         - (if p.status in {Approved, Pending} then Share(p, b) else 0)
         + (if status in {Approved, Pending} then Share(p, b) else 0)
    ensures Share(s.payments[id], b) >= 0
  {
    var q := s.payments[id].(status := status);
    UpdateShare(s.payments, id, q, b, Approved);
    UpdateShare(s.payments, id, q, b, Pending);
    ShareSign(s.payments[id], |s.bills|, b);
  }

  /** A pending payment that leaves room on every bill it adds to. */
  lemma AddedKeepsRoom(s: State, p: Payment, t: State)
    requires DuesKnown(s) && DuesKnown(t) && Reserved(s) && p.status == Pending
    requires t.bills == s.bills && t.dues == s.dues && t.payments == s.payments + [p]
    requires forall b :: 0 <= b < |s.bills| && !DueOf(s, b).isVoluntary && Share(p, b) != 0 ==>
      ApprovedTotal(s, b) + PendingTotal(s, b) + Share(p, b) <= s.bills[b].amount
    ensures Reserved(t)
  {
    forall b | 0 <= b < |t.bills|
      ensures RoomOn(t, b)
    {
      assert RoomOn(s, b);
      PendingShares(s, p, b);
    }
  }

  lemma ResidentPayKeepsRoom(s: State, c: Caller, bill: nat, amount: int, paidBy: PaymentMethod, at: int, t: State)
    requires DuesKnown(s) && Reserved(s) && c.role.Warga? && CreateBillPayment(s, c, bill, amount, paidBy, at) == Ok(t)
    requires DuesKnown(t)
    ensures Reserved(t)
  {
    AddedKeepsRoom(s, Payment(ToBill(bill), amount, paidBy, Pending, c.user, []), t);
  }

  /** Each allocation of an accepted request leaves room on its bill. */
  lemma RequestLeavesRoom(s: State, c: Caller, billIds: seq<nat>, allocs: seq<Alloc>, stated: Option<int>,
                          p: Payment, b: nat)
    requires WellFormed(s) && DuesKnown(s) && c.role.Warga? && ManyError(s, c, billIds, allocs, stated).None?
    requires p == ManyPayment(c, allocs, p.paidBy, Pending) && b < |s.bills| && Share(p, b) != 0
    ensures ApprovedTotal(s, b) + PendingTotal(s, b) + Share(p, b) <= s.bills[b].amount
  {
    ManyFits(s, c, billIds, allocs, stated, p.paidBy, Pending);
    ShareSign(p, |s.bills|, b);
    var i :| 0 <= i < |allocs| && allocs[i].bill == b;
    ManyChecks(s, c, billIds, allocs, stated, i);
    AllocSumOf(allocs, b);
  }

  lemma ResidentPayManyKeepsRoom(s: State, c: Caller, billIds: seq<nat>, allocs: seq<Alloc>, stated: Option<int>,
                                 paidBy: PaymentMethod, at: int, t: State)
    requires WellFormed(s) && DuesKnown(s) && Reserved(s) && c.role.Warga?
    requires CreateMultiPayment(s, c, billIds, allocs, stated, paidBy, at) == Ok(t) && DuesKnown(t)
    ensures Reserved(t)
  {
    var p := ManyPayment(c, allocs, paidBy, Pending);
    forall b | 0 <= b < |s.bills| && Share(p, b) != 0
      ensures ApprovedTotal(s, b) + PendingTotal(s, b) + Share(p, b) <= s.bills[b].amount
    {
      RequestLeavesRoom(s, c, billIds, allocs, stated, p, b);
    }
    AddedKeepsRoom(s, p, t);
  }

  /** A payment that counted already may move between pending and approved, or stop counting. */
  lemma MovedKeepsRoom(s: State, id: nat, status: PaymentStatus, t: State)
    requires WellFormed(s) && DuesKnown(s) && DuesKnown(t) && Reserved(s) && id < |s.payments|
    requires s.payments[id].status in {Approved, Pending} && t.payments == WithStatus(s, id, status)
    requires t.dues == s.dues && |t.bills| == |s.bills|
    requires forall b :: 0 <= b < |s.bills| ==> t.bills[b] == s.bills[b].(status := t.bills[b].status)
    ensures Reserved(t)
  {
    forall b | 0 <= b < |t.bills|
      ensures RoomOn(t, b)
    {
      assert RoomOn(s, b);
      MovedShares(s, id, status, b);
    }
  }

  lemma VerifyKeepsRoom(s: State, verifier: nat, id: nat, decision: Decision, v: Verified)
    requires WellFormed(s) && DuesKnown(s) && Reserved(s) && VerifyPayment(s, verifier, id, decision) == Ok(v)
    requires DuesKnown(v.state)
    ensures Reserved(v.state)
  {
    MovedKeepsRoom(s, id, v.state.payments[id].status, v.state);
  }

  lemma ReverseKeepsRoom(s: State, id: nat, at: int, t: State)
    requires WellFormed(s) && DuesKnown(s) && Reserved(s) && ReversePayment(s, id, at) == Ok(t) && DuesKnown(t)
    ensures Reserved(t)
  {
    MovedKeepsRoom(s, id, Reversed, t);
  }

  lemma DonationKeepsRoom(s: State, p: Payment, t: State)
    requires Inv(s) && Reserved(s) && p.target.ToDue? && p.allocs == []
    requires t.payments == s.payments + [p] && t.bills == s.bills && t.dues == s.dues
    ensures Reserved(t)
  {
    forall b | 0 <= b < |t.bills|
      ensures RoomOn(t, b)
    {
      assert RoomOn(s, b);
      PendingShares(s, p, b);
    }
  }

  lemma OtherKeepsRoom(s: State, t: State)
    requires Inv(s) && Reserved(s) && DuesKnown(t)
    requires t.payments == s.payments && |t.bills| >= |s.bills| && |t.dues| == |s.dues|
    requires forall d :: 0 <= d < |s.dues| ==> t.dues[d].isVoluntary == s.dues[d].isVoluntary
    requires forall b :: 0 <= b < |s.bills| ==> t.bills[b].amount == s.bills[b].amount && t.bills[b].due == s.bills[b].due
    requires forall b :: |s.bills| <= b < |t.bills| ==> t.bills[b].amount >= 0
    ensures Reserved(t)
  {
    forall b | 0 <= b < |t.bills|
      ensures RoomOn(t, b)
    {
      if b < |s.bills| {
        assert RoomOn(s, b);
      } else {
        UnknownBillUntouched(s.payments, |s.bills|, b, Approved);
        UnknownBillUntouched(s.payments, |s.bills|, b, Pending);
      }
    }
  }

  lemma PaymentKeepsRoom(s: State, op: Op, t: State)
    requires WellFormed(s) && DuesKnown(s) && Reserved(s) && ByResidents(op) && Try(s, op) == Ok(t) && DuesKnown(t)
    requires op.PayOp? || op.PayManyOp? || op.VerifyOp? || op.ReverseOp?
    ensures Reserved(t)
  {
    match op
    case PayOp(c, b, amount, paidBy, at) => ResidentPayKeepsRoom(s, c, b, amount, paidBy, at, t);
    case PayManyOp(c, billIds, allocs, stated, paidBy, at) =>
      ResidentPayManyKeepsRoom(s, c, billIds, allocs, stated, paidBy, at, t);
    case VerifyOp(verifier, id, decision) =>
      VerifyKeepsRoom(s, verifier, id, decision, VerifyPayment(s, verifier, id, decision).value);
    case ReverseOp(id, at) => ReverseKeepsRoom(s, id, at, t);
  }

  lemma QuietKeepsRoom(s: State, op: Op, t: State)
    requires Inv(s) && Reserved(s) && Try(s, op) == Ok(t) && DuesKnown(t)
    requires !op.PayOp? && !op.PayManyOp? && !op.VerifyOp? && !op.ReverseOp?
    ensures Reserved(t)
  {
    if op.DonateOp? {
      DonationKeepsRoom(s, t.payments[|s.payments|], t);
    } else {
      OtherKeepsRoom(s, t);
    }
  }

  lemma StepKeepsRoom(s: State, op: Op)
    requires Inv(s) && Reserved(s) && ByResidents(op)
    ensures Reserved(Step(s, op))
  {
    if Try(s, op).Ok? {
      if op.PayOp? || op.PayManyOp? || op.VerifyOp? || op.ReverseOp? {
        PaymentKeepsRoom(s, op, Step(s, op));
      } else {
        QuietKeepsRoom(s, op, Step(s, op));
      }
    }
  }

  lemma {:induction false} RunKeepsRoom(start: State, ops: seq<Op>)
    requires Fresh(start) && AdmissibleRun(start, ops)
    requires forall i :: 0 <= i < |ops| ==> ByResidents(ops[i])
    ensures Inv(Run(start, ops)) && Reserved(Run(start, ops))
  {
    ReachableInv(start, ops);
    if ops != [] {
      RunKeepsRoom(start, ops[..|ops| - 1]);
      StepKeepsRoom(Run(start, ops[..|ops| - 1]), ops[|ops| - 1]);
    }
  }

  /** In runs without staff payments, approved and pending money together never exceed a non-voluntary bill. */
  lemma PendingNeverOverbooks(start: State, ops: seq<Op>, b: nat)
    requires Fresh(start) && AdmissibleRun(start, ops)
    requires forall i :: 0 <= i < |ops| ==> ByResidents(ops[i])
    requires b < |Run(start, ops).bills| && !DueOf(Run(start, ops), b).isVoluntary
    ensures ApprovedTotal(Run(start, ops), b) + PendingTotal(Run(start, ops), b) <= Run(start, ops).bills[b].amount
  {
    RunKeepsRoom(start, ops);
    assert RoomOn(Run(start, ops), b);
  }

  lemma CoveredBillHasRoom(s: State, id: nat, b: nat)
    requires Inv(s) && Reserved(s) && id < |s.payments| && s.payments[id].status == Pending
    requires b < |s.bills| && Covers(s.payments[id], b) && !DueOf(s, b).isVoluntary
    ensures s.bills[b].status != Paid
    ensures ApprovedTotal(s, b) + Share(s.payments[id], b) <= s.bills[b].amount
  {
    assert RoomOn(s, b) && BillAgrees(s, b);
    ShareSign(s.payments[id], |s.bills|, b);
    ShareTotalSign(s.payments, |s.bills|, b, Pending);
  }

  lemma SingleHasRoom(s: State, id: nat, location: Option<nat>, at: int)
    requires Inv(s) && Reserved(s) && id < |s.payments| && s.payments[id].status == Pending
    requires s.payments[id].target.ToBill? && s.payments[id].allocs == []
    requires !DueOf(s, s.payments[id].target.bill).isVoluntary
    ensures NeverOverpays(ApproveSingle(s, id, location, at))
  {
    CoveredBillHasRoom(s, id, s.payments[id].target.bill);
  }

  lemma ManyHaveRoom(s: State, id: nat, location: Option<nat>, at: int)
    requires Inv(s) && Reserved(s) && id < |s.payments| && s.payments[id].status == Pending
    requires s.payments[id].target.ToBill? && s.payments[id].allocs != []
    requires forall b :: 0 <= b < |s.bills| && Covers(s.payments[id], b) ==> !DueOf(s, b).isVoluntary
    ensures NeverOverpays(ApproveMulti(s, id, location, at))
  {
    var p := s.payments[id];
    var sorted := ByBill(p.allocs);
    ByBillMembers(p.allocs);
    forall k | 0 <= k < |sorted|
      ensures OverpayErrors(s, sorted)[k] != Some(AlreadyPaid)
      ensures OverpayErrors(s, sorted)[k] != Some(ExceedsRemaining)
    {
      assert sorted[k] in p.allocs;
      assert HasAlloc(p.allocs, sorted[k].bill);
      CoveredBillHasRoom(s, id, sorted[k].bill);
      AllocSumOf(p.allocs, sorted[k].bill);
    }
    if FirstError(OverpayErrors(s, sorted)).Some? {
      var _ := FirstErrorIsFirst(OverpayErrors(s, sorted));
    }
  }

  /** Neither an overpayment rejection nor one of the two errors for lack of room. */
  predicate NeverOverpays(outcome: Result<Verified, PayError>) {
    match outcome
    case Ok(v) => !v.overpaid
    case Err(e) => e != AlreadyPaid && e != ExceedsRemaining
  }

  /** Past its guards, an approval is decided by what it finds on the bills. */
  lemma ReservedVerdict(s: State, id: nat, location: Option<nat>, at: int)
    requires Inv(s) && Reserved(s) && id < |s.payments| && s.payments[id].status == Pending
    requires s.payments[id].target.ToBill?
    requires forall b :: 0 <= b < |s.bills| && Covers(s.payments[id], b) ==> !DueOf(s, b).isVoluntary
    ensures NeverOverpays(if s.payments[id].allocs == [] then ApproveSingle(s, id, location, at)
                          else ApproveMulti(s, id, location, at))
  {
    if s.payments[id].allocs == [] {
      SingleHasRoom(s, id, location, at);
    } else {
      ManyHaveRoom(s, id, location, at);
    }
  }

  lemma ReservedApproval(s: State, verifier: nat, id: nat, decision: Decision)
    requires Inv(s) && Reserved(s) && id < |s.payments|
    requires forall b :: 0 <= b < |s.bills| && Covers(s.payments[id], b) ==> !DueOf(s, b).isVoluntary
    ensures NeverOverpays(VerifyPayment(s, verifier, id, decision))
  {
    var p := s.payments[id];
    if p.status == Pending && p.target.ToBill? && decision.Approve? && decision.at.Some? {
      ReservedVerdict(s, id, decision.location, decision.at.value);
    }
  }

  /** Approving a pending payment of non-voluntary bills can then never fail as already paid or overpaid,
      nor turn into an overpayment rejection. */
  lemma ApprovalNeverOverpays(start: State, ops: seq<Op>, verifier: nat, id: nat, decision: Decision)
    requires Fresh(start) && AdmissibleRun(start, ops)
    requires forall i :: 0 <= i < |ops| ==> ByResidents(ops[i])
    requires id < |Run(start, ops).payments|
    requires var s := Run(start, ops);
      forall b :: 0 <= b < |s.bills| && Covers(s.payments[id], b) ==> !DueOf(s, b).isVoluntary
    ensures NeverOverpays(VerifyPayment(Run(start, ops), verifier, id, decision))
  {
    RunKeepsRoom(start, ops);
    ReservedApproval(Run(start, ops), verifier, id, decision);
  }

  // ----- Staff payments ignore reservations -----

  /** An approval that is accepted as one, not turned into a rejection. */
  predicate Approves(outcome: Result<Verified, PayError>) {
    outcome.Ok? && !outcome.value.overpaid
  }

  /** With staff payments allowed, a pending payment of one bill is approved exactly while the bill is active and not
      cancelled and, unless voluntary, obligatory with room for the payment beside the approved money. */
  lemma SingleApprovalExact(s: State, verifier: nat, id: nat, location: Option<nat>, at: int, enforced: bool)
    requires Inv(s) && MayVerify(s, verifier, id, Approve(location, Some(at), enforced))
    requires s.payments[id].target.ToBill? && s.payments[id].allocs == []
    ensures var b := s.payments[id].target.bill;
      Approves(VerifyPayment(s, verifier, id, Approve(location, Some(at), enforced))) <==>
        (s.bills[b].isActive && s.bills[b].status != Cancelled
         && (DueOf(s, b).isVoluntary
             || (s.bills[b].isObligatory && ApprovedTotal(s, b) + s.payments[id].amount <= s.bills[b].amount)))
  {
    var b := s.payments[id].target.bill;
    assert BillAgrees(s, b);
  }

  /** A pending payment of several bills is approved exactly while every one of them is active, obligatory, neither
      paid nor cancelled, and has room for its part beside the approved money. */
  lemma MultiApprovalExact(s: State, verifier: nat, id: nat, location: Option<nat>, at: int, enforced: bool)
    requires Inv(s) && MayVerify(s, verifier, id, Approve(location, Some(at), enforced))
    requires s.payments[id].target.ToBill? && s.payments[id].allocs != []
    ensures Approves(VerifyPayment(s, verifier, id, Approve(location, Some(at), enforced))) <==>
      forall i :: 0 <= i < |s.payments[id].allocs| ==>
        var a := s.payments[id].allocs[i];
        && a.bill < |s.bills| && s.bills[a.bill].isActive && s.bills[a.bill].isObligatory
        && s.bills[a.bill].status in {Unpaid, Partial} && ApprovedTotal(s, a.bill) + a.amount <= s.bills[a.bill].amount
  {
    var allocs := s.payments[id].allocs;
    NoneOverpays(s, allocs);
    assert forall i :: 0 <= i < |allocs| ==>
      (BillError(s, allocs[i].bill).None? <==>
         allocs[i].bill < |s.bills| && s.bills[allocs[i].bill].isActive && s.bills[allocs[i].bill].isObligatory
         && s.bills[allocs[i].bill].status in {Unpaid, Partial});
  }

  /** Whenever staff settle a non-voluntary bill that a pending payment covers, alone or among others, nobody can
      approve that payment any more, to no location. */
  lemma StaffStrandsCovering(s: State, id: nat, b: nat, staff: Caller, paidAt: int, verifier: nat,
                             location: Option<nat>,
                             at: int, enforced: bool)
    requires Inv(s) && id < |s.payments| && s.payments[id].status == Pending && s.payments[id].target.ToBill?
    requires b < |s.bills| && Covers(s.payments[id], b) && !DueOf(s, b).isVoluntary && staff.role.Staff?
    requires SinglePayError(s, staff, b, Remaining(s, Staff, b)).None?
    ensures var t := Step(s, PayOp(staff, b, Remaining(s, Staff, b), CashMethod, paidAt));
      && id < |t.payments| && t.payments[id] == s.payments[id]
      && !Approves(VerifyPayment(t, verifier, id, Approve(location, Some(at), enforced)))
  {
    var op := PayOp(staff, b, Remaining(s, Staff, b), CashMethod, paidAt);
    var t := Step(s, op);
    StaffSettles(s, b, op.amount, staff, paidAt);
    StepKeeps(s, op);
    PaidBillRefuses(t, id, b, verifier, location, at, enforced);
  }

  /** A paid bill of a non-voluntary due has no room for a payment that covers it. */
  lemma PaidBillRefuses(t: State, id: nat, b: nat, verifier: nat, location: Option<nat>, at: int, enforced: bool)
    requires Inv(t) && id < |t.payments| && t.payments[id].target.ToBill? && Covers(t.payments[id], b)
    requires b < |t.bills| && t.bills[b].status == Paid && !DueOf(t, b).isVoluntary
    ensures !Approves(VerifyPayment(t, verifier, id, Approve(location, Some(at), enforced)))
  {
    var p := t.payments[id];
    var decision := Approve(location, Some(at), enforced);
    VerifyGuardExact(t, verifier, id, decision);
    if MayVerify(t, verifier, id, decision) {
      if p.allocs == [] {
        SingleApprovalExact(t, verifier, id, location, at, enforced);
        assert BillAgrees(t, b);
      } else {
        MultiApprovalExact(t, verifier, id, location, at, enforced);
        ShareSign(p, |t.bills|, b);
        var i :| 0 <= i < |p.allocs| && p.allocs[i].bill == b;
        assert t.bills[p.allocs[i].bill].status == Paid;
      }
    }
  }

  lemma ResidentWaits(s: State, b: nat, amount: int, resident: Caller, at: int)
    requires Inv(s) && resident.role.Warga? && SinglePayError(s, resident, b, amount).None?
    ensures var t := Step(s, PayOp(resident, b, amount, BankMethod, at));
      t == s.(payments := s.payments + [Payment(ToBill(b), amount, BankMethod, Pending, resident.user, [])])
        && Inv(t) && SameApproved(s, t.payments)
  {
    PendingKeeps(s, Payment(ToBill(b), amount, BankMethod, Pending, resident.user, []));
  }

  lemma StaffSettles(s: State, b: nat, amount: int, staff: Caller, at: int)
    requires Inv(s) && staff.role.Staff? && SinglePayError(s, staff, b, amount).None?
    requires !DueOf(s, b).isVoluntary && amount == Remaining(s, Staff, b)
    ensures var t := Step(s, PayOp(staff, b, amount, CashMethod, at));
      t.bills[b] == s.bills[b].(status := Paid) && t.dues == s.dues
        && t.payments == s.payments + [Payment(ToBill(b), amount, CashMethod, Approved, staff.user, [])]
  {
  }

  lemma StaffStillMayPay(s: State, t: State, b: nat, amount: int, resident: Caller, staff: Caller)
    requires Inv(s) && t == s.(payments := t.payments) && SameApproved(s, t.payments)
    requires b < |s.bills| && !DueOf(s, b).isVoluntary && resident.role.Warga? && staff.role.Staff?
    requires amount == Remaining(s, Warga, b) == Remaining(s, Staff, b)
    requires SinglePayError(s, resident, b, amount).None?
    ensures SinglePayError(t, staff, b, amount).None? && Remaining(t, Staff, b) == amount
  {
    SameQueueWhilePending(s, t, s.bills[b].occupancy, s.bills[b].due, b);
  }

  /** Whenever a resident may pay a bill in full and staff may too, doing both strands the resident's payment. */
  lemma StaffStrandsPending(s: State, b: nat, amount: int, resident: Caller, staff: Caller, at: int)
    requires Inv(s) && b < |s.bills| && !DueOf(s, b).isVoluntary
    requires resident.role.Warga? && staff.role.Staff? && resident.user != staff.user
    requires amount == Remaining(s, Warga, b) == Remaining(s, Staff, b)
    requires SinglePayError(s, resident, b, amount).None?
    ensures var id := |s.payments|;
      var waiting := Step(s, PayOp(resident, b, amount, BankMethod, at));
      var paid := Step(waiting, PayOp(staff, b, amount, CashMethod, at));
      && id < |paid.payments| && paid.payments[id].status == Pending
      && VerifyPayment(paid, staff.user, id, Approve(None, Some(at), false)) == Err(AlreadyPaid)
  {
    var waiting := Step(s, PayOp(resident, b, amount, BankMethod, at));
    ResidentWaits(s, b, amount, resident, at);
    StaffStillMayPay(s, waiting, b, amount, resident, staff);
    StaffSettles(waiting, b, amount, staff, at);
  }

  /** The head of the queue depends on approved money only. */
  lemma SameQueueWhilePending(s: State, t: State, occupancy: nat, due: nat, b: nat)
    requires UniqueKeys(s.bills) && t.bills == s.bills && SameApproved(s, t.payments)
    requires Queue(s, occupancy, due) != [] && Queue(s, occupancy, due)[0] == b
    ensures Queue(t, occupancy, due) != [] && Queue(t, occupancy, due)[0] == b
  {
    HeadIsOldest(s, occupancy, due, b);
    forall c: nat
      ensures Eligible(t, c, occupancy, due) == Eligible(s, c, occupancy, due)
    {
    }
    HeadIsOldest(t, occupancy, due, b);
  }
}
