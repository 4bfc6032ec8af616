/** Every refusal of the payment engine names a reason that holds of the request and the tables. */
module Refusals {
  import opened Results
  import opened Ledger
  import opened FundLocation
  import opened Billing
  import opened Payments
  import opened PaymentInvariants
  import opened PaymentEffects
  import opened PaymentOutcomes

  // ----- One bill -----

  ghost predicate SingleReason(s: State, c: Caller, b: nat, amount: int, e: PayError)
    requires DuesKnown(s)
  {
    if e == BadAmount then amount <= 0
    else if e == BillNotFound then b >= |s.bills|
    else
      && b < |s.bills|
      && var bill, due := s.bills[b], DueOf(s, b);
         match e
         case InactiveBill => !bill.isActive
         case NotObligatory => !bill.isObligatory && !due.isVoluntary
         case InactiveDue => !due.isActive && !due.isVoluntary
         case AlreadyPaid => bill.status == Paid && !due.isVoluntary
         case BillCancelled => bill.status == Cancelled
         case ForeignHousehold => c.role.Warga? && c.occupancy != Some(bill.occupancy)
         case AllPaid => forall k: nat :: !Eligible(s, k, bill.occupancy, bill.due)
         case FifoViolation =>
           !IsOldest(s, bill.occupancy, bill.due, b) && exists k: nat :: Eligible(s, k, bill.occupancy, bill.due)
         case ExceedsRemaining => amount > Remaining(s, c.role, b)
         case FullPaymentRequired => due.rule.Full? && amount < Remaining(s, c.role, b)
         case _ => false
  }

  /** A queue that is empty, or begins with another bill. */
  lemma QueueReason(s: State, occupancy: nat, due: nat, b: nat)
    requires WellFormed(s)
    ensures var q := Queue(s, occupancy, due);
      && (q == [] ==> forall k: nat :: !Eligible(s, k, occupancy, due))
      && (q != [] ==> exists k: nat :: Eligible(s, k, occupancy, due))
      && (q != [] && q[0] != b ==> !IsOldest(s, occupancy, due, b))
  {
    var q := Queue(s, occupancy, due);
    QueueMembers(s, occupancy, due);
    HeadIsOldest(s, occupancy, due, b);
    assert q != [] ==> q[0] in q;
    forall k: nat | Eligible(s, k, occupancy, due)
      ensures q != []
    {
      assert k in q;
    }
  }

  lemma QueueRefusesTrue(s: State, c: Caller, b: nat, amount: int, e: PayError)
    requires WellFormed(s) && DuesKnown(s) && SinglePayError(s, c, b, amount) == Some(e) && e in {AllPaid, FifoViolation}
    ensures b < |s.bills|
    ensures if e == AllPaid then forall k: nat :: !Eligible(s, k, s.bills[b].occupancy, s.bills[b].due)
      else !IsOldest(s, s.bills[b].occupancy, s.bills[b].due, b)
           && exists k: nat :: Eligible(s, k, s.bills[b].occupancy, s.bills[b].due)
  {
    QueueReason(s, s.bills[b].occupancy, s.bills[b].due, b);
  }

  lemma AmountRefusesTrue(s: State, c: Caller, b: nat, amount: int, e: PayError)
    requires DuesKnown(s) && SinglePayError(s, c, b, amount) == Some(e) && e in {ExceedsRemaining, FullPaymentRequired}
    ensures b < |s.bills|
    ensures if e == ExceedsRemaining then amount > Remaining(s, c.role, b)
      else DueOf(s, b).rule.Full? && amount < Remaining(s, c.role, b)
  {
  }

  lemma BillRefusesTrue(s: State, c: Caller, b: nat, amount: int, e: PayError)
    requires DuesKnown(s) && SinglePayError(s, c, b, amount) == Some(e)
    requires e !in {AllPaid, FifoViolation, ExceedsRemaining, FullPaymentRequired}
    ensures SingleReason(s, c, b, amount, e)
  {
  }

  lemma SingleRefusalTrue(s: State, c: Caller, b: nat, amount: int, e: PayError)
    requires WellFormed(s) && DuesKnown(s) && SinglePayError(s, c, b, amount) == Some(e)
    ensures SingleReason(s, c, b, amount, e)
  {
    if e in {AllPaid, FifoViolation} {
      QueueRefusesTrue(s, c, b, amount, e);
    } else if e in {ExceedsRemaining, FullPaymentRequired} {
      AmountRefusesTrue(s, c, b, amount, e);
    } else {
      BillRefusesTrue(s, c, b, amount, e);
    }
  }

  // ----- Several bills -----

  /** What is wrong with the request alone. */
  ghost predicate RequestReason(billIds: seq<nat>, allocs: seq<Alloc>, stated: Option<int>, e: PayError) {
    match e
    case NoBills => billIds == []
    case TooManyBills => |billIds| > 12
    case NoAllocations => allocs == []
    case CountMismatch => |allocs| != |billIds|
    case DuplicateBill => exists i, j :: 0 <= i < j < |billIds| && billIds[i] == billIds[j]
    case DuplicateAllocation => exists i, j :: 0 <= i < j < |allocs| && allocs[i].bill == allocs[j].bill
    case AllocationMismatch => exists b: nat :: !(b in billIds <==> HasAlloc(allocs, b))
    case BadAmount => exists i :: 0 <= i < |allocs| && allocs[i].amount <= 0
    case WrongTotal => stated.Some? && (stated.value <= 0 || stated.value != AllocAmount(allocs))
    case _ => false
  }

  lemma RequestRefusalTrue(billIds: seq<nat>, allocs: seq<Alloc>, stated: Option<int>, e: PayError)
    requires RequestError(billIds, allocs, stated) == Some(e)
    ensures RequestReason(billIds, allocs, stated, e)
  {
    if i :| 0 <= i < |billIds| && !HasAlloc(allocs, billIds[i]) {
      assert billIds[i] in billIds;
    }
    if i :| 0 <= i < |allocs| && allocs[i].bill !in billIds {
      assert HasAlloc(allocs, allocs[i].bill);
    }
  }

  /** What is wrong with one of the bills, or with what is paid on it. */
  ghost predicate PartReason(s: State, c: Caller, a: Alloc, e: PayError)
    requires DuesKnown(s)
  {
    if e == BillNotFound then a.bill >= |s.bills|
    else
      && a.bill < |s.bills|
      && var bill, due := s.bills[a.bill], DueOf(s, a.bill);
         match e
         case AlreadyPaid => bill.status == Paid
         case BillCancelled => bill.status == Cancelled
         case InactiveBill => !bill.isActive
         case NotObligatory => !bill.isObligatory
         case AllPaid => !due.isVoluntary && forall k: nat :: !Eligible(s, k, bill.occupancy, bill.due)
         case FifoViolation => !due.isVoluntary && exists k: nat :: Eligible(s, k, bill.occupancy, bill.due)
         case ForeignHousehold => c.role.Warga? && c.occupancy != Some(bill.occupancy)
         case BadAmount => a.amount <= 0
         case ExceedsRemaining => a.amount > Remaining(s, c.role, a.bill)
         case FullPaymentRequired => due.rule.Full? && a.amount < Remaining(s, c.role, a.bill)
         case _ => false
  }

  ghost predicate SomePart(s: State, c: Caller, allocs: seq<Alloc>, e: PayError)
    requires DuesKnown(s)
  {
    exists i :: 0 <= i < |allocs| && PartReason(s, c, allocs[i], e)
  }

  /** Two of the bills are of different households. */
  predicate TwoHouseholds(s: State, allocs: seq<Alloc>) {
    exists i, j :: 0 <= i < |allocs| && 0 <= j < |allocs| && allocs[i].bill < |s.bills| && allocs[j].bill < |s.bills|
      && s.bills[allocs[i].bill].occupancy != s.bills[allocs[j].bill].occupancy
  }

  /** A bill with a queue is paid already, or leaves out an earlier one. */
  ghost predicate SomeSkipped(s: State, allocs: seq<Alloc>)
    requires DuesKnown(s)
  {
    exists i :: 0 <= i < |allocs| && allocs[i].bill < |s.bills| && !DueOf(s, allocs[i].bill).isVoluntary
      && !NoneSkipped(s, allocs, allocs[i].bill)
  }

  ghost predicate ManyReason(s: State, c: Caller, billIds: seq<nat>, allocs: seq<Alloc>, stated: Option<int>,
                             e: PayError)
    requires DuesKnown(s)
  {
    || RequestReason(billIds, allocs, stated, e)
    || (SomePart(s, c, allocs, e) && (e in {AllPaid, FifoViolation} ==> SomeSkipped(s, allocs)))
    || (e == MixedHouseholds && TwoHouseholds(s, allocs))
  }

  lemma LookupRefusalTrue(s: State, c: Caller, allocs: seq<Alloc>, e: PayError)
    requires DuesKnown(s) && FirstError(BillErrors(s, ByBill(allocs))) == Some(e)
    ensures SomePart(s, c, allocs, e) && e !in {AllPaid, FifoViolation}
  {
    var sorted := ByBill(allocs);
    var k := FirstErrorIsFirst(BillErrors(s, sorted));
    ByBillMembers(allocs);
    assert sorted[k] in allocs;
    var i :| 0 <= i < |allocs| && allocs[i] == sorted[k];
    assert PartReason(s, c, allocs[i], e);
  }

  lemma QueueRefusalTrue(s: State, c: Caller, allocs: seq<Alloc>, occupancy: nat, e: PayError)
    requires WellFormed(s) && DuesKnown(s) && BillsExist(s, allocs) && DistinctBills(allocs)
    requires forall k :: 0 <= k < |allocs| ==> s.bills[allocs[k].bill].occupancy == occupancy
    requires FirstError(QueueErrors(s, allocs, occupancy)) == Some(e)
    ensures SomePart(s, c, allocs, e) && SomeSkipped(s, allocs)
  {
    QueueCheckExact(s, allocs, occupancy);
    var i := FirstErrorIsFirst(QueueErrors(s, allocs, occupancy));
    var due := s.bills[allocs[i].bill].due;
    QueueReason(s, occupancy, due, allocs[i].bill);
    assert PartReason(s, c, allocs[i], e);
  }

  lemma AmountRefusalTrue(s: State, c: Caller, allocs: seq<Alloc>, e: PayError)
    requires DuesKnown(s) && BillsExist(s, allocs) && FirstError(AllocErrors(s, c.role, allocs)) == Some(e)
    ensures SomePart(s, c, allocs, e) && e !in {AllPaid, FifoViolation}
  {
    var i := FirstErrorIsFirst(AllocErrors(s, c.role, allocs));
    assert PartReason(s, c, allocs[i], e);
  }

  lemma ManyRefusalTrue(s: State, c: Caller, billIds: seq<nat>, allocs: seq<Alloc>, stated: Option<int>, e: PayError)
    requires WellFormed(s) && DuesKnown(s) && ManyError(s, c, billIds, allocs, stated) == Some(e)
    ensures ManyReason(s, c, billIds, allocs, stated, e)
  {
    AllLookedUp(s, allocs);
    if RequestError(billIds, allocs, stated).Some? {
      RequestRefusalTrue(billIds, allocs, stated, e);
    } else if FirstError(BillErrors(s, ByBill(allocs))).Some? {
      LookupRefusalTrue(s, c, allocs, e);
    } else if OneHousehold(s, allocs) {
      var occupancy := s.bills[allocs[0].bill].occupancy;
      if FirstError(QueueErrors(s, allocs, occupancy)).Some? {
        QueueRefusalTrue(s, c, allocs, occupancy, e);
      } else if c.role.Warga? && c.occupancy != Some(occupancy) {
        assert PartReason(s, c, allocs[0], e);
      } else {
        AmountRefusalTrue(s, c, allocs, e);
      }
    }
  }

  // ----- Donations and decisions -----

  /** The last day of the voluntary due is over. */
  predicate PastLastDay(due: Due, today: int) {
    due.isVoluntary && due.validUntil.Some? && due.validUntil.value < today
  }

  predicate DonationReason(s: State, c: Caller, d: nat, amount: int, today: int, e: PayError) {
    if e == BadAmount then amount <= 0
    else if e == DueNotFound then d >= |s.dues|
    else
      && d < |s.dues|
      && match e
         case InactiveDue => !s.dues[d].isActive
         case DueExpired => PastLastDay(s.dues[d], today)
         case NotVoluntary => !s.dues[d].isVoluntary
         case DonationAmountSet => s.dues[d].amount != 0
         case NoHousehold => c.role.Warga? && c.occupancy.None?
         case _ => false
  }

  lemma DonationRefusalTrue(s: State, c: Caller, d: nat, amount: int, today: int, paidBy: PaymentMethod, at: int,
                            e: PayError)
    requires CreateDonation(s, c, d, amount, today, paidBy, at) == Err(e)
    ensures DonationReason(s, c, d, amount, today, e)
  {
  }

  /** What is wrong with a bill that a payment to be approved covers. */
  ghost predicate ApprovalReason(s: State, p: Payment, b: nat, e: PayError)
    requires DuesKnown(s)
  {
    && b < |s.bills| && Covers(p, b)
    && match e
       case AlreadyPaid => s.bills[b].status == Paid
       case BillCancelled => s.bills[b].status == Cancelled
       case InactiveBill => !s.bills[b].isActive
       case NotObligatory => !s.bills[b].isObligatory
       case ExceedsRemaining => ApprovedTotal(s, b) + Share(p, b) > s.bills[b].amount
       case _ => false
  }

  predicate PlaceReason(b: Books, paidBy: PaymentMethod, location: Option<nat>, enforced: bool, e: PayError) {
    if e == LocationIsRequired then enforced && location.None?
    else
      && location.Some?
      && if e == UnknownLocation then location.value >= |b.locations|
         else
           && location.value < |b.locations|
           && match e
              case ClosedLocation => !b.locations[location.value].isActive
              case MethodMismatch => b.locations[location.value].category.Rekening? != paidBy.BankMethod?
              case _ => false
  }

  /** Why a decision is not looked into. */
  predicate GuardReason(s: State, verifier: nat, id: nat, decision: Decision, e: PayError) {
    if id >= |s.payments| then e == PaymentNotFound
    else
      || (e == NotPending && s.payments[id].status != Pending)
      || (e == OwnPayment && s.payments[id].submittedBy == verifier)
      || (decision.Approve?
          && (|| (e == DateRequired && decision.at.None?)
              || PlaceReason(s.books, s.payments[id].paidBy, decision.location, decision.enforced, e)))
  }

  /** Why a payment that may be decided is not approved. */
  ghost predicate TargetReason(s: State, p: Payment, e: PayError)
    requires DuesKnown(s)
  {
    match p.target
    case ToDue(d) =>
      if e == DueNotFound then d >= |s.dues| else e == NotVoluntary && d < |s.dues| && !s.dues[d].isVoluntary
    case ToBill(_) => exists b: nat :: ApprovalReason(s, p, b, e)
  }

  lemma MultiRefusalTrue(s: State, p: Payment, e: PayError)
    requires DuesKnown(s) && ValidPayment(p, |s.bills|) && p.target.ToBill? && p.allocs != []
    requires FirstError(OverpayErrors(s, ByBill(p.allocs))) == Some(e)
    ensures exists b: nat :: ApprovalReason(s, p, b, e)
  {
    var sorted := ByBill(p.allocs);
    var k := FirstErrorIsFirst(OverpayErrors(s, sorted));
    ByBillMembers(p.allocs);
    assert sorted[k] in p.allocs;
    var i :| 0 <= i < |p.allocs| && p.allocs[i] == sorted[k];
    var b := p.allocs[i].bill;
    assert HasAlloc(p.allocs, b);
    AllocSumOf(p.allocs, b);
    assert ApprovalReason(s, p, b, e);
  }

  lemma GuardRefusalTrue(s: State, verifier: nat, id: nat, decision: Decision, e: PayError)
    requires DuesKnown(s) && VerifyPayment(s, verifier, id, decision) == Err(e) && !MayVerify(s, verifier, id, decision)
    ensures GuardReason(s, verifier, id, decision, e)
  {
  }

  lemma SingleApprovalRefusalTrue(s: State, id: nat, location: Option<nat>, at: int, e: PayError)
    requires DuesKnown(s) && id < |s.payments| && s.payments[id].target.ToBill?
    requires s.payments[id].target.bill < |s.bills| && ApproveSingle(s, id, location, at) == Err(e)
    ensures ApprovalReason(s, s.payments[id], s.payments[id].target.bill, e)
  {
  }

  lemma TargetRefusalTrue(s: State, verifier: nat, id: nat, decision: Decision, e: PayError)
    requires WellFormed(s) && DuesKnown(s) && VerifyPayment(s, verifier, id, decision) == Err(e)
    requires MayVerify(s, verifier, id, decision)
    ensures decision.Approve? && TargetReason(s, s.payments[id], e)
  {
    var p := s.payments[id];
    if decision.Approve? && p.target.ToBill? {
      if p.allocs == [] {
        SingleApprovalRefusalTrue(s, id, decision.location, decision.at.value, e);
      } else {
        MultiRefusalTrue(s, p, e);
      }
    }
  }

  ghost predicate DecisionReason(s: State, verifier: nat, id: nat, decision: Decision, e: PayError)
    requires DuesKnown(s)
  {
    || GuardReason(s, verifier, id, decision, e)
    || (id < |s.payments| && decision.Approve? && TargetReason(s, s.payments[id], e))
  }

  predicate ReversalReason(s: State, id: nat, e: PayError) {
    if e == PaymentNotFound then id >= |s.payments|
    else
      && id < |s.payments|
      && match e
         case NotApproved => s.payments[id].status != Approved
         case InsufficientReversalBalance => !StillThere(s, id)
         case _ => false
  }

  /** The row it was booked in names a location that holds too little. */
  predicate Spent(s: State, id: nat)
    requires id < |s.payments|
  {
    var row := FirstIncomeRow(s.books.txns, id);
    row.Some? && s.books.txns[row.value].location.Some?
      && CentsOrZero(LocationSum(s.books.changes, s.books.txns[row.value].location.value)) < s.payments[id].amount
  }

  lemma SpentIsNotThere(s: State, id: nat)
    requires id < |s.payments| && Spent(s, id)
    ensures !StillThere(s, id)
  {
    var row := FirstIncomeRow(s.books.txns, id).value;
    assert IsIncomeRow(s.books.txns[row], id);
  }

  lemma ReversalErrors(s: State, id: nat, at: int, e: PayError)
    requires ReversePayment(s, id, at) == Err(e)
    ensures if id >= |s.payments| then e == PaymentNotFound
      else if s.payments[id].status != Approved then e == NotApproved
      else if FirstIncomeRow(s.books.txns, id).None? then e == NoIncomeRow
      else e == InsufficientReversalBalance && Spent(s, id)
  {
  }

  lemma ReversalRefusalTrue(s: State, id: nat, at: int, e: PayError)
    requires RowsMatch(s.books.txns, s.payments) && ReversePayment(s, id, at) == Err(e)
    ensures ReversalReason(s, id, e)
  {
    ReversalErrors(s, id, at, e);
    if id < |s.payments| {
      RowExists(s.books.txns, id);
      if Spent(s, id) {
        SpentIsNotThere(s, id);
      }
    }
  }

  // ----- Every call -----

  ghost predicate Reason(s: State, op: Op, e: PayError)
    requires DuesKnown(s)
  {
    match op
    case PayOp(c, b, amount, _, _) => SingleReason(s, c, b, amount, e)
    case DonateOp(c, d, amount, today, _, _) => DonationReason(s, c, d, amount, today, e)
    case PayManyOp(c, billIds, allocs, stated, _, _) => ManyReason(s, c, billIds, allocs, stated, e)
    case VerifyOp(verifier, id, decision) => DecisionReason(s, verifier, id, decision, e)
    case ReverseOp(id, _) => ReversalReason(s, id, e)
    case CancelOp(b) =>
      if e == BillNotFound then b >= |s.bills|
      else e == CannotCancel && b < |s.bills|
           && (s.bills[b].status != Unpaid || exists i :: 0 <= i < |s.payments| && s.payments[i].status == Approved
                                                       && Covers(s.payments[i], b))
    case BillActiveOp(b, active) =>
      if e == BillNotFound then b >= |s.bills|
      else e == CannotDeactivate && !active && b < |s.bills|
           && (s.bills[b].status == Paid || 0 < s.bills[b].amount <= ApprovedTotal(s, b))
    case AddBillOp(_, d, amount, _, _, _) => if e == DueNotFound then d >= |s.dues| else e == BadAmount && amount < 0
    case ObligatoryOp(b, _) => e == BillNotFound && b >= |s.bills|
    case DueActiveOp(d, active, today) =>
      if e == DueNotFound then d >= |s.dues|
      else e == DueExpired && active && d < |s.dues| && PastLastDay(s.dues[d], today)
    case BookOp(_) => false
  }

  lemma PaymentRefusalTrue(s: State, op: Op, e: PayError)
    requires Inv(s) && Try(s, op) == Err(e) && (op.PayOp? || op.DonateOp? || op.PayManyOp?)
    ensures Reason(s, op, e)
  {
    match op
    case PayOp(c, b, amount, _, _) => SingleRefusalTrue(s, c, b, amount, e);
    case DonateOp(c, d, amount, today, paidBy, at) => DonationRefusalTrue(s, c, d, amount, today, paidBy, at, e);
    case PayManyOp(c, billIds, allocs, stated, _, _) => ManyRefusalTrue(s, c, billIds, allocs, stated, e);
  }

  lemma VerdictRefusalTrue(s: State, op: Op, e: PayError)
    requires Inv(s) && Try(s, op) == Err(e) && (op.VerifyOp? || op.ReverseOp?)
    ensures Reason(s, op, e)
  {
    match op
    case VerifyOp(verifier, id, decision) =>
      if MayVerify(s, verifier, id, decision) {
        TargetRefusalTrue(s, verifier, id, decision, e);
      } else {
        GuardRefusalTrue(s, verifier, id, decision, e);
      }
    case ReverseOp(id, at) => ReversalRefusalTrue(s, id, at, e);
  }

  predicate TableOp(op: Op) {
    op.CancelOp? || op.BillActiveOp? || op.AddBillOp? || op.ObligatoryOp? || op.DueActiveOp? || op.BookOp?
  }

  lemma TableRefusalTrue(s: State, op: Op, e: PayError)
    requires DuesKnown(s) && Try(s, op) == Err(e) && TableOp(op)
    ensures Reason(s, op, e)
  {
    if op.CancelOp? {
      CountMeansCovered(s.payments, op.bill, Approved);
    }
  }

  /** In every reachable state, a refused call is refused for a reason that holds. */
  lemma RefusalsAreTrue(start: State, ops: seq<Op>, op: Op, e: PayError)
    requires Fresh(start) && AdmissibleRun(start, ops) && Try(Run(start, ops), op) == Err(e)
    ensures Reason(Run(start, ops), op, e)
  {
    ReachableInv(start, ops);
    if op.PayOp? || op.DonateOp? || op.PayManyOp? {
      PaymentRefusalTrue(Run(start, ops), op, e);
    } else if TableOp(op) {
      TableRefusalTrue(Run(start, ops), op, e);
    } else {
      VerdictRefusalTrue(Run(start, ops), op, e);
    }
  }
}
