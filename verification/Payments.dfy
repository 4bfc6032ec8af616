/** What each payment operation does to the tables, or why it is refused. */
module Payments {
  import opened Results
  import opened Ledger
  import opened FundLocation
  import opened Billing

  datatype Role = Warga | Staff

  /** Who asks; a resident's occupancy is looked up before the call. */
  datatype Caller = Caller(role: Role, user: nat, occupancy: Option<nat>)

  datatype PayError =
    | BadAmount | BillNotFound | InactiveBill | NotObligatory | InactiveDue | AlreadyPaid | BillCancelled
    | ForeignHousehold | AllPaid | FifoViolation | ExceedsRemaining | FullPaymentRequired
    | DueNotFound | DueExpired | NotVoluntary | DonationAmountSet | NoHousehold
    | NoBills | TooManyBills | NoAllocations | CountMismatch | DuplicateBill | DuplicateAllocation
    | AllocationMismatch | WrongTotal | MixedHouseholds
    | PaymentNotFound | NotPending | OwnPayment | DateRequired | LocationIsRequired | UnknownLocation
    | ClosedLocation | MethodMismatch | NotApproved | NoIncomeRow | InsufficientReversalBalance | CannotCancel
    | CannotDeactivate

  type Outcome = Result<State, PayError>

  // ----- Settling and reconciling -----

  function IncomeOf(p: Payment, id: nat, location: Option<nat>, at: int): Txn {
    Txn(p.amount, Income, None, Some(id), location, at)
  }

  /** A single payment of a voluntary bill always settles it; otherwise the new total decides. */
  function SettledStatus(due: Due, single: bool, total: int, amount: int): BillStatus {
    if single && due.isVoluntary then Paid
    else if total >= amount then Paid
    else Partial
  }

  predicate DuesKnown(s: State) {
    forall b :: 0 <= b < |s.bills| ==> s.bills[b].due < |s.dues|
  }

  /** The bills once `p`, not counted as approved yet, is approved: every bill it covers changes at once. */
  function SettledBills(s: State, p: Payment): (bills: seq<Bill>)
    requires DuesKnown(s)
    ensures |bills| == |s.bills|
  {
    seq(|s.bills|, b requires 0 <= b < |s.bills| =>
      if Covers(p, b)
      then s.bills[b].(status :=
             SettledStatus(DueOf(s, b), p.allocs == [], ApprovedTotal(s, b) + Share(p, b), s.bills[b].amount))
      else s.bills[b])
  }

  /** `p` is approved as row `id`: its bills are settled and one income row is posted. */
  function Settle(s: State, payments: seq<Payment>, p: Payment, id: nat, location: Option<nat>, at: int): State
    requires DuesKnown(s)
  {
    State(s.dues, SettledBills(s, p), payments, Post(s.books, IncomeOf(p, id, location, at)))
  }

  /** The bills once every bill covered by `p` has its status recomputed from the approved total. */
  function ReconciledBills(s: State, p: Payment): (bills: seq<Bill>)
    ensures |bills| == |s.bills|
  {
    seq(|s.bills|, b requires 0 <= b < |s.bills| =>
      if Covers(p, b) && s.bills[b].status != Cancelled
      then s.bills[b].(status := ComputedStatus(ApprovedTotal(s, b), s.bills[b].amount))
      else s.bills[b])
  }

  // ----- CreatePayment -----

  function Remaining(s: State, role: Role, b: nat): int
    requires b < |s.bills|
  {
    s.bills[b].amount - ApprovedTotal(s, b) - if role.Warga? then PendingTotal(s, b) else 0
  }

  function AmountError(due: Due, amount: int, remaining: int): Option<PayError> {
    if amount > remaining then Some(ExceedsRemaining)
    else if due.rule.Full? && amount != remaining then Some(FullPaymentRequired)
    else None
  }

  function SinglePayError(s: State, c: Caller, b: nat, amount: int): Option<PayError>
    requires DuesKnown(s)
  {
    if amount <= 0 then Some(BadAmount)
    else if b >= |s.bills| then Some(BillNotFound)
    else
      var bill := s.bills[b];
      var due := DueOf(s, b);
      if !bill.isActive then Some(InactiveBill)
      else if !due.isVoluntary && !bill.isObligatory then Some(NotObligatory)
      else if !due.isVoluntary && !due.isActive then Some(InactiveDue)
      else if !due.isVoluntary && bill.status == Paid then Some(AlreadyPaid)
      else if bill.status == Cancelled then Some(BillCancelled)
      else if c.role.Warga? && c.occupancy != Some(bill.occupancy) then Some(ForeignHousehold)
      else if due.isVoluntary then None
      else
        var q := Queue(s, bill.occupancy, bill.due);
        if q == [] then Some(AllPaid)
        else if q[0] != b then Some(FifoViolation)
        else AmountError(due, amount, Remaining(s, c.role, b))
  }

  /** `CreatePayment` on a bill: a resident's payment waits for approval, a staff payment is approved at once. */
  function CreateBillPayment(s: State, c: Caller, b: nat, amount: int, paidBy: PaymentMethod, at: int): Outcome
    requires DuesKnown(s)
  {
    var error := SinglePayError(s, c, b, amount);
    if error.Some? then Err(error.value)
    else
      var id := |s.payments|;
      match c.role
      case Warga =>
        Ok(s.(payments := s.payments + [Payment(ToBill(b), amount, paidBy, Pending, c.user, [])]))
      case Staff =>
        var p := Payment(ToBill(b), amount, paidBy, Approved, c.user, []);
        Ok(Settle(s, s.payments + [p], p, id, None, at))
  }

  predicate Expired(due: Due, today: int) {
    due.isVoluntary && due.validUntil.Some? && today > due.validUntil.value
  }

  /** `CreatePayment` on a voluntary due without a configured amount. */
  function CreateDonation(s: State, c: Caller, d: nat, amount: int, today: int, paidBy: PaymentMethod,
                          at: int): Outcome {
    if amount <= 0 then Err(BadAmount)
    else if d >= |s.dues| then Err(DueNotFound)
    else
      var due := s.dues[d];
      if !due.isActive then Err(InactiveDue)
      else if Expired(due, today) then Err(DueExpired)
      else if !due.isVoluntary then Err(NotVoluntary)
      else if due.amount != 0 then Err(DonationAmountSet)
      else if c.role.Warga? && c.occupancy.None? then Err(NoHousehold)
      else
        match c.role
        case Warga => Ok(s.(payments := s.payments + [Payment(ToDue(d), amount, paidBy, Pending, c.user, [])]))
        case Staff =>
          var p := Payment(ToDue(d), amount, paidBy, Approved, c.user, []);
          Ok(s.(payments := s.payments + [p], books := Post(s.books, IncomeOf(p, |s.payments|, None, at))))
  }

  // ----- CreateMultiPeriodPayment -----

  predicate Distinct(ids: seq<nat>) {
    forall i, j :: 0 <= i < j < |ids| ==> ids[i] != ids[j]
  }

  function RequestError(billIds: seq<nat>, allocs: seq<Alloc>, stated: Option<int>): (e: Option<PayError>)
    ensures e.None? ==> 0 < |allocs| == |billIds| <= 12 && DistinctBills(allocs)
    ensures e.None? ==> forall b :: b in billIds <==> HasAlloc(allocs, b)
  {
    if |billIds| == 0 then Some(NoBills)
    else if |billIds| > 12 then Some(TooManyBills)
    else if |allocs| == 0 then Some(NoAllocations)
    else if |allocs| != |billIds| then Some(CountMismatch)
    else if !Distinct(billIds) then Some(DuplicateBill)
    else if !DistinctBills(allocs) then Some(DuplicateAllocation)
    else if exists i :: 0 <= i < |billIds| && !HasAlloc(allocs, billIds[i]) then Some(AllocationMismatch)
    else if exists i :: 0 <= i < |allocs| && allocs[i].bill !in billIds then Some(AllocationMismatch)
    else if exists i :: 0 <= i < |allocs| && allocs[i].amount < 0 then Some(BadAmount)
    else if stated.Some? && (stated.value <= 0 || stated.value != AllocAmount(allocs)) then Some(WrongTotal)
    else None
  }

  function BillError(s: State, b: nat): Option<PayError> {
    if b >= |s.bills| then Some(BillNotFound)
    else
      var bill := s.bills[b];
      if bill.status == Paid then Some(AlreadyPaid)
      else if bill.status == Cancelled then Some(BillCancelled)
      else if !bill.isActive then Some(InactiveBill)
      else if !bill.isObligatory then Some(NotObligatory)
      else None
  }

  /** The first error of a list of checks; none when every check passes. */
  function FirstError(errors: seq<Option<PayError>>): (e: Option<PayError>)
    ensures e.None? <==> forall i :: 0 <= i < |errors| ==> errors[i].None?
  {
    if errors == [] then None
    else
      var earlier := FirstError(errors[..|errors| - 1]);
      if earlier.Some? then earlier else errors[|errors| - 1]
  }

  lemma {:induction false} FirstErrorIsFirst(errors: seq<Option<PayError>>) returns (i: nat)
    requires FirstError(errors).Some?
    ensures i < |errors| && errors[i] == FirstError(errors)
    ensures forall j :: 0 <= j < i ==> errors[j].None?
  {
    var init := errors[..|errors| - 1];
    if FirstError(init).Some? {
      i := FirstErrorIsFirst(init);
      assert forall j :: 0 <= j < i ==> init[j] == errors[j];
    } else {
      i := |errors| - 1;
      assert forall j :: 0 <= j < i ==> init[j] == errors[j];
    }
  }

  function InsertByBill(sorted: seq<Alloc>, a: Alloc): seq<Alloc> {
    if sorted == [] then [a]
    else if a.bill < sorted[0].bill then [a] + sorted
    else [sorted[0]] + InsertByBill(sorted[1..], a)
  }

  /** The allocations in ascending order of bill ids, which is the order the bills are locked and looked up in. */
  function ByBill(allocs: seq<Alloc>): seq<Alloc> {
    if allocs == [] then [] else InsertByBill(ByBill(allocs[..|allocs| - 1]), allocs[|allocs| - 1])
  }

  lemma {:induction false} InsertByBillMembers(sorted: seq<Alloc>, a: Alloc)
    ensures forall x :: x in InsertByBill(sorted, a) <==> x in sorted || x == a
  {
    if sorted != [] {
      assert sorted == [sorted[0]] + sorted[1..];
      if a.bill >= sorted[0].bill {
        InsertByBillMembers(sorted[1..], a);
      }
    }
  }

  lemma {:induction false} ByBillMembers(allocs: seq<Alloc>)
    ensures forall a :: a in ByBill(allocs) <==> a in allocs
  {
    if allocs != [] {
      var n := |allocs| - 1;
      assert allocs == allocs[..n] + [allocs[n]];
      ByBillMembers(allocs[..n]);
      InsertByBillMembers(ByBill(allocs[..n]), allocs[n]);
    }
  }

  ghost predicate Ascending(allocs: seq<Alloc>) {
    forall i, j :: 0 <= i < j < |allocs| ==> allocs[i].bill <= allocs[j].bill
  }

  lemma {:induction false} InsertByBillAscends(sorted: seq<Alloc>, a: Alloc)
    requires Ascending(sorted)
    ensures Ascending(InsertByBill(sorted, a))
  {
    if sorted != [] && a.bill >= sorted[0].bill {
      var rest := InsertByBill(sorted[1..], a);
      InsertByBillAscends(sorted[1..], a);
      InsertByBillMembers(sorted[1..], a);
      forall i | 0 <= i < |rest|
        ensures sorted[0].bill <= rest[i].bill
      {
        assert rest[i] in rest;
      }
    }
  }

  /** Bills are locked in ascending order, each allocation's once. */
  lemma {:induction false} ByBillAscends(allocs: seq<Alloc>)
    ensures Ascending(ByBill(allocs))
  {
    if allocs != [] {
      ByBillAscends(allocs[..|allocs| - 1]);
      InsertByBillAscends(ByBill(allocs[..|allocs| - 1]), allocs[|allocs| - 1]);
    }
  }

  predicate BillsExist(s: State, allocs: seq<Alloc>) {
    forall i :: 0 <= i < |allocs| ==> allocs[i].bill < |s.bills|
  }

  /** Every requested bill is looked up before any other check. */
  function BillErrors(s: State, allocs: seq<Alloc>): (errors: seq<Option<PayError>>)
    ensures FirstError(errors).None? ==> BillsExist(s, allocs)
  {
    var errors := seq(|allocs|, i requires 0 <= i < |allocs| => BillError(s, allocs[i].bill));
    assert forall i :: 0 <= i < |allocs| ==> errors[i] == BillError(s, allocs[i].bill);
    errors
  }

  /** Which order the bills are looked up in decides only which error is reported. */
  lemma AllLookedUp(s: State, allocs: seq<Alloc>)
    ensures FirstError(BillErrors(s, ByBill(allocs))).None? <==>
      forall i :: 0 <= i < |allocs| ==> BillError(s, allocs[i].bill).None?
    ensures FirstError(BillErrors(s, ByBill(allocs))).None? ==> BillsExist(s, allocs)
  {
    var sorted := ByBill(allocs);
    ByBillMembers(allocs);
    assert forall k :: 0 <= k < |sorted| ==> BillErrors(s, sorted)[k] == BillError(s, sorted[k].bill);
    assert forall i :: 0 <= i < |allocs| ==> allocs[i] in sorted;
    assert forall k :: 0 <= k < |sorted| ==> sorted[k] in allocs;
  }

  /** The requested bills of one due. */
  function BillsOfDue(s: State, allocs: seq<Alloc>, due: nat): seq<nat>
    requires BillsExist(s, allocs)
  {
    if allocs == [] then []
    else
      var last := allocs[|allocs| - 1];
      var rest := BillsOfDue(s, allocs[..|allocs| - 1], due);
      if s.bills[last.bill].due == due then rest + [last.bill] else rest
  }

  /** The requested bills of a due must be the oldest unpaid ones, none skipped. */
  function GroupError(s: State, allocs: seq<Alloc>, occupancy: nat, due: nat): Option<PayError>
    requires BillsExist(s, allocs)
  {
    var group := SortByPeriod(s.bills, BillsOfDue(s, allocs, due));
    var q := Queue(s, occupancy, due);
    if q == [] then Some(AllPaid)
    else if !(group <= q) then Some(FifoViolation)
    else None
  }

  /** Voluntary dues have no queue. */
  function QueueError(s: State, allocs: seq<Alloc>, occupancy: nat, i: nat): Option<PayError>
    requires DuesKnown(s) && i < |allocs| && BillsExist(s, allocs)
  {
    if DueOf(s, allocs[i].bill).isVoluntary then None
    else GroupError(s, allocs, occupancy, s.bills[allocs[i].bill].due)
  }

  function QueueErrors(s: State, allocs: seq<Alloc>, occupancy: nat): seq<Option<PayError>>
    requires DuesKnown(s) && BillsExist(s, allocs)
  {
    seq(|allocs|, i requires 0 <= i < |allocs| => QueueError(s, allocs, occupancy, i))
  }

  function AllocError(s: State, role: Role, a: Alloc): Option<PayError>
    requires DuesKnown(s) && a.bill < |s.bills|
  {
    if a.amount <= 0 then Some(BadAmount) else AmountError(DueOf(s, a.bill), a.amount, Remaining(s, role, a.bill))
  }

  function AllocErrors(s: State, role: Role, allocs: seq<Alloc>): seq<Option<PayError>>
    requires DuesKnown(s) && BillsExist(s, allocs)
  {
    seq(|allocs|, i requires 0 <= i < |allocs| => AllocError(s, role, allocs[i]))
  }

  predicate OneHousehold(s: State, allocs: seq<Alloc>)
    requires BillsExist(s, allocs)
  {
    forall i :: 0 <= i < |allocs| ==> s.bills[allocs[i].bill].occupancy == s.bills[allocs[0].bill].occupancy
  }

  function ManyError(s: State, c: Caller, billIds: seq<nat>, allocs: seq<Alloc>,
                     stated: Option<int>): (e: Option<PayError>)
    requires DuesKnown(s)
    ensures e.None? ==> allocs != [] && DistinctBills(allocs) && BillsExist(s, allocs)
  {
    var request := RequestError(billIds, allocs, stated);
    if request.Some? then request
    else
      AllLookedUp(s, allocs);
      var unpayable := FirstError(BillErrors(s, ByBill(allocs)));
      if unpayable.Some? then unpayable
      else if !OneHousehold(s, allocs) then Some(MixedHouseholds)
      else
        var occupancy := s.bills[allocs[0].bill].occupancy;
        var skipped := FirstError(QueueErrors(s, allocs, occupancy));
        if skipped.Some? then skipped
        else if c.role.Warga? && c.occupancy != Some(occupancy) then Some(ForeignHousehold)
        else FirstError(AllocErrors(s, c.role, allocs))
  }

  function ManyPayment(c: Caller, allocs: seq<Alloc>, paidBy: PaymentMethod, status: PaymentStatus): Payment
    requires allocs != []
  {
    Payment(ToBill(allocs[0].bill), AllocAmount(allocs), paidBy, status, c.user, allocs)
  }

  /** One payment row and one income row, whatever the number of bills. */
  function CreateMultiPayment(s: State, c: Caller, billIds: seq<nat>, allocs: seq<Alloc>, stated: Option<int>,
                              paidBy: PaymentMethod, at: int): Outcome
    requires DuesKnown(s)
  {
    var error := ManyError(s, c, billIds, allocs, stated);
    if error.Some? then Err(error.value)
    else
      match c.role
      case Warga => Ok(s.(payments := s.payments + [ManyPayment(c, allocs, paidBy, Pending)]))
      case Staff =>
        var p := ManyPayment(c, allocs, paidBy, Approved);
        Ok(Settle(s, s.payments + [p], p, |s.payments|, None, at))
  }

  // ----- VerifyPayment -----

  datatype Decision = Approve(location: Option<nat>, at: Option<int>, enforced: bool) | Reject

  function LocationError(b: Books, paidBy: PaymentMethod, location: Option<nat>, enforced: bool): Option<PayError> {
    if location.None? then (if enforced then Some(LocationIsRequired) else None)
    else if location.value >= |b.locations| then Some(UnknownLocation)
    else
      var place := b.locations[location.value];
      if !place.isActive then Some(ClosedLocation)
      else if paidBy.CashMethod? && place.category.Rekening? then Some(MethodMismatch)
      else if paidBy.BankMethod? && !place.category.Rekening? then Some(MethodMismatch)
      else None
  }

  /** `overpaid` tells an approval that turned into a rejection because the bill has too little left. */
  datatype Verified = Verified(state: State, overpaid: bool)

  function WithStatus(s: State, id: nat, status: PaymentStatus): seq<Payment>
    requires id < |s.payments|
  {
    s.payments[id := s.payments[id].(status := status)]
  }

  function RejectPayment(s: State, id: nat): State
    requires id < |s.payments|
  {
    var rejected := s.(payments := WithStatus(s, id, Rejected));
    rejected.(bills := ReconciledBills(rejected, s.payments[id]))
  }

  function ApproveSingle(s: State, id: nat, location: Option<nat>, at: int): Result<Verified, PayError>
    requires DuesKnown(s) && id < |s.payments| && s.payments[id].target.ToBill?
  {
    var p := s.payments[id];
    var b := p.target.bill;
    if b >= |s.bills| then Err(BillNotFound)
    else
      var bill, due := s.bills[b], DueOf(s, b);
      if !due.isVoluntary && bill.status == Paid then Err(AlreadyPaid)
      else if bill.status == Cancelled then Err(BillCancelled)
      else if !bill.isActive then Err(InactiveBill)
      else if !due.isVoluntary && !bill.isObligatory then Err(NotObligatory)
      else if !due.isVoluntary && p.amount > bill.amount - ApprovedTotal(s, b) then
        Ok(Verified(s.(payments := WithStatus(s, id, Rejected)), true))
      else Ok(Verified(Settle(s, WithStatus(s, id, Approved), p, id, location, at), false))
  }

  function AllocOverpays(s: State, a: Alloc): Option<PayError> {
    var error := BillError(s, a.bill);
    if error.Some? then error
    else if a.amount > s.bills[a.bill].amount - ApprovedTotal(s, a.bill) then Some(ExceedsRemaining)
    else None
  }

  function OverpayErrors(s: State, allocs: seq<Alloc>): seq<Option<PayError>> {
    seq(|allocs|, i requires 0 <= i < |allocs| => AllocOverpays(s, allocs[i]))
  }

  lemma NoneOverpays(s: State, allocs: seq<Alloc>)
    ensures FirstError(OverpayErrors(s, ByBill(allocs))).None? <==>
      forall i :: 0 <= i < |allocs| ==> AllocOverpays(s, allocs[i]).None?
  {
    var sorted := ByBill(allocs);
    ByBillMembers(allocs);
    assert forall k :: 0 <= k < |sorted| ==> OverpayErrors(s, sorted)[k] == AllocOverpays(s, sorted[k]);
    assert forall i :: 0 <= i < |allocs| ==> allocs[i] in sorted;
    assert forall k :: 0 <= k < |sorted| ==> sorted[k] in allocs;
  }

  function ApproveMulti(s: State, id: nat, location: Option<nat>, at: int): Result<Verified, PayError>
    requires DuesKnown(s) && id < |s.payments|
  {
    var p := s.payments[id];
    var error := FirstError(OverpayErrors(s, ByBill(p.allocs)));
    if error.Some? then Err(error.value)
    else Ok(Verified(Settle(s, WithStatus(s, id, Approved), p, id, location, at), false))
  }

  function ApproveDonation(s: State, id: nat, location: Option<nat>, at: int): Result<Verified, PayError>
    requires id < |s.payments| && s.payments[id].target.ToDue?
  {
    var p := s.payments[id];
    if p.target.due >= |s.dues| then Err(DueNotFound)
    else if !s.dues[p.target.due].isVoluntary then Err(NotVoluntary)
    else
      Ok(Verified(s.(payments := WithStatus(s, id, Approved),
                     books := Post(s.books, IncomeOf(p, id, location, at))), false))
  }

  function VerifyPayment(s: State, verifier: nat, id: nat, decision: Decision): Result<Verified, PayError>
    requires DuesKnown(s)
  {
    if id >= |s.payments| then Err(PaymentNotFound)
    else
      var p := s.payments[id];
      if p.status != Pending then Err(NotPending)
      else if p.submittedBy == verifier then Err(OwnPayment)
      else
        match decision
        case Reject => Ok(Verified(RejectPayment(s, id), false))
        case Approve(location, at, enforced) =>
          if at.None? then Err(DateRequired)
          else
            var error := LocationError(s.books, p.paidBy, location, enforced);
            if error.Some? then Err(error.value)
            else if p.target.ToDue? then ApproveDonation(s, id, location, at.value)
            else if p.allocs == [] then ApproveSingle(s, id, location, at.value)
            else ApproveMulti(s, id, location, at.value)
  }

  // ----- ReverseApprovedPayment -----

  predicate IsIncomeRow(t: Txn, id: nat) {
    t.payment == Some(id) && t.kind.Income? && t.reverses.None?
  }

  /** The oldest income row posted for the payment. */
  function FirstIncomeRow(txns: seq<Txn>, id: nat): (row: Option<nat>)
    ensures row.Some? ==> row.value < |txns| && IsIncomeRow(txns[row.value], id)
    ensures row.None? <==> forall i :: 0 <= i < |txns| ==> !IsIncomeRow(txns[i], id)
  {
    if txns == [] then None
    else
      var earlier := FirstIncomeRow(txns[..|txns| - 1], id);
      if earlier.Some? then earlier
      else if IsIncomeRow(txns[|txns| - 1], id) then Some(|txns| - 1)
      else None
  }

  function CompensationOf(p: Payment, id: nat, row: nat, location: Option<nat>, at: int): Txn {
    Txn(p.amount, Expense, Some(row), Some(id), location, at)
  }

  function ReversePayment(s: State, id: nat, at: int): Outcome {
    if id >= |s.payments| then Err(PaymentNotFound)
    else
      var p := s.payments[id];
      if p.status != Approved then Err(NotApproved)
      else
        var row := FirstIncomeRow(s.books.txns, id);
        if row.None? then Err(NoIncomeRow)
        else
          var location := s.books.txns[row.value].location;
          if location.Some? && CentsOrZero(LocationSum(s.books.changes, location.value)) < p.amount
          then Err(InsufficientReversalBalance)
          else
            var reversed := State(s.dues, s.bills, WithStatus(s, id, Reversed),
                                  Post(s.books, CompensationOf(p, id, row.value, location, at)));
            Ok(reversed.(bills := ReconciledBills(reversed, p)))
  }

  // ----- Bills -----

  /** `CancelBill`: only an unpaid bill that no approved payment reaches. */
  function CancelBill(s: State, b: nat): Outcome {
    if b >= |s.bills| then Err(BillNotFound)
    else if s.bills[b].status != Unpaid then Err(CannotCancel)
    else if PaymentCount(s.payments, b, Approved) > 0 then Err(CannotCancel)
    else Ok(s.(bills := s.bills[b := s.bills[b].(status := Cancelled)]))
  }

  /** `UpdateBillStatus`: a settled bill cannot be deactivated. */
  function SetBillActive(s: State, b: nat, active: bool): Outcome {
    if b >= |s.bills| then Err(BillNotFound)
    else
      var bill := s.bills[b];
      if !active && (bill.status == Paid || (ApprovedTotal(s, b) >= bill.amount && bill.amount > 0)) then Err(CannotDeactivate)
      else Ok(s.(bills := s.bills[b := bill.(isActive := active)]))
  }

  predicate SameKey(bill: Bill, occupancy: nat, due: nat, period: nat) {
    bill.occupancy == occupancy && bill.due == due && bill.period == period
  }

  predicate HasKey(bills: seq<Bill>, occupancy: nat, due: nat, period: nat) {
    exists b :: 0 <= b < |bills| && SameKey(bills[b], occupancy, due, period)
  }

  /** `BillCreate`: a new unpaid bill unless its key exists already. */
  function AddBill(s: State, occupancy: nat, due: nat, amount: int, period: nat, dueDate: nat,
                   obligatory: bool): Outcome {
    if due >= |s.dues| then Err(DueNotFound)
    else if amount < 0 then Err(BadAmount)
    else if HasKey(s.bills, occupancy, due, period) then Ok(s)
    else Ok(s.(bills := s.bills + [Bill(occupancy, due, amount, period, dueDate, Unpaid, true, obligatory)]))
  }

  /** Occupancy dates moved: the obligation flag of an unpaid bill is recomputed. */
  function SetObligatory(s: State, b: nat, obligatory: bool): Outcome {
    if b >= |s.bills| then Err(BillNotFound)
    else if s.bills[b].status != Unpaid then Ok(s)
    else Ok(s.(bills := s.bills[b := s.bills[b].(isObligatory := obligatory)]))
  }

  /** `UpdateDue` does not open a voluntary due again after its last day. */
  function SetDueActive(s: State, d: nat, active: bool, today: int): Outcome {
    if d >= |s.dues| then Err(DueNotFound)
    else if active && Expired(s.dues[d], today) then Err(DueExpired)
    else Ok(s.(dues := s.dues[d := s.dues[d].(isActive := active)]))
  }

  // ----- Runs -----

  datatype Op =
    | PayOp(caller: Caller, bill: nat, amount: int, paidBy: PaymentMethod, at: int)
    | DonateOp(caller: Caller, due: nat, amount: int, today: int, paidBy: PaymentMethod, at: int)
    | PayManyOp(caller: Caller, billIds: seq<nat>, allocs: seq<Alloc>, stated: Option<int>, paidBy: PaymentMethod, at: int)
    | VerifyOp(verifier: nat, payment: nat, decision: Decision)
    | ReverseOp(payment: nat, at: int)
    | CancelOp(bill: nat)
    | BillActiveOp(bill: nat, active: bool)
    | AddBillOp(occupancy: nat, due: nat, amount: int, period: nat, dueDate: nat, obligatory: bool)
    | ObligatoryOp(bill: nat, obligatory: bool)
    | DueActiveOp(due: nat, active: bool, today: int)
    | BookOp(op: FundLocation.BookOp)

  function Try(s: State, op: Op): Outcome
    requires DuesKnown(s)
  {
    match op
    case PayOp(c, b, amount, paidBy, at) => CreateBillPayment(s, c, b, amount, paidBy, at)
    case DonateOp(c, d, amount, today, paidBy, at) => CreateDonation(s, c, d, amount, today, paidBy, at)
    case PayManyOp(c, billIds, allocs, stated, paidBy, at) => CreateMultiPayment(s, c, billIds, allocs, stated, paidBy, at)
    case VerifyOp(verifier, id, decision) =>
      (match VerifyPayment(s, verifier, id, decision)
       case Ok(v) => Ok(v.state)
       case Err(e) => Err(e))
    case ReverseOp(id, at) => ReversePayment(s, id, at)
    case CancelOp(b) => CancelBill(s, b)
    case BillActiveOp(b, active) => SetBillActive(s, b, active)
    case AddBillOp(o, d, amount, period, dueDate, obligatory) => AddBill(s, o, d, amount, period, dueDate, obligatory)
    case ObligatoryOp(b, obligatory) => SetObligatory(s, b, obligatory)
    case DueActiveOp(d, active, today) => SetDueActive(s, d, active, today)
    case BookOp(bookOp) => Ok(s.(books := ApplyBooks(s.books, bookOp)))
  }

  /** No row is removed, and every bill keeps a due that exists. */
  ghost predicate Grows(s: State, t: State) {
    DuesKnown(t) && |t.bills| >= |s.bills| && |t.payments| >= |s.payments|
  }

  lemma PaymentGrows(s: State, op: Op, t: State)
    requires DuesKnown(s) && Try(s, op) == Ok(t)
    requires op.PayOp? || op.DonateOp? || op.PayManyOp?
    ensures Grows(s, t)
  {
  }

  lemma DecisionGrows(s: State, op: Op, t: State)
    requires DuesKnown(s) && Try(s, op) == Ok(t)
    requires op.VerifyOp? || op.ReverseOp?
    ensures Grows(s, t)
  {
  }

  lemma TryGrows(s: State, op: Op, t: State)
    requires DuesKnown(s) && Try(s, op) == Ok(t)
    ensures Grows(s, t)
  {
    if op.PayOp? || op.DonateOp? || op.PayManyOp? {
      PaymentGrows(s, op, t);
    } else if op.VerifyOp? || op.ReverseOp? {
      DecisionGrows(s, op, t);
    }
  }

  /** One service call as one atomic step; a refused call changes nothing. */
  function Step(s: State, op: Op): (t: State)
    requires DuesKnown(s)
    ensures DuesKnown(t) && |t.bills| >= |s.bills| && |t.payments| >= |s.payments|
  {
    var outcome := Try(s, op);
    if outcome.Ok? then
      TryGrows(s, op, outcome.value);
      outcome.value
    else s
  }

  function Run(s: State, ops: seq<Op>): (t: State)
    requires DuesKnown(s)
    ensures DuesKnown(t)
  {
    if ops == [] then s else Step(Run(s, ops[..|ops| - 1]), ops[|ops| - 1])
  }
}
