/** The payment service over mutable tables: each call does, row by row, what its specification says. */
module PaymentStore {
  import opened Results
  import opened Ledger
  import opened Billing
  import opened Payments
  import FundLocation
  import PaymentInvariants
  import FundStore

  /** A call reports an error exactly when its specification does, and an error leaves the tables alone. */
  ghost predicate Follows(outcome: Outcome, before: State, after: State, error: Option<PayError>) {
    match outcome
    case Ok(t) => error.None? && after == t
    case Err(e) => error == Some(e) && after == before
  }

  /** The same for an approval, which may also report that it became a rejection. */
  ghost predicate Verifies(outcome: Result<Verified, PayError>, before: State, after: State,
                           result: Result<bool, PayError>) {
    match outcome
    case Ok(v) => result == Ok(v.overpaid) && after == v.state
    case Err(e) => result == Err(e) && after == before
  }

  // ----- Checks that read only the request -----

  /** The first failing check of a list decides. */
  lemma {:induction false} FirstErrorAt(errors: seq<Option<PayError>>, i: nat)
    requires i < |errors| && errors[i].Some? && forall j :: 0 <= j < i ==> errors[j].None?
    ensures FirstError(errors) == errors[i]
  {
    var n := |errors| - 1;
    if i < n {
      FirstErrorAt(errors[..n], i);
    }
  }

  /** No duplicate bill ids. */
  method HasDuplicate(billIds: seq<nat>) returns (duplicate: bool, seen: set<nat>)
    ensures duplicate == !Distinct(billIds)
    ensures !duplicate ==> forall b :: b in seen <==> b in billIds
  {
    seen := {};
    for i := 0 to |billIds|
      invariant Distinct(billIds[..i])
      invariant forall b :: b in seen <==> b in billIds[..i]
    {
      if billIds[i] in seen {
        return true, seen;
      }
      seen := seen + {billIds[i]};
    }
    assert billIds[..|billIds|] == billIds;
    return false, seen;
  }

  /** Each allocation's amount by bill, unless a bill is named twice. */
  method AllocationMap(allocs: seq<Alloc>) returns (duplicate: bool, amounts: map<nat, int>)
    ensures duplicate == !DistinctBills(allocs)
    ensures !duplicate ==> forall b :: b in amounts <==> HasAlloc(allocs, b)
    ensures !duplicate ==> forall a :: a in allocs ==> a.bill in amounts && amounts[a.bill] == a.amount
  {
    amounts := map[];
    for i := 0 to |allocs|
      invariant forall j, k :: 0 <= j < k < i ==> allocs[j].bill != allocs[k].bill
      invariant forall b :: b in amounts <==> exists j :: 0 <= j < i && allocs[j].bill == b
      invariant forall j :: 0 <= j < i ==> amounts[allocs[j].bill] == allocs[j].amount
    {
      if allocs[i].bill in amounts {
        return true, amounts;
      }
      amounts := amounts[allocs[i].bill := allocs[i].amount];
    }
    return false, amounts;
  }

  /** The total of the allocations, unless one is negative and so no amount at all. */
  method SumAllocations(allocs: seq<Alloc>) returns (total: Option<int>)
    ensures total.None? <==> exists i :: 0 <= i < |allocs| && allocs[i].amount < 0
    ensures total.Some? ==> total.value == AllocAmount(allocs)
  {
    var cents := 0;
    for i := 0 to |allocs|
      invariant forall j :: 0 <= j < i ==> allocs[j].amount >= 0
      invariant cents == AllocAmount(allocs[..i])
    {
      if allocs[i].amount < 0 {
        return None;
      }
      cents := cents + allocs[i].amount;
      assert allocs[..i + 1][..i] == allocs[..i];
    }
    assert allocs[..|allocs|] == allocs;
    return Some(cents);
  }

  method ValidateRequest(billIds: seq<nat>, allocs: seq<Alloc>, stated: Option<int>) returns (error: Option<PayError>)
    ensures error == RequestError(billIds, allocs, stated)
  {
    if |billIds| == 0 {
      return Some(NoBills);
    }
    if |billIds| > 12 {
      return Some(TooManyBills);
    }
    if |allocs| == 0 {
      return Some(NoAllocations);
    }
    if |allocs| != |billIds| {
      return Some(CountMismatch);
    }
    var twice, seen := HasDuplicate(billIds);
    if twice {
      return Some(DuplicateBill);
    }
    var again, amounts := AllocationMap(allocs);
    if again {
      return Some(DuplicateAllocation);
    }
    for i := 0 to |billIds|
      invariant forall j :: 0 <= j < i ==> HasAlloc(allocs, billIds[j])
    {
      if billIds[i] !in amounts {
        return Some(AllocationMismatch);
      }
    }
    for i := 0 to |allocs|
      invariant forall j :: 0 <= j < i ==> allocs[j].bill in billIds
    {
      if allocs[i].bill !in seen {
        return Some(AllocationMismatch);
      }
    }
    var total := SumAllocations(allocs);
    if total.None? {
      return Some(BadAmount);
    }
    if stated.Some? && (stated.value <= 0 || stated.value != total.value) {
      return Some(WrongTotal);
    }
    return None;
  }

  // ----- The service -----

  /** What is read of a requested bill before anything is written. */
  datatype BillInfo = BillInfo(bill: Bill, due: Due, approved: int, remaining: int)

  /** The rows of payments point at bills that exist, and bills at dues that exist. */
  ghost predicate RowsValid(s: State) {
    DuesKnown(s) && forall i :: 0 <= i < |s.payments| ==> ValidPayment(s.payments[i], |s.bills|)
  }

  /** `infos` holds, for every requested bill, what stood in the tables. */
  ghost predicate Loaded(s: State, role: Role, allocs: seq<Alloc>, infos: map<nat, BillInfo>)
    requires DuesKnown(s)
  {
    forall a :: a in allocs ==>
      && a.bill in infos && a.bill < |s.bills|
      && infos[a.bill] == BillInfo(s.bills[a.bill], DueOf(s, a.bill), ApprovedTotal(s, a.bill), Remaining(s, role, a.bill))
  }

  /** A bill with its status recomputed from the approved payments. */
  function Recomputed(s: State, b: nat): Bill
    requires b < |s.bills|
  {
    if s.bills[b].status == Cancelled then s.bills[b]
    else s.bills[b].(status := ComputedStatus(ApprovedTotal(s, b), s.bills[b].amount))
  }

  /** Settling an allocated bill compares the total read before with the bill's amount. */
  lemma AllocationSettles(s: State, p: Payment, i: nat)
    requires DuesKnown(s) && ValidPayment(p, |s.bills|) && p.target.ToBill? && i < |p.allocs|
    ensures var a := p.allocs[i];
      SettledBills(s, p)[a.bill] == s.bills[a.bill].(status :=
        if ApprovedTotal(s, a.bill) + a.amount >= s.bills[a.bill].amount then Paid else Partial)
  {
    AllocSumOf(p.allocs, p.allocs[i].bill);
  }

  lemma NextLoaded(s: State, role: Role, allocs: seq<Alloc>, i: nat, infos: map<nat, BillInfo>)
    requires DuesKnown(s) && i < |allocs| && Loaded(s, role, allocs[..i], infos) && allocs[i].bill < |s.bills|
    ensures var b := allocs[i].bill;
      Loaded(s, role, allocs[..i + 1],
             infos[b := BillInfo(s.bills[b], DueOf(s, b), ApprovedTotal(s, b), Remaining(s, role, b))])
  {
    assert allocs[..i + 1] == allocs[..i] + [allocs[i]];
  }

  /** The bills once the first `n` allocations of `p` are settled. */
  function SettledUpTo(s: State, p: Payment, n: nat): seq<Bill>
    requires DuesKnown(s) && n <= |p.allocs|
  {
    seq(|s.bills|, b requires 0 <= b < |s.bills| =>
      if HasAlloc(p.allocs[..n], b) then SettledBills(s, p)[b] else s.bills[b])
  }

  lemma NextAlloc(allocs: seq<Alloc>, i: nat, b: nat)
    requires i < |allocs|
    ensures HasAlloc(allocs[..i + 1], b) <==> HasAlloc(allocs[..i], b) || b == allocs[i].bill
  {
    assert allocs[..i + 1][i] == allocs[i];
    assert forall j :: 0 <= j < i ==> allocs[..i + 1][j] == allocs[..i][j];
  }

  lemma NextSettled(s: State, p: Payment, i: nat)
    requires DuesKnown(s) && ValidPayment(p, |s.bills|) && p.target.ToBill? && i < |p.allocs|
    ensures var b := p.allocs[i].bill;
      SettledUpTo(s, p, i + 1) == SettledUpTo(s, p, i)[b := s.bills[b].(status :=
        if ApprovedTotal(s, b) + p.allocs[i].amount >= s.bills[b].amount then Paid else Partial)]
  {
    AllocationSettles(s, p, i);
    forall b | 0 <= b < |s.bills|
      ensures HasAlloc(p.allocs[..i + 1], b) <==> HasAlloc(p.allocs[..i], b) || b == p.allocs[i].bill
    {
      NextAlloc(p.allocs, i, b);
    }
  }

  /** No bill is settled twice: before its allocation's turn it stands as it stood. */
  lemma NotYetSettled(s: State, p: Payment, i: nat)
    requires DuesKnown(s) && ValidPayment(p, |s.bills|) && p.target.ToBill? && i < |p.allocs|
    ensures SettledUpTo(s, p, i)[p.allocs[i].bill] == s.bills[p.allocs[i].bill]
  {
    assert !HasAlloc(p.allocs[..i], p.allocs[i].bill);
  }

  lemma AllSettled(s: State, p: Payment)
    requires DuesKnown(s) && ValidPayment(p, |s.bills|) && p.target.ToBill? && p.allocs != []
    ensures SettledUpTo(s, p, |p.allocs|) == SettledBills(s, p)
  {
    assert p.allocs[..|p.allocs|] == p.allocs;
    assert HasAlloc(p.allocs, p.allocs[0].bill);
  }

  /** The queue check depends on the due alone. */
  lemma SameDueSameError(s: State, allocs: seq<Alloc>, occupancy: nat, i: nat, j: nat)
    requires DuesKnown(s) && BillsExist(s, allocs) && i < |allocs| && j < |allocs|
    requires s.bills[allocs[i].bill].due == s.bills[allocs[j].bill].due
    ensures QueueErrors(s, allocs, occupancy)[i] == QueueErrors(s, allocs, occupancy)[j]
  {
    assert QueueErrors(s, allocs, occupancy)[i] == QueueError(s, allocs, occupancy, i);
    assert QueueErrors(s, allocs, occupancy)[j] == QueueError(s, allocs, occupancy, j);
  }

  class PaymentService {
    var dues: seq<Due>
    var bills: seq<Bill>
    var payments: seq<Payment>
    const books: FundStore.FundBooks

    function View(): State
      reads this, books
    {
      State(dues, bills, payments, books.View())
    }

    ghost predicate Valid()
      reads this, books
    {
      RowsValid(View())
    }

    constructor (dues: seq<Due>, books: FundStore.FundBooks)
      ensures View() == State(dues, [], [], books.View()) && Valid() && this.books == books
    {
      this.dues, this.bills, this.payments, this.books := dues, [], [], books;
    }

    // ----- Single rows -----

    /** Whether the bill exists; only then its status changes. */
    method BillUpdateStatus(b: nat, status: BillStatus) returns (found: bool)
      modifies this`bills
      ensures found == (b < |old(bills)|)
      ensures bills == if found then old(bills)[b := old(bills)[b].(status := status)] else old(bills)
    {
      found := b < |bills|;
      if found {
        bills := bills[b := bills[b].(status := status)];
      }
    }

    /** Recompute one bill's status from its approved payments. */
    method ReconcileBillStatus(b: nat) returns (found: bool)
      modifies this`bills
      ensures found == (b < |old(bills)|)
      ensures |bills| == |old(bills)|
      ensures forall c :: 0 <= c < |bills| ==>
                bills[c] == if c == b then Recomputed(old(View()), c) else old(bills)[c]
    {
      if b >= |bills| {
        return false;
      }
      if bills[b].status == Cancelled {
        return true;
      }
      var approved := PaymentTotal(payments, b, Approved);
      var status;
      if approved >= bills[b].amount && bills[b].amount > 0 {
        status := Paid;
      } else if approved > 0 {
        status := Partial;
      } else {
        status := Unpaid;
      }
      found := BillUpdateStatus(b, status);
    }

    /** Recompute the status of every bill a payment reaches. */
    method ReconcilePayment(p: Payment)
      requires ValidPayment(p, |bills|)
      modifies this`bills
      ensures bills == ReconciledBills(old(View()), p)
    {
      if p.target.ToDue? {
        return;
      }
      var _ := ReconcileBillStatus(p.target.bill);
      for i := 0 to |p.allocs|
        invariant |bills| == |old(bills)|
        invariant forall c :: 0 <= c < |bills| ==>
                    bills[c] == if c == p.target.bill || exists j :: 0 <= j < i && p.allocs[j].bill == c
                                then Recomputed(old(View()), c) else old(bills)[c]
      {
        var _ := ReconcileBillStatus(p.allocs[i].bill);
      }
    }

    // ----- CreatePayment -----

    method CheckAmount(due: Due, amount: int, remaining: int) returns (error: Option<PayError>)
      ensures error == AmountError(due, amount, remaining)
    {
      if amount > remaining {
        return Some(ExceedsRemaining);
      }
      if due.rule.Full? && amount != remaining {
        return Some(FullPaymentRequired);
      }
      return None;
    }

    /** Everything that is checked before a payment of one bill is written, up to its queue. */
    method CheckPayable(c: Caller, b: nat) returns (error: Option<PayError>)
      requires Valid() && b < |bills|
      ensures forall amount :: amount > 0 ==>
                SinglePayError(View(), c, b, amount) ==
                if error.Some? || DueOf(View(), b).isVoluntary then error
                else AmountError(DueOf(View(), b), amount, Remaining(View(), c.role, b))
    {
      var bill := bills[b];
      var due := dues[bill.due];
      if !bill.isActive {
        return Some(InactiveBill);
      }
      if !due.isVoluntary && !bill.isObligatory {
        return Some(NotObligatory);
      }
      if !due.isVoluntary && !due.isActive {
        return Some(InactiveDue);
      }
      if !due.isVoluntary && bill.status == Paid {
        return Some(AlreadyPaid);
      }
      if bill.status == Cancelled {
        return Some(BillCancelled);
      }
      if c.role.Warga? && c.occupancy != Some(bill.occupancy) {
        return Some(ForeignHousehold);
      }
      if !due.isVoluntary {
        var oldest := Queue(View(), bill.occupancy, bill.due);
        if oldest == [] {
          return Some(AllPaid);
        }
        if oldest[0] != b {
          return Some(FifoViolation);
        }
      }
      return None;
    }

    /** Insert an approved payment of one bill, settle the bill and post the income row. */
    method InsertApproved(p: Payment, isVoluntary: bool, approved: int, at: int)
      requires Valid() && ValidPayment(p, |bills|) && p.target.ToBill? && p.allocs == []
      requires isVoluntary == dues[bills[p.target.bill].due].isVoluntary && approved == ApprovedTotal(View(), p.target.bill)
      modifies this`payments, this`bills, books`txns, books`changes
      ensures View() == Settle(old(View()), old(payments) + [p], p, |old(payments)|, None, at) && Valid()
    {
      var id := |payments|;
      payments := payments + [p];
      SettleOne(old(View()), p, isVoluntary, approved);
      var _ := books.TransactionCreate(Txn(p.amount, Income, None, Some(id), None, at));
    }

    method CreateBillPayment(c: Caller, b: nat, amount: int, paidBy: PaymentMethod, at: int)
      returns (error: Option<PayError>)
      requires Valid()
      modifies this`payments, this`bills, books`txns, books`changes
      ensures Follows(Payments.CreateBillPayment(old(View()), c, b, amount, paidBy, at), old(View()), View(), error)
      ensures Valid()
    {
      if amount <= 0 {
        return Some(BadAmount);
      }
      if b >= |bills| {
        return Some(BillNotFound);
      }
      error := CheckPayable(c, b);
      if error.Some? {
        return;
      }
      var due := dues[bills[b].due];
      var approved := PaymentTotal(payments, b, Approved);
      if c.role.Staff? {
        if !due.isVoluntary {
          error := CheckAmount(due, amount, bills[b].amount - approved);
          if error.Some? {
            return;
          }
        }
        InsertApproved(Payment(ToBill(b), amount, paidBy, Approved, c.user, []), due.isVoluntary, approved, at);
        return None;
      }
      if !due.isVoluntary {
        var pending := PaymentTotal(payments, b, Pending);
        error := CheckAmount(due, amount, bills[b].amount - approved - pending);
        if error.Some? {
          return;
        }
      }
      payments := payments + [Payment(ToBill(b), amount, paidBy, Pending, c.user, [])];
      return None;
    }

    /** Write the status of the one bill that an approved single payment reaches; `approved` was read before. */
    method SettleOne(ghost s: State, p: Payment, isVoluntary: bool, approved: int)
      requires DuesKnown(s) && s.bills == bills && s.dues == dues
      requires p.target.ToBill? && p.allocs == [] && p.target.bill < |bills|
      requires isVoluntary == dues[bills[p.target.bill].due].isVoluntary && approved == ApprovedTotal(s, p.target.bill)
      modifies this`bills
      ensures bills == SettledBills(s, p)
    {
      var b := p.target.bill;
      if isVoluntary {
        var _ := BillUpdateStatus(b, Paid);
      } else if approved + p.amount >= bills[b].amount {
        var _ := BillUpdateStatus(b, Paid);
      } else {
        var _ := BillUpdateStatus(b, Partial);
      }
      assert forall c: nat :: Covers(p, c) <==> c == b;
    }

    method CreateDonation(c: Caller, d: nat, amount: int, today: int, paidBy: PaymentMethod, at: int)
      returns (error: Option<PayError>)
      requires Valid()
      modifies this`payments, books`txns, books`changes
      ensures Follows(Payments.CreateDonation(old(View()), c, d, amount, today, paidBy, at), old(View()), View(), error)
      ensures Valid()
    {
      if amount <= 0 {
        return Some(BadAmount);
      }
      if d >= |dues| {
        return Some(DueNotFound);
      }
      var due := dues[d];
      if !due.isActive {
        return Some(InactiveDue);
      }
      if Expired(due, today) {
        return Some(DueExpired);
      }
      if !due.isVoluntary {
        return Some(NotVoluntary);
      }
      if due.amount != 0 {
        return Some(DonationAmountSet);
      }
      if c.role.Warga? && c.occupancy.None? {
        return Some(NoHousehold);
      }
      var id := |payments|;
      if c.role.Staff? {
        payments := payments + [Payment(ToDue(d), amount, paidBy, Approved, c.user, [])];
        var _ := books.TransactionCreate(Txn(amount, Income, None, Some(id), None, at));
      } else {
        payments := payments + [Payment(ToDue(d), amount, paidBy, Pending, c.user, [])];
      }
      return None;
    }

    // ----- CreateMultiPeriodPayment -----

    /** Lock and look up every requested bill, in ascending order of ids, and check that it may be paid at all. */
    method LoadBills(role: Role, allocs: seq<Alloc>) returns (error: Option<PayError>, infos: map<nat, BillInfo>)
      requires Valid()
      ensures error == FirstError(BillErrors(View(), ByBill(allocs)))
      ensures error.None? ==> Loaded(View(), role, allocs, infos)
    {
      infos := map[];
      var sorted := ByBill(allocs);
      ByBillMembers(allocs);
      ghost var s := View();
      ghost var errors := BillErrors(s, sorted);
      for i := 0 to |sorted|
        invariant forall j :: 0 <= j < i ==> errors[j].None?
        invariant Loaded(s, role, sorted[..i], infos)
      {
        error := CheckBill(sorted[i].bill);
        if error.Some? {
          FirstErrorAt(errors, i);
          return;
        }
        var info := LoadBill(role, sorted[i].bill);
        NextLoaded(s, role, sorted, i, infos);
        infos := infos[sorted[i].bill := info];
      }
      assert sorted[..|sorted|] == sorted;
      error := None;
    }

    /** What later checks need of one bill; a resident's remaining balance also leaves out pending money. */
    method LoadBill(role: Role, b: nat) returns (info: BillInfo)
      requires DuesKnown(View()) && b < |bills|
      ensures info == BillInfo(bills[b], DueOf(View(), b), ApprovedTotal(View(), b), Remaining(View(), role, b))
    {
      var approved := PaymentTotal(payments, b, Approved);
      var pending := 0;
      if role.Warga? {
        pending := PaymentTotal(payments, b, Pending);
      }
      info := BillInfo(bills[b], dues[bills[b].due], approved, bills[b].amount - approved - pending);
    }

    method CheckBill(b: nat) returns (error: Option<PayError>)
      ensures error == BillError(View(), b)
    {
      if b >= |bills| {
        return Some(BillNotFound);
      }
      var bill := bills[b];
      if bill.status == Paid {
        return Some(AlreadyPaid);
      }
      if bill.status == Cancelled {
        return Some(BillCancelled);
      }
      if !bill.isActive {
        return Some(InactiveBill);
      }
      if !bill.isObligatory {
        return Some(NotObligatory);
      }
      return None;
    }

    /** Group the requested bills by due, and require of each group that it is the front of its queue. */
    method CheckQueues(allocs: seq<Alloc>, occupancy: nat) returns (error: Option<PayError>)
      requires Valid() && BillsExist(View(), allocs)
      ensures error == FirstError(QueueErrors(View(), allocs, occupancy))
    {
      ghost var s := View();
      ghost var errors := QueueErrors(s, allocs, occupancy);
      var checked: set<nat> := {};
      for i := 0 to |allocs|
        invariant forall j :: 0 <= j < i ==> errors[j].None?
        invariant forall d :: d in checked <==> exists j :: 0 <= j < i && bills[allocs[j].bill].due == d
      {
        var d := bills[allocs[i].bill].due;
        if d in checked {
          ghost var j :| 0 <= j < i && bills[allocs[j].bill].due == d;
          SameDueSameError(s, allocs, occupancy, i, j);
        } else {
          checked := checked + {d};
          error := CheckDue(allocs, occupancy, i);
          assert errors[i] == error;
          if error.Some? {
            FirstErrorAt(errors, i);
            return;
          }
        }
      }
      return None;
    }

    method CheckDue(allocs: seq<Alloc>, occupancy: nat, i: nat) returns (error: Option<PayError>)
      requires Valid() && i < |allocs| && BillsExist(View(), allocs)
      ensures error == QueueError(View(), allocs, occupancy, i)
    {
      var d := bills[allocs[i].bill].due;
      if dues[d].isVoluntary {
        return None;
      }
      error := CheckGroup(allocs, occupancy, d);
    }

    method CheckGroup(allocs: seq<Alloc>, occupancy: nat, d: nat) returns (error: Option<PayError>)
      requires BillsExist(View(), allocs)
      ensures error == GroupError(View(), allocs, occupancy, d)
    {
      var ids: seq<nat> := [];
      for i := 0 to |allocs|
        invariant ids == BillsOfDue(View(), allocs[..i], d)
      {
        if bills[allocs[i].bill].due == d {
          ids := ids + [allocs[i].bill];
        }
        assert allocs[..i + 1][..i] == allocs[..i];
      }
      assert allocs[..|allocs|] == allocs;
      var group := SortByPeriod(bills, ids);
      var waiting := Queue(View(), occupancy, d);
      if waiting == [] {
        return Some(AllPaid);
      }
      var oldest := if |waiting| < |group| then waiting else waiting[..|group|];
      if |oldest| < |group| {
        return Some(FifoViolation);
      }
      for i := 0 to |group|
        invariant group[..i] == oldest[..i]
      {
        if group[i] != oldest[i] {
          return Some(FifoViolation);
        }
      }
      assert group[..|group|] == group;
      return None;
    }

    method CheckAmounts(role: Role, allocs: seq<Alloc>, infos: map<nat, BillInfo>) returns (error: Option<PayError>)
      requires Valid() && BillsExist(View(), allocs) && Loaded(View(), role, allocs, infos)
      ensures error == FirstError(AllocErrors(View(), role, allocs))
    {
      ghost var errors := AllocErrors(View(), role, allocs);
      for i := 0 to |allocs|
        invariant forall j :: 0 <= j < i ==> errors[j].None?
      {
        var a := allocs[i];
        var info := infos[a.bill];
        if a.amount <= 0 {
          error := Some(BadAmount);
        } else {
          error := CheckAmount(info.due, a.amount, info.remaining);
        }
        assert errors[i] == AllocError(View(), role, a);
        if error.Some? {
          FirstErrorAt(errors, i);
          return;
        }
      }
      return None;
    }

    /** Write the status of every allocated bill from the totals read before the payment was inserted. */
    method SettleAllocations(ghost s: State, p: Payment, infos: map<nat, BillInfo>)
      requires DuesKnown(s) && s.bills == bills && ValidPayment(p, |bills|) && p.target.ToBill? && p.allocs != []
      requires Loaded(s, Staff, p.allocs, infos)
      modifies this`bills
      ensures bills == SettledBills(s, p)
    {
      assert SettledUpTo(s, p, 0) == s.bills;
      for i := 0 to |p.allocs|
        invariant bills == SettledUpTo(s, p, i)
      {
        var a := p.allocs[i];
        var info := infos[a.bill];
        NotYetSettled(s, p, i);
        NextSettled(s, p, i);
        if info.approved + a.amount >= info.bill.amount {
          var _ := BillUpdateStatus(a.bill, Paid);
        } else {
          var _ := BillUpdateStatus(a.bill, Partial);
        }
      }
      AllSettled(s, p);
    }

    /** Settle the allocated bills and post one income row for the whole payment; `s` is the state before its
        approval. */
    method PostMultiPeriod(ghost s: State, p: Payment, id: nat, infos: map<nat, BillInfo>, location: Option<nat>,
                           at: int)
      requires s == View().(payments := s.payments) && DuesKnown(s)
      requires ValidPayment(p, |bills|) && p.target.ToBill? && p.allocs != [] && Loaded(s, Staff, p.allocs, infos)
      modifies this`bills, books`txns, books`changes
      ensures View() == Settle(s, old(payments), p, id, location, at)
    {
      SettleAllocations(s, p, infos);
      var _ := books.TransactionCreate(Txn(p.amount, Income, None, Some(id), location, at));
    }

    method CheckHousehold(allocs: seq<Alloc>, occupancy: nat) returns (same: bool)
      requires BillsExist(View(), allocs)
      ensures same <==> forall i :: 0 <= i < |allocs| ==> bills[allocs[i].bill].occupancy == occupancy
    {
      for i := 0 to |allocs|
        invariant forall j :: 0 <= j < i ==> bills[allocs[j].bill].occupancy == occupancy
      {
        if bills[allocs[i].bill].occupancy != occupancy {
          return false;
        }
      }
      return true;
    }

    /** Everything that is checked before a multi-period payment is written. */
    method CheckRequest(c: Caller, billIds: seq<nat>, allocs: seq<Alloc>, stated: Option<int>)
      returns (error: Option<PayError>, infos: map<nat, BillInfo>)
      requires Valid()
      ensures error == ManyError(View(), c, billIds, allocs, stated)
      ensures error.None? ==> Loaded(View(), c.role, allocs, infos)
    {
      infos := map[];
      error := ValidateRequest(billIds, allocs, stated);
      if error.Some? {
        return;
      }
      error, infos := LoadBills(c.role, allocs);
      if error.Some? {
        return;
      }
      AllLookedUp(View(), allocs);
      var occupancy := bills[allocs[0].bill].occupancy;
      var same := CheckHousehold(allocs, occupancy);
      if !same {
        return Some(MixedHouseholds), infos;
      }
      error := CheckQueues(allocs, occupancy);
      if error.Some? {
        return;
      }
      if c.role.Warga? && c.occupancy != Some(occupancy) {
        return Some(ForeignHousehold), infos;
      }
      error := CheckAmounts(c.role, allocs, infos);
    }

    /** One payment row, its allocations, and for staff the bills' statuses and one income row. */
    method CreateMultiPeriodPayment(c: Caller, billIds: seq<nat>, allocs: seq<Alloc>, stated: Option<int>,
                                    paidBy: PaymentMethod, at: int)
      returns (error: Option<PayError>)
      requires Valid()
      modifies this`payments, this`bills, books`txns, books`changes
      ensures Follows(CreateMultiPayment(old(View()), c, billIds, allocs, stated, paidBy, at), old(View()), View(), error)
      ensures Valid()
    {
      var infos;
      error, infos := CheckRequest(c, billIds, allocs, stated);
      if error.Some? {
        return;
      }
      PaymentInvariants.ManyFits(View(), c, billIds, allocs, stated, paidBy, Approved);
      var total := SumAllocations(allocs);
      InsertMultiPeriod(c, allocs, total.value, paidBy, at, infos);
    }

    method InsertMultiPeriod(c: Caller, allocs: seq<Alloc>, total: int, paidBy: PaymentMethod, at: int,
                             infos: map<nat, BillInfo>)
      requires Valid() && allocs != [] && total == AllocAmount(allocs) && Loaded(View(), c.role, allocs, infos)
      requires ValidPayment(ManyPayment(c, allocs, paidBy, Approved), |bills|)
      modifies this`payments, this`bills, books`txns, books`changes
      ensures var s := old(View());
        View() == if c.role.Warga? then s.(payments := s.payments + [ManyPayment(c, allocs, paidBy, Pending)])
        else
          var p := ManyPayment(c, allocs, paidBy, Approved);
          Settle(s, s.payments + [p], p, |s.payments|, None, at)
      ensures Valid()
    {
      var status := if c.role.Staff? then Approved else Pending;
      var p := Payment(ToBill(allocs[0].bill), total, paidBy, status, c.user, allocs);
      var id := |payments|;
      payments := payments + [p];
      if c.role.Staff? {
        PostMultiPeriod(old(View()), p, id, infos, None, at);
      }
    }

    // ----- VerifyPayment -----

    method ValidatePaymentLocation(paidBy: PaymentMethod, location: Option<nat>, enforced: bool)
      returns (error: Option<PayError>)
      ensures error == LocationError(books.View(), paidBy, location, enforced)
    {
      if location.None? {
        return if enforced then Some(LocationIsRequired) else None;
      }
      if location.value >= |books.locations| {
        return Some(UnknownLocation);
      }
      var place := books.locations[location.value];
      if !place.isActive {
        return Some(ClosedLocation);
      }
      if paidBy == CashMethod {
        if place.category != CashOnHand && place.category != Brankas {
          return Some(MethodMismatch);
        }
      } else if place.category != Rekening {
        return Some(MethodMismatch);
      }
      return None;
    }

    method PaymentVerify(id: nat, status: PaymentStatus)
      requires id < |payments|
      modifies this`payments
      ensures payments == old(payments)[id := old(payments)[id].(status := status)]
    {
      payments := payments[id := payments[id].(status := status)];
    }

    /** Whether an approval turned into a rejection for lack of room is reported with the success. */
    method VerifyPayment(verifier: nat, id: nat, decision: Decision) returns (result: Result<bool, PayError>)
      requires Valid()
      modifies this`payments, this`bills, books`txns, books`changes
      ensures Verifies(Payments.VerifyPayment(old(View()), verifier, id, decision), old(View()), View(), result)
      ensures Valid()
    {
      if id >= |payments| {
        return Err(PaymentNotFound);
      }
      var p := payments[id];
      if p.status != Pending {
        return Err(NotPending);
      }
      if p.submittedBy == verifier {
        return Err(OwnPayment);
      }
      if decision.Reject? {
        PaymentVerify(id, Rejected);
        ReconcilePayment(p);
        return Ok(false);
      }
      if decision.at.None? {
        return Err(DateRequired);
      }
      var error := ValidatePaymentLocation(p.paidBy, decision.location, decision.enforced);
      if error.Some? {
        return Err(error.value);
      }
      if p.target.ToDue? {
        result := VerifyDonation(id, decision.location, decision.at.value);
      } else if p.allocs == [] {
        result := VerifySinglePayment(id, decision.location, decision.at.value);
      } else {
        result := VerifyMultiPeriodPayment(id, decision.location, decision.at.value);
      }
    }

    method VerifyDonation(id: nat, location: Option<nat>, at: int) returns (result: Result<bool, PayError>)
      requires Valid() && id < |payments| && payments[id].target.ToDue?
      modifies this`payments, books`txns, books`changes
      ensures Verifies(ApproveDonation(old(View()), id, location, at), old(View()), View(), result)
      ensures Valid()
    {
      var p := payments[id];
      if p.target.due >= |dues| {
        return Err(DueNotFound);
      }
      if !dues[p.target.due].isVoluntary {
        return Err(NotVoluntary);
      }
      PaymentVerify(id, Approved);
      var _ := books.TransactionCreate(Txn(p.amount, Income, None, Some(id), location, at));
      return Ok(false);
    }

    method VerifySinglePayment(id: nat, location: Option<nat>, at: int) returns (result: Result<bool, PayError>)
      requires Valid() && id < |payments| && payments[id].target.ToBill? && payments[id].allocs == []
      modifies this`payments, this`bills, books`txns, books`changes
      ensures Verifies(ApproveSingle(old(View()), id, location, at), old(View()), View(), result)
      ensures Valid()
    {
      var p := payments[id];
      var b := p.target.bill;
      var bill := bills[b];
      var due := dues[bill.due];
      if !due.isVoluntary && bill.status == Paid {
        return Err(AlreadyPaid);
      }
      if bill.status == Cancelled {
        return Err(BillCancelled);
      }
      if !bill.isActive {
        return Err(InactiveBill);
      }
      if !due.isVoluntary && !bill.isObligatory {
        return Err(NotObligatory);
      }
      var approved := PaymentTotal(payments, b, Approved);
      if !due.isVoluntary {
        var remaining := bill.amount - approved;
        if p.amount > remaining {
          PaymentVerify(id, Rejected);
          return Ok(true);
        }
      }
      PaymentVerify(id, Approved);
      SettleOne(old(View()), p, due.isVoluntary, approved);
      var _ := books.TransactionCreate(Txn(p.amount, Income, None, Some(id), location, at));
      return Ok(false);
    }

    /** Before a payment of several bills is approved, every bill is locked and checked again. */
    method CheckApproval(allocs: seq<Alloc>) returns (error: Option<PayError>, infos: map<nat, BillInfo>)
      requires Valid()
      ensures error == FirstError(OverpayErrors(View(), ByBill(allocs)))
      ensures error.None? ==> Loaded(View(), Staff, allocs, infos)
    {
      infos := map[];
      var sorted := ByBill(allocs);
      ByBillMembers(allocs);
      ghost var errors := OverpayErrors(View(), sorted);
      for i := 0 to |sorted|
        invariant forall j :: 0 <= j < i ==> errors[j].None?
        invariant Loaded(View(), Staff, sorted[..i], infos)
      {
        var a := sorted[i];
        assert errors[i] == AllocOverpays(View(), a);
        error := CheckBill(a.bill);
        if error.Some? {
          FirstErrorAt(errors, i);
          return;
        }
        var approved := PaymentTotal(payments, a.bill, Approved);
        var remaining := bills[a.bill].amount - approved;
        if a.amount > remaining {
          FirstErrorAt(errors, i);
          return Some(ExceedsRemaining), infos;
        }
        NextLoaded(View(), Staff, sorted, i, infos);
        infos := infos[a.bill := BillInfo(bills[a.bill], dues[bills[a.bill].due], approved, remaining)];
      }
      assert sorted[..|sorted|] == sorted;
      error := None;
    }

    method VerifyMultiPeriodPayment(id: nat, location: Option<nat>, at: int) returns (result: Result<bool, PayError>)
      requires Valid() && id < |payments| && payments[id].target.ToBill? && payments[id].allocs != []
      modifies this`payments, this`bills, books`txns, books`changes
      ensures Verifies(ApproveMulti(old(View()), id, location, at), old(View()), View(), result)
      ensures Valid()
    {
      var p := payments[id];
      var error, infos := CheckApproval(p.allocs);
      if error.Some? {
        return Err(error.value);
      }
      PaymentVerify(id, Approved);
      PostMultiPeriod(old(View()), p, id, infos, location, at);
      return Ok(false);
    }

    // ----- ReverseApprovedPayment -----

    /** The oldest income row posted for the payment. */
    method FindIncomeRow(id: nat) returns (row: Option<nat>)
      ensures row == FirstIncomeRow(books.txns, id)
    {
      row := None;
      for i := 0 to |books.txns|
        invariant row == FirstIncomeRow(books.txns[..i], id)
      {
        if row.None? && IsIncomeRow(books.txns[i], id) {
          row := Some(i);
        }
        assert books.txns[..i + 1][..i] == books.txns[..i];
      }
      assert books.txns[..|books.txns|] == books.txns;
    }

    method ReverseApprovedPayment(id: nat, at: int) returns (error: Option<PayError>)
      requires Valid()
      modifies this`payments, this`bills, books`txns, books`changes
      ensures Follows(ReversePayment(old(View()), id, at), old(View()), View(), error)
      ensures Valid()
    {
      if id >= |payments| {
        return Some(PaymentNotFound);
      }
      var p := payments[id];
      if p.status != Approved {
        return Some(NotApproved);
      }
      var row := FindIncomeRow(id);
      if row.None? {
        return Some(NoIncomeRow);
      }
      var location := books.txns[row.value].location;
      if location.Some? {
        var balance := LocationSum(books.changes, location.value);
        if FundLocation.CentsOrZero(balance) < p.amount {
          return Some(InsufficientReversalBalance);
        }
      }
      var _ := books.TransactionCreate(Txn(p.amount, Expense, row, Some(id), location, at));
      PaymentVerify(id, Reversed);
      ReconcilePayment(p);
      return None;
    }

    // ----- Bills -----

    method CancelBill(b: nat) returns (error: Option<PayError>)
      requires Valid()
      modifies this`bills
      ensures Follows(Payments.CancelBill(old(View()), b), old(View()), View(), error)
      ensures Valid()
    {
      if b >= |bills| {
        return Some(BillNotFound);
      }
      if bills[b].status != Unpaid {
        return Some(CannotCancel);
      }
      if PaymentCount(payments, b, Approved) > 0 {
        return Some(CannotCancel);
      }
      var _ := BillUpdateStatus(b, Cancelled);
      return None;
    }

    method UpdateBillStatus(b: nat, active: bool) returns (error: Option<PayError>)
      requires Valid()
      modifies this`bills
      ensures Follows(SetBillActive(old(View()), b, active), old(View()), View(), error)
      ensures Valid()
    {
      if b >= |bills| {
        return Some(BillNotFound);
      }
      if !active {
        if bills[b].status == Paid {
          return Some(CannotDeactivate);
        }
        var approved := PaymentTotal(payments, b, Approved);
        if approved >= bills[b].amount && bills[b].amount > 0 {
          return Some(CannotDeactivate);
        }
      }
      bills := bills[b := bills[b].(isActive := active)];
      return None;
    }

    /** Inserts the bill unless its key is taken. */
    method BillCreate(occupancy: nat, due: nat, amount: int, period: nat, dueDate: nat, obligatory: bool)
      returns (error: Option<PayError>)
      requires Valid()
      modifies this`bills
      ensures Follows(AddBill(old(View()), occupancy, due, amount, period, dueDate, obligatory), old(View()), View(), error)
      ensures Valid()
    {
      if due >= |dues| {
        return Some(DueNotFound);
      }
      if amount < 0 {
        return Some(BadAmount);
      }
      for i := 0 to |bills|
        invariant forall j :: 0 <= j < i ==> !SameKey(bills[j], occupancy, due, period)
      {
        if SameKey(bills[i], occupancy, due, period) {
          return None;
        }
      }
      bills := bills + [Bill(occupancy, due, amount, period, dueDate, Unpaid, true, obligatory)];
      return None;
    }
  }
}
