/** The queue of unpaid bills always moves: its head can be paid, and paying it removes exactly that bill. */
module FifoProgress {
  import opened Results
  import opened Ledger
  import opened Billing
  import opened Payments
  import opened PaymentInvariants

  /** Two rising sequences of the same bills are the same sequence. */
  lemma RisingUnique(bills: seq<Bill>, a: seq<nat>, b: seq<nat>)
    requires PeriodsRise(bills, a) && PeriodsRise(bills, b)
    requires forall x: nat :: x in a <==> x in b
    ensures a == b
  {
    PrefixMeansClosed(bills, a, b);
    PrefixMeansClosed(bills, b, a);
  }

  /** Rows keep their household, due, period and flags. */
  ghost predicate SameRows(s: State, t: State) {
    && |t.bills| == |s.bills| && t.dues == s.dues
    && forall b :: 0 <= b < |s.bills| ==> t.bills[b] == s.bills[b].(status := t.bills[b].status)
  }

  /** If exactly one bill stops being eligible, and it is the head, the queue loses its head and nothing else. */
  lemma HeadLeaves(s: State, t: State, occupancy: nat, due: nat)
    requires UniqueKeys(s.bills) && UniqueKeys(t.bills) && SameRows(s, t) && Queue(s, occupancy, due) != []
    requires forall c: nat ::
      Eligible(t, c, occupancy, due) <==> Eligible(s, c, occupancy, due) && c != Queue(s, occupancy, due)[0]
    ensures Queue(t, occupancy, due) == Queue(s, occupancy, due)[1..]
  {
    var q, r := Queue(s, occupancy, due), Queue(t, occupancy, due);
    QueueMembers(s, occupancy, due);
    QueueMembers(t, occupancy, due);
    QueueRises(s, occupancy, due);
    QueueRises(t, occupancy, due);
    forall c: nat
      ensures c in r <==> c in q[1..]
    {
      assert q == [q[0]] + q[1..];
      if c in q[1..] {
        var i :| 0 <= i < |q[1..]| && q[1..][i] == c;
        assert q[i + 1] == c;
      }
    }
    RisingUnique(s.bills, q[1..], r);
  }

  // ----- One payment -----

  /** Active, non-voluntary, with a bill waiting. */
  ghost predicate Waiting(s: State, occupancy: nat, due: nat) {
    due < |s.dues| && s.dues[due].isActive && !s.dues[due].isVoluntary && Queue(s, occupancy, due) != []
  }

  function PayHead(s: State, c: Caller, occupancy: nat, due: nat, at: int): Op
    requires Queue(s, occupancy, due) != []
  {
    var b := Queue(s, occupancy, due)[0];
    PayOp(c, b, if b < |s.bills| then Remaining(s, Staff, b) else 0, CashMethod, at)
  }

  lemma HeadIsAccepted(s: State, c: Caller, occupancy: nat, due: nat, at: int)
    requires Inv(s) && Waiting(s, occupancy, due) && c.role.Staff?
    ensures var op := PayHead(s, c, occupancy, due, at);
      op.amount > 0 && SinglePayError(s, c, op.bill, op.amount).None?
  {
    var b := Queue(s, occupancy, due)[0];
    HeadIsOldest(s, occupancy, due, b);
    assert BillAgrees(s, b);
  }

  lemma HeadPaymentTotals(s: State, c: Caller, b: nat, amount: int, at: int, e: nat)
    requires DuesKnown(s) && c.role.Staff? && SinglePayError(s, c, b, amount).None?
    ensures ApprovedTotal(Step(s, PayOp(c, b, amount, CashMethod, at)), e)
      == ApprovedTotal(s, e) + if e == b then amount else 0
  {
    AppendShare(s.payments, Payment(ToBill(b), amount, CashMethod, Approved, c.user, []), e, Approved);
  }

  /** From `s` to `t` one payment settled the head of the queue, and the queue and the bills changed by that alone. */
  ghost predicate HeadSettled(s: State, t: State, occupancy: nat, due: nat)
    requires Queue(s, occupancy, due) != []
  {
    var q := Queue(s, occupancy, due);
    && SameRows(s, t) && |t.payments| == |s.payments| + 1
    && q[0] < |s.bills| && t.bills == s.bills[q[0] := s.bills[q[0]].(status := Paid)]
    && ApprovedTotal(t, q[0]) == s.bills[q[0]].amount
    && Queue(t, occupancy, due) == q[1..]
  }

  /** A staff payment of a remaining balance: one bill paid, one approved payment, one income row. */
  lemma StaffPaymentShape(s: State, staff: Caller, b: nat, amount: int, at: int, t: State)
    requires DuesKnown(s) && staff.role.Staff? && SinglePayError(s, staff, b, amount).None?
    requires !DueOf(s, b).isVoluntary && amount == Remaining(s, Staff, b)
    requires t == Step(s, PayOp(staff, b, amount, CashMethod, at))
    ensures t.dues == s.dues && t.bills == s.bills[b := s.bills[b].(status := Paid)]
    ensures t.payments == s.payments + [Payment(ToBill(b), amount, CashMethod, Approved, staff.user, [])]
    ensures t.books == Post(s.books, Txn(amount, Income, None, Some(|s.payments|), None, at))
  {
  }

  /** Once the head's balance is paid, exactly the head stops being eligible. */
  lemma OnlyHeadLeaves(s: State, t: State, occupancy: nat, due: nat, b: nat)
    requires UniqueKeys(s.bills) && b < |s.bills| && Queue(s, occupancy, due) != [] && Queue(s, occupancy, due)[0] == b
    requires t.dues == s.dues && t.bills == s.bills[b := s.bills[b].(status := Paid)]
    requires forall e: nat :: ApprovedTotal(t, e) == if e == b then s.bills[b].amount else ApprovedTotal(s, e)
    ensures Queue(t, occupancy, due) == Queue(s, occupancy, due)[1..]
  {
    forall e: nat
      ensures Eligible(t, e, occupancy, due) <==> Eligible(s, e, occupancy, due) && e != b
    {
    }
    HeadLeaves(s, t, occupancy, due);
  }

  lemma HeadPaymentSettles(s: State, c: Caller, occupancy: nat, due: nat, at: int, op: Op, t: State)
    requires Inv(s) && Waiting(s, occupancy, due) && c.role.Staff?
    requires op == PayHead(s, c, occupancy, due, at) && SinglePayError(s, c, op.bill, op.amount).None?
    requires t == Step(s, op)
    ensures HeadSettled(s, t, occupancy, due)
  {
    var b := Queue(s, occupancy, due)[0];
    HeadIsOldest(s, occupancy, due, b);
    StaffPaymentShape(s, c, b, op.amount, at, t);
    forall e: nat
      ensures ApprovedTotal(t, e) == if e == b then s.bills[b].amount else ApprovedTotal(s, e)
    {
      HeadPaymentTotals(s, c, b, op.amount, at, e);
    }
    OnlyHeadLeaves(s, t, occupancy, due, b);
  }

  /** Staff may always pay the head of the queue in full, and the payment takes exactly the head off the queue. */
  lemma HeadPaymentProgress(s: State, c: Caller, occupancy: nat, due: nat, at: int)
    requires Inv(s) && Waiting(s, occupancy, due) && c.role.Staff?
    ensures Try(s, PayHead(s, c, occupancy, due, at)).Ok?
    ensures Inv(Step(s, PayHead(s, c, occupancy, due, at)))
    ensures HeadSettled(s, Step(s, PayHead(s, c, occupancy, due, at)), occupancy, due)
  {
    var op := PayHead(s, c, occupancy, due, at);
    HeadIsAccepted(s, c, occupancy, due, at);
    StepKeeps(s, op);
    HeadPaymentSettles(s, c, occupancy, due, at, op, Step(s, op));
  }

  // ----- Paying the queue off -----

  /** One more payment, unless nothing is waiting. */
  function PayNext(s: State, c: Caller, occupancy: nat, due: nat, at: int): State
    requires DuesKnown(s)
  {
    if Queue(s, occupancy, due) == [] then s else Step(s, PayHead(s, c, occupancy, due, at))
  }

  lemma PayNextProgress(s: State, c: Caller, occupancy: nat, due: nat, at: int)
    requires Inv(s) && Waiting(s, occupancy, due) && c.role.Staff?
    ensures Inv(PayNext(s, c, occupancy, due, at))
    ensures HeadSettled(s, PayNext(s, c, occupancy, due, at), occupancy, due)
  {
    HeadPaymentProgress(s, c, occupancy, due, at);
  }

  /** Consecutive states in which each payment settles the head of the queue. */
  predicate PayingOff(states: seq<State>, c: Caller, occupancy: nat, due: nat, at: int) {
    forall i :: 0 <= i < |states| - 1 ==>
      DuesKnown(states[i]) && states[i + 1] == PayNext(states[i], c, occupancy, due, at)
  }

  /** From `s`, whose queue was `q`, to `t` the first `n` bills of `q` were settled by one payment each;
      the rest still wait, in order. */
  ghost predicate Drained(s: State, q: seq<nat>, t: State, occupancy: nat, due: nat, n: nat)
    requires n <= |q|
  {
    && SameRows(s, t) && |t.payments| == |s.payments| + n
    && Queue(t, occupancy, due) == q[n..]
    && forall i :: 0 <= i < n ==> q[i] < |t.bills| && t.bills[q[i]].status == Paid
  }

  lemma DrainOne(s: State, q: seq<nat>, before: State, t: State, occupancy: nat, due: nat, n: nat)
    requires n < |q| && Drained(s, q, before, occupancy, due, n)
    requires Queue(before, occupancy, due) != [] && HeadSettled(before, t, occupancy, due)
    ensures Drained(s, q, t, occupancy, due, n + 1)
  {
    assert q[n..][0] == q[n] && q[n..][1..] == q[n + 1..];
  }

  lemma StillWaiting(s: State, q: seq<nat>, t: State, occupancy: nat, due: nat, n: nat)
    requires n < |q| && Drained(s, q, t, occupancy, due, n)
    requires due < |s.dues| && s.dues[due].isActive && !s.dues[due].isVoluntary
    ensures Waiting(t, occupancy, due)
  {
    assert q[n..] != [];
  }

  lemma DrainAgain(s: State, q: seq<nat>, before: State, t: State, c: Caller, occupancy: nat, due: nat, at: int, n: nat)
    requires due < |s.dues| && s.dues[due].isActive && !s.dues[due].isVoluntary && c.role.Staff?
    requires n < |q| && Inv(before) && Drained(s, q, before, occupancy, due, n)
    requires t == PayNext(before, c, occupancy, due, at)
    ensures Inv(t) && Drained(s, q, t, occupancy, due, n + 1)
  {
    StillWaiting(s, q, before, occupancy, due, n);
    PayNextProgress(before, c, occupancy, due, at);
    DrainOne(s, q, before, t, occupancy, due, n);
  }

  /** `n` payments settle the first `n` bills of the queue, oldest first, and leave the rest of the queue as it was. */
  lemma {:induction false} QueueDrains(states: seq<State>, q: seq<nat>, c: Caller, occupancy: nat, due: nat, at: int,
                                       n: nat)
    requires n < |states| && n <= |q| && PayingOff(states, c, occupancy, due, at) && c.role.Staff?
    requires Inv(states[0]) && Waiting(states[0], occupancy, due) && q == Queue(states[0], occupancy, due)
    ensures Inv(states[n]) && Drained(states[0], q, states[n], occupancy, due, n)
    decreases n
  {
    if n == 0 {
      assert q[0..] == q;
    } else {
      QueueDrains(states, q, c, occupancy, due, at, n - 1);
      DrainAgain(states[0], q, states[n - 1], states[n], c, occupancy, due, at, n - 1);
    }
  }

  /** The states while the head of the queue is paid `n` times. */
  function PayOff(s: State, c: Caller, occupancy: nat, due: nat, at: int, n: nat): (states: seq<State>)
    requires DuesKnown(s)
    ensures |states| == n + 1 && states[0] == s && DuesKnown(states[n])
    ensures PayingOff(states, c, occupancy, due, at)
  {
    if n == 0 then [s]
    else
      var states := PayOff(s, c, occupancy, due, at, n - 1);
      states + [PayNext(states[n - 1], c, occupancy, due, at)]
  }

  /** As many payments as there are eligible bills settle every one of them and leave none eligible. */
  lemma AllSettled(s: State, c: Caller, occupancy: nat, due: nat, at: int)
    requires Inv(s) && Waiting(s, occupancy, due) && c.role.Staff?
    ensures var n := |Queue(s, occupancy, due)|;
      var t := PayOff(s, c, occupancy, due, at, n)[n];
      && |t.payments| == |s.payments| + n
      && (forall b: nat :: !Eligible(t, b, occupancy, due))
      && (forall b: nat :: Eligible(s, b, occupancy, due) ==> b < |t.bills| && t.bills[b].status == Paid)
  {
    var q := Queue(s, occupancy, due);
    var states := PayOff(s, c, occupancy, due, at, |q|);
    QueueDrains(states, q, c, occupancy, due, at, |q|);
    QueueMembers(states[|q|], occupancy, due);
    QueueMembers(s, occupancy, due);
    forall b: nat | Eligible(s, b, occupancy, due)
      ensures b < |states[|q|].bills| && states[|q|].bills[b].status == Paid
    {
      var i :| 0 <= i < |q| && q[i] == b;
    }
    assert q[|q|..] == [];
  }

  // ----- The "all paid" error -----

  /** A payment is refused as "all paid" only for a bill of amount zero whose due has no eligible bill. */
  lemma AllPaidExactly(s: State, c: Caller, b: nat, amount: int)
    requires Inv(s) && b < |s.bills| && amount > 0
    requires s.bills[b].isActive && s.bills[b].isObligatory && s.bills[b].status in {Unpaid, Partial}
    requires DueOf(s, b).isActive && !DueOf(s, b).isVoluntary
    requires c.role.Warga? ==> c.occupancy == Some(s.bills[b].occupancy)
    ensures SinglePayError(s, c, b, amount) == Some(AllPaid) <==>
      s.bills[b].amount == 0 && forall e: nat :: !Eligible(s, e, s.bills[b].occupancy, s.bills[b].due)
  {
    var o, d := s.bills[b].occupancy, s.bills[b].due;
    var q := Queue(s, o, d);
    assert BillAgrees(s, b);
    QueueMembers(s, o, d);
    ShareTotalSign(s.payments, |s.bills|, b, Approved);
    if q != [] {
      assert q[0] in q;
    } else {
      assert forall e: nat :: e !in q;
      assert !Eligible(s, b, o, d);
    }
  }
}
