/** For every operation on the books: exactly when it is accepted, where its money goes, and what the
    reconciliation report notices. */
module FundOutcomes {
  import opened Results
  import opened Calendar
  import opened Ledger
  import opened PeriodBalance
  import opened FundLocation

  /** `amount` more lies at the location, if there is one; every other balance is as it was. */
  ghost predicate Gains(b: Books, location: Option<nat>, amount: int, a: Books) {
    forall l: nat :: LocationSum(a.changes, l) == LocationSum(b.changes, l) + if location == Some(l) then amount else 0
  }

  // ----- Transactions -----

  /** One more transaction, the cash moved by it, and the balance of the location it names. */
  ghost predicate Posted(b: Books, t: Txn, a: Books) {
    && a.txns == b.txns + [t] && NetBalance(a.txns) == NetBalance(b.txns) + Signed(t)
    && Gains(b, t.location, Signed(t), a)
    && a.locations == b.locations && a.transfers == b.transfers && a.openings == b.openings
  }

  lemma PostPosts(b: Books, t: Txn)
    ensures Posted(b, t, Post(b, t))
  {
    PostNet(b, t);
    forall l: nat
      ensures LocationSum(Post(b, t).changes, l)
        == LocationSum(b.changes, l) + if t.location == Some(l) then Signed(t) else 0
    {
      if t.location.Some? {
        AppendChange(b.changes, ChangeOf(t, |b.txns|, t.location.value), l);
      }
    }
  }

  /** The location exists, is open, and for an expense holds the amount. */
  predicate MayPostAt(b: Books, amount: int, kind: Direction, l: nat) {
    && l < |b.locations| && b.locations[l].isActive && (kind.Expense? ==> amount <= LocationSum(b.changes, l))
  }

  /** A manual transaction is accepted exactly with a positive amount and either a place that allows it or, unless
      places are enforced, none. It is then posted as stated. */
  lemma ManualExactly(b: Books, amount: int, kind: Direction, place: Option<nat>, at: int, enforced: bool)
    ensures var outcome := CreateManual(b, amount, kind, place, at, enforced);
      && (outcome.Ok? <==> amount > 0 && if place.Some? then MayPostAt(b, amount, kind, place.value) else !enforced)
      && (outcome.Ok? ==> Posted(b, Txn(amount, kind, None, None, place, at), outcome.value))
  {
    PostPosts(b, Txn(amount, kind, None, None, place, at));
  }

  /** A row is reversed exactly if it is there, is no reversal, has none, and, for an income of a location, that
      location still holds it. The opposite row takes its effect back, and neither row can be reversed again. */
  lemma ReversalExactly(b: Books, id: nat, at: int)
    requires BooksInv(b)
    ensures var outcome := ReverseTxn(b, id, at);
      && (outcome.Ok? <==>
            && id < |b.txns| && b.txns[id].reverses.None?
            && (forall i :: 0 <= i < |b.txns| ==> b.txns[i].reverses != Some(id))
            && (b.txns[id].kind.Income? && b.txns[id].location.Some? ==>
                  b.txns[id].amount <= LocationSum(b.changes, b.txns[id].location.value)))
      && (outcome.Ok? ==>
            var orig, a := b.txns[id], outcome.value;
            var kind := if orig.kind.Income? then Expense else Income;
            && Posted(b, Txn(orig.amount, kind, Some(id), orig.payment, orig.location, at), a)
            && ReverseTxn(a, id, at) == Err(AlreadyReversed)
            && ReverseTxn(a, |b.txns|, at) == Err(CannotReverseReversal))
  {
    if ReverseTxn(b, id, at).Ok? {
      PostPosts(b, ReversalOf(b.txns[id], id, at));
      assert ReverseTxn(b, id, at).value.txns[|b.txns|].reverses == Some(id);
    }
  }

  // ----- Transfers -----

  /** A transfer is accepted exactly between two different open locations, of a positive amount that the first one
      holds. */
  lemma TransferExactly(b: Books, from: nat, to: nat, amount: int)
    requires BooksInv(b)
    ensures var outcome := CreateTransfer(b, from, to, amount);
      && (outcome.Ok? <==>
            && from != to && from < |b.locations| && to < |b.locations| && b.locations[from].isActive
            && b.locations[to].isActive && 0 < amount <= LocationSum(b.changes, from))
      && (outcome.Ok? ==>
            var a := outcome.value;
            && a.transfers == b.transfers + [Transfer(from, to, amount, None)]
            && (forall l: nat :: LocationSum(a.changes, l)
                  == LocationSum(b.changes, l) + if l == from then -amount else if l == to then amount else 0)
            && a.txns == b.txns && a.locations == b.locations && a.openings == b.openings)
  {
    if CreateTransfer(b, from, to, amount).Ok? {
      forall l: nat
        ensures LocationSum(CreateTransfer(b, from, to, amount).value.changes, l)
          == LocationSum(b.changes, l) + if l == from then -amount else if l == to then amount else 0
      {
        TransferConserves(b, from, to, amount, l);
      }
    }
  }

  /** A transfer is taken back exactly if it is there, is no reversal, has none, and its receiver still holds the
      amount. */
  lemma TransferReversalExactly(b: Books, id: nat)
    requires BooksInv(b)
    ensures var outcome := ReverseTransfer(b, id);
      && (outcome.Ok? <==>
            && id < |b.transfers| && b.transfers[id].reverses.None?
            && (forall i :: 0 <= i < |b.transfers| ==> b.transfers[i].reverses != Some(id))
            && b.transfers[id].amount <= LocationSum(b.changes, b.transfers[id].to))
      && (outcome.Ok? ==>
            var orig, a := b.transfers[id], outcome.value;
            && a.transfers == b.transfers + [Transfer(orig.to, orig.from, orig.amount, Some(id))]
            && (forall l: nat :: LocationSum(a.changes, l) == LocationSum(b.changes, l)
                  + if l == orig.to then -orig.amount else if l == orig.from then orig.amount else 0)
            && a.txns == b.txns && a.locations == b.locations && a.openings == b.openings
            && ReverseTransfer(a, id) == Err(AlreadyReversed)
            && ReverseTransfer(a, |b.transfers|) == Err(CannotReverseReversal))
  {
    if ReverseTransfer(b, id).Ok? {
      var a := ReverseTransfer(b, id).value;
      assert a.transfers[|b.transfers|].reverses == Some(id);
      forall l: nat
        ensures LocationSum(a.changes, l) == LocationSum(b.changes, l)
          + if l == b.transfers[id].to then -b.transfers[id].amount
            else if l == b.transfers[id].from then b.transfers[id].amount else 0
      {
        ReversalUndoesTransfer(b, id, l);
      }
    }
  }

  // ----- Opening balances -----

  lemma TotalNotNegative(b: Books)
    requires BooksInv(b)
    ensures ChangeTotal(b.changes) >= 0
  {
    TotalIsSumOfBalances(b.changes, |b.locations|);
    BalancesNonNegative(b, |b.locations|);
  }

  /** More lies at one location; the cash is what it was. */
  lemma AllocationMoves(b: Books, location: nat, amount: int, clock: Clock, a: Books)
    requires a == b.(changes := b.changes + [Change(location, OpeningBalance, Opening, amount)])
    ensures KasBalance(a, clock) == KasBalance(b, clock) && ChangeTotal(a.changes) == ChangeTotal(b.changes) + amount
    ensures Gains(b, Some(location), amount, a)
    ensures OpeningSum(a.changes, location) == OpeningSum(b.changes, location) + amount
  {
    var c := Change(location, OpeningBalance, Opening, amount);
    forall l: nat
      ensures LocationSum(a.changes, l) == LocationSum(b.changes, l) + if Some(location) == Some(l) then amount else 0
    {
      AppendChange(b.changes, c, l);
    }
    AppendChange(b.changes, c, location);
    assert OpeningOf(a, clock.month) == OpeningOf(b, clock.month);
  }

  /** An opening balance is accepted exactly while the cash covers it together with all that lies in locations already.
      Then no more lies in locations than there is cash, and it lies where it was allocated. */
  lemma OpeningExactly(b: Books, location: nat, amount: int, clock: Clock)
    requires BooksInv(b)
    ensures var outcome := SetOpeningBalance(b, location, amount, clock);
      && (outcome.Ok? <==>
            && amount > 0 && location < |b.locations| && KasBalance(b, clock) >= 0
            && ChangeTotal(b.changes) + amount <= KasBalance(b, clock))
      && (outcome.Ok? ==>
            var a := outcome.value;
            && KasBalance(a, clock) == KasBalance(b, clock) && ChangeTotal(a.changes) <= KasBalance(a, clock)
            && Gains(b, Some(location), amount, a)
            && OpeningSum(a.changes, location) == OpeningSum(b.changes, location) + amount
            && a == b.(changes := a.changes))
  {
    TotalNotNegative(b);
    AllocationMoves(b, location, amount, clock,
                    b.(changes := b.changes + [Change(location, OpeningBalance, Opening, amount)]));
  }

  // ----- Locations -----

  lemma {:induction false} NothingThere(changes: seq<Change>, n: nat, l: nat)
    requires forall c :: 0 <= c < |changes| ==> changes[c].location < n
    requires l >= n
    ensures LocationSum(changes, l) == 0
  {
    if changes != [] {
      NothingThere(changes[..|changes| - 1], n, l);
    }
  }

  /** A new location is the next row: open, empty, and all other rows are as they were. */
  lemma AddedLocationIsEmpty(b: Books, category: Category)
    requires BooksInv(b)
    ensures var a := AddLocation(b, category);
      && a == b.(locations := a.locations) && |a.locations| == |b.locations| + 1
      && (forall l :: 0 <= l < |b.locations| ==> a.locations[l] == b.locations[l])
      && a.locations[|b.locations|].isActive && a.locations[|b.locations|].category == category
      && LocationSum(a.changes, |b.locations|) == 0
  {
    NothingThere(b.changes, |b.locations|, |b.locations|);
  }

  /** A location is closed exactly if it is there and holds nothing. */
  lemma DeactivationExactly(b: Books, l: nat)
    requires BooksInv(b)
    ensures DeactivateLocation(b, l).Ok? <==> l < |b.locations| && LocationSum(b.changes, l) == 0
    ensures DeactivateLocation(b, l).Ok? ==>
      var a := DeactivateLocation(b, l).value;
      && a == b.(locations := a.locations) && |a.locations| == |b.locations|
      && a.locations[l] == b.locations[l].(isActive := false)
      && forall k :: 0 <= k < |b.locations| && k != l ==> a.locations[k] == b.locations[k]
  {
    if l < |b.locations| {
      assert LocationSum(b.changes, l) >= 0;
    }
  }

  /** The operation moves money at the location though it looks at no flag: an opening balance, or the reversal of a
      transaction or transfer that had touched it. */
  predicate IgnoresClosing(b: Books, op: BookOp, l: nat) {
    match op
    case OpeningOp(location, _, _) => location == l
    case ReverseTxnOp(txn, _) => txn < |b.txns| && b.txns[txn].location == Some(l)
    case ReverseTransferOp(id) => id < |b.transfers| && (b.transfers[id].from == l || b.transfers[id].to == l)
    case _ => false
  }

  /** The balance of a closed location is moved by exactly the accepted operations that ignore the closing. */
  lemma ClosedBalanceMovesExactly(b: Books, op: BookOp, l: nat)
    requires BooksInv(b) && l < |b.locations| && !b.locations[l].isActive
    ensures LocationSum(ApplyBooks(b, op).changes, l) != LocationSum(b.changes, l) <==>
      IgnoresClosing(b, op, l) && TryBooks(b, op).Ok?
  {
    match op
    case ManualOp(amount, kind, place, at, enforced) => ManualExactly(b, amount, kind, place, at, enforced);
    case ReverseTxnOp(txn, at) => ReversalExactly(b, txn, at);
    case TransferOp(from, to, amount) => TransferExactly(b, from, to, amount);
    case ReverseTransferOp(transfer) => TransferReversalExactly(b, transfer);
    case OpeningOp(location, amount, clock) => OpeningExactly(b, location, amount, clock);
    case PeriodOpeningOp(month, amount) =>
    case AddLocationOp(category) =>
    case DeactivateOp(location) =>
  }

  lemma CashOfOneIncome(t: Txn, locations: seq<Location>, clock: Clock)
    requires t == Txn(100, Income, None, None, None, MonthStart(clock.month)) && ValidClock(clock)
    ensures KasBalance(Books(locations, [t], [], [], map[]), clock) == 100
  {
    MonthStartIncreases(clock.month, clock.month + 1);
    OneIncome(t);
    KasExactly(Books(locations, [t], [], [], map[]), clock);
  }

  /** Cash of 100, and one closed location: an opening balance of 60 is accepted there. */
  lemma ClosedLocationFunded(clock: Clock)
    requires ValidClock(clock)
    ensures var b := Books([Location(Brankas, false)], [Txn(100, Income, None, None, None, MonthStart(clock.month))],
                           [], [], map[]);
      && BooksInv(b) && SetOpeningBalance(b, 0, 60, clock).Ok?
      && LocationSum(SetOpeningBalance(b, 0, 60, clock).value.changes, 0) == 60
      && SetOpeningBalance(SetOpeningBalance(b, 0, 60, clock).value, 0, 60, clock) == Err(InsufficientUnallocated)
  {
    var t := Txn(100, Income, None, None, None, MonthStart(clock.month));
    var empty := Books([Location(Brankas, false)], [], [], [], map[]);
    assert [] + [t] == [t];
    PostKeepsBooks(empty, t);
    var b := Post(empty, t);
    CashOfOneIncome(t, b.locations, clock);
    OpeningExactly(b, 0, 60, clock);
    var a := SetOpeningBalance(b, 0, 60, clock).value;
    OpeningKeepsBooks(b, 0, 60, clock);
    OpeningExactly(a, 0, 60, clock);
  }

  // ----- The report -----

  /** The report is given exactly while there is no cash deficit. It shows the cash, what lies in locations, and the
      difference: as unallocated money, or as a discrepancy when more is allocated than there is. */
  lemma ReportExactly(b: Books, clock: Clock)
    requires BooksInv(b)
    ensures var kas, total := KasBalance(b, clock), ChangeTotal(b.changes);
      && (Reconcile(b, clock).Ok? <==> kas >= 0)
      && (kas >= 0 ==>
            var r := Reconcile(b, clock).value;
            && r.kas == kas && r.inLocations == total && r.anomalies == {}
            && r.unallocated + r.discrepancy == kas - total
            && (if kas < total then r.unallocated == 0 else r.discrepancy == 0)
            && (r.status == DiscrepancyAnomaly <==> kas < total) && (r.status == MatchWithNotes <==> kas > total))
  {
    NoAnomalies(b);
    TotalNotNegative(b);
  }

  /** The books with one recorded change altered. */
  function Altered(b: Books, k: nat, delta: int): Books
    requires k < |b.changes|
  {
    b.(changes := b.changes[k := b.changes[k].(delta := delta)])
  }

  lemma AlteredSides(b: Books, k: nat, delta: int, t: nat)
    requires TransfersTraced(b) && k < |b.changes| && t < |b.transfers|
    ensures HasOut(Altered(b, k, delta).changes, t) && HasIn(Altered(b, k, delta).changes, t)
  {
    var a := Altered(b, k, delta);
    assert HasOut(b.changes, t) && HasIn(b.changes, t);
    var o :| 0 <= o < |b.changes| && IsOutSide(b.changes[o], t);
    var i :| 0 <= i < |b.changes| && IsInSide(b.changes[i], t);
    assert IsOutSide(a.changes[o], t) && IsInSide(a.changes[i], t);
  }

  lemma SameMagnitudeUnnoticed(b: Books, k: nat, delta: int)
    requires BooksInv(b) && k < |b.changes|
    requires b.changes[k].source.OpeningBalance? || Abs(delta) == Abs(b.changes[k].delta)
    ensures Anomalies(Altered(b, k, delta)) == {}
  {
    var a := Altered(b, k, delta);
    forall i: nat | i < |a.txns|
      ensures !Orphaned(a, i)
    {
      if b.txns[i].location.Some? {
        var c :| 0 <= c < |b.changes| && b.changes[c] == ChangeOf(b.txns[i], i, b.txns[i].location.value);
        assert a.changes[c].source == FromTxn(i);
      }
    }
    forall t: nat | t < |a.transfers|
      ensures !Unbalanced(a, t)
    {
      AlteredSides(b, k, delta, t);
    }
  }

  lemma OtherMagnitudeNoticed(b: Books, k: nat, delta: int)
    requires BooksInv(b) && k < |b.changes| && Abs(delta) != Abs(b.changes[k].delta)
    ensures match b.changes[k].source
      case FromTxn(_) => AmountMismatch(k) in Anomalies(Altered(b, k, delta))
      case FromTransfer(t) => UnbalancedTransfer(t) in Anomalies(Altered(b, k, delta))
      case OpeningBalance => true
  {
    var a := Altered(b, k, delta);
    match b.changes[k].source
    case FromTxn(_) => assert Mismatched(a, k);
    case FromTransfer(t) =>
      assert HasOut(b.changes, t) && HasIn(b.changes, t);
      var o :| 0 <= o < |b.changes| && IsOutSide(b.changes[o], t);
      var i :| 0 <= i < |b.changes| && IsInSide(b.changes[i], t);
      assert IsOutSide(a.changes[o], t) && IsInSide(a.changes[i], t);
      if IsOutSide(b.changes[k], t) {
        assert IsOutSide(a.changes[k], t);
      } else {
        assert IsInSide(a.changes[k], t);
      }
      assert Unbalanced(a, t);
    case OpeningBalance =>
  }

  /** Of a change altered in consistent books the report notices exactly a different magnitude of a transaction's or a
      transfer's change; a flipped sign and any altered opening balance pass. */
  lemma AlterationNoticedExactly(b: Books, k: nat, delta: int)
    requires BooksInv(b) && k < |b.changes|
    ensures Anomalies(Altered(b, k, delta)) != {} <==>
      !b.changes[k].source.OpeningBalance? && Abs(delta) != Abs(b.changes[k].delta)
  {
    if b.changes[k].source.OpeningBalance? || Abs(delta) == Abs(b.changes[k].delta) {
      SameMagnitudeUnnoticed(b, k, delta);
    } else {
      OtherMagnitudeNoticed(b, k, delta);
    }
  }

  /** The change of a transaction is the only one of it, so the report notices when it is lost. */
  lemma LossNoticed(b: Books, k: nat)
    requires BooksInv(b) && k < |b.changes| && b.changes[k].source.FromTxn?
    ensures OrphanTransaction(b.changes[k].source.txn) in Anomalies(b.(changes := b.changes[..k] + b.changes[k + 1..]))
  {
    var a := b.(changes := b.changes[..k] + b.changes[k + 1..]);
    var i := b.changes[k].source.txn;
    forall c | 0 <= c < |a.changes|
      ensures a.changes[c].source != FromTxn(i)
    {
      assert a.changes[c] == b.changes[if c < k then c else c + 1];
    }
    assert Orphaned(a, i);
  }

  // ----- Refusals -----

  /** The location is missing, closed or short of the amount, as the error says. */
  predicate PlaceReason(b: Books, l: nat, amount: int, e: BookError) {
    if e == LocationNotFound then l >= |b.locations|
    else
      && l < |b.locations|
      && match e
         case InactiveLocation => !b.locations[l].isActive
         case InsufficientFunds => LocationSum(b.changes, l) < amount
         case _ => false
  }

  /** Why a row of a table is not reversed. */
  predicate ReversalReason(known: bool, isReversal: bool, reversed: bool, short: bool, lack: BookError, e: BookError) {
    if e == NotFound then !known
    else
      && known
      && ((e == CannotReverseReversal && isReversal) || (e == AlreadyReversed && reversed) || (e == lack && short))
  }

  /** Every refusal of an operation on consistent books names a reason that holds. */
  ghost predicate BookReason(b: Books, op: BookOp, e: BookError) {
    match op
    case ManualOp(amount, kind, place, at, enforced) =>
      || (e == InvalidAmount && amount <= 0)
      || (e == LocationRequired && place.None? && enforced)
      || (place.Some? && PlaceReason(b, place.value, amount, e) && (e == InsufficientFunds ==> kind.Expense?))
    case ReverseTxnOp(id, at) =>
      var known := id < |b.txns|;
      ReversalReason(known, known && b.txns[id].reverses.Some?, HasReversal(b.txns, id),
                     known && b.txns[id].kind.Income? && b.txns[id].location.Some?
                     && LocationSum(b.changes, b.txns[id].location.value) < b.txns[id].amount, InsufficientFunds, e)
    case TransferOp(from, to, amount) =>
      || (e == SameLocation && from == to)
      || (e == InvalidAmount && amount <= 0)
      || PlaceReason(b, from, amount, e)
      || (e != InsufficientFunds && PlaceReason(b, to, amount, e))
    case ReverseTransferOp(id) =>
      var known := id < |b.transfers|;
      ReversalReason(known, known && b.transfers[id].reverses.Some?, HasTransferReversal(b.transfers, id),
                     known && LocationSum(b.changes, b.transfers[id].to) < b.transfers[id].amount,
                     InsufficientReversal, e)
    case OpeningOp(l, amount, clock) =>
      || (e == InvalidAmount && amount <= 0)
      || (e == NotFound && l >= |b.locations|)
      || (e == NegativeBalance && KasBalance(b, clock) < 0)
      || (e == InsufficientUnallocated && KasBalance(b, clock) < ChangeTotal(b.changes) + amount)
    case PeriodOpeningOp(month, amount) => e == InvalidAmount && amount < 0
    case AddLocationOp(_) => false
    case DeactivateOp(l) =>
      if e == NotFound then l >= |b.locations|
      else e == CannotDeactivateWithBalance && l < |b.locations| && LocationSum(b.changes, l) > 0
  }

  lemma RowRefusalsTrue(b: Books, op: BookOp, e: BookError)
    requires BooksInv(b) && TryBooks(b, op) == Err(e) && (op.ManualOp? || op.ReverseTxnOp? || op.OpeningOp?)
    ensures BookReason(b, op, e)
  {
    TotalNotNegative(b);
  }

  lemma MoveRefusalsTrue(b: Books, op: BookOp, e: BookError)
    requires BooksInv(b) && TryBooks(b, op) == Err(e) && !op.ManualOp? && !op.ReverseTxnOp? && !op.OpeningOp?
    ensures BookReason(b, op, e)
  {
    match op
    case TransferOp(from, _, _) => assert LocationSum(b.changes, from) >= 0;
    case ReverseTransferOp(id) => assert id < |b.transfers| ==> LocationSum(b.changes, b.transfers[id].to) >= 0;
    case DeactivateOp(l) => assert LocationSum(b.changes, l) >= 0;
    case _ =>
  }

  /** Nothing changes, and for a reason that holds, whenever an operation on the books is refused. */
  lemma BookRefusalsTrue(b: Books, op: BookOp, e: BookError)
    requires BooksInv(b) && TryBooks(b, op) == Err(e)
    ensures BookReason(b, op, e) && ApplyBooks(b, op) == b
  {
    if op.ManualOp? || op.ReverseTxnOp? || op.OpeningOp? {
      RowRefusalsTrue(b, op, e);
    } else {
      MoveRefusalsTrue(b, op, e);
    }
  }
}
