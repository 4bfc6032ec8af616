/** Operations on the books: cash transactions, transfers between locations, opening balances,
    and the reconciliation report. */
module FundLocation {
  import opened Results
  import opened Calendar
  import opened Ledger
  import opened PeriodBalance

  datatype BookError =
    | NotFound | InvalidAmount | LocationRequired | LocationNotFound | InactiveLocation
    | InsufficientFunds | InsufficientReversal | InsufficientUnallocated
    | SameLocation | CannotReverseReversal | AlreadyReversed | NegativeBalance | CannotDeactivateWithBalance

  type Outcome = Result<Books, BookError>

  /** `ParseMoney` with its error ignored: text of a negative sum reads as zero. */
  function CentsOrZero(x: int): int {
    if x < 0 then 0 else x
  }

  predicate KnownLocation(b: Books, location: Option<nat>) {
    location.Some? ==> location.value < |b.locations|
  }

  // ----- Cash transactions -----

  /** `CreateManualTransaction`; `enforced` is the deployment's location requirement. */
  function CreateManual(b: Books, amount: int, kind: Direction, location: Option<nat>, at: int,
                        enforced: bool): Outcome {
    if amount <= 0 then Err(InvalidAmount)
    else if location.None? then
      if enforced then Err(LocationRequired) else Ok(Post(b, Txn(amount, kind, None, None, None, at)))
    else if location.value >= |b.locations| then Err(LocationNotFound)
    else if !b.locations[location.value].isActive then Err(InactiveLocation)
    else if kind.Expense? && CentsOrZero(LocationSum(b.changes, location.value)) < amount then Err(InsufficientFunds)
    else Ok(Post(b, Txn(amount, kind, None, None, location, at)))
  }

  predicate HasReversal(txns: seq<Txn>, id: nat) {
    exists i :: 0 <= i < |txns| && txns[i].reverses == Some(id)
  }

  function ReversalOf(t: Txn, id: nat, at: int): Txn {
    Txn(t.amount, Opposite(t.kind), Some(id), t.payment, t.location, at)
  }

  /** What `ReverseTransaction` does once its checks of the row are passed: returning income needs the money at its
      location. The balance is read under the location's lock, earlier reversals are not looked at again. */
  function PostReversal(b: Books, id: nat, at: int): Outcome
    requires id < |b.txns|
  {
    var orig := b.txns[id];
    if orig.kind.Income? && orig.location.Some?
       && CentsOrZero(LocationSum(b.changes, orig.location.value)) < orig.amount then Err(InsufficientFunds)
    else Ok(Post(b, ReversalOf(orig, id, at)))
  }

  /** `ReverseTransaction`: a compensating row, once for each row that is no compensation itself. */
  function ReverseTxn(b: Books, id: nat, at: int): Outcome {
    if id >= |b.txns| then Err(NotFound)
    else if b.txns[id].reverses.Some? then Err(CannotReverseReversal)
    else if HasReversal(b.txns, id) then Err(AlreadyReversed)
    else PostReversal(b, id, at)
  }

  // ----- Transfers -----

  /** `GetLocationBalance` refuses a negative sum. */
  function LocationBalance(b: Books, location: nat): Result<int, BookError> {
    var sum := LocationSum(b.changes, location);
    if sum < 0 then Err(NegativeBalance) else Ok(sum)
  }

  function CreateTransfer(b: Books, from: nat, to: nat, amount: int): Outcome {
    if from == to then Err(SameLocation)
    else if amount <= 0 then Err(InvalidAmount)
    else if from >= |b.locations| || to >= |b.locations| then Err(LocationNotFound)
    else if !b.locations[from].isActive || !b.locations[to].isActive then Err(InactiveLocation)
    else
      var balance := LocationBalance(b, from);
      if balance.Err? then Err(balance.error)
      else if balance.value < amount then Err(InsufficientFunds)
      else
        var id := |b.transfers|;
        Ok(b.(transfers := b.transfers + [Transfer(from, to, amount, None)],
              changes := b.changes + [Change(from, FromTransfer(id), TransferOut, -amount)]
                         + [Change(to, FromTransfer(id), TransferIn, amount)]))
  }

  predicate HasTransferReversal(transfers: seq<Transfer>, id: nat) {
    exists i :: 0 <= i < |transfers| && transfers[i].reverses == Some(id)
  }

  function ReverseTransfer(b: Books, id: nat): Outcome {
    if id >= |b.transfers| then Err(NotFound)
    else
      var orig := b.transfers[id];
      if orig.reverses.Some? then Err(CannotReverseReversal)
      else if HasTransferReversal(b.transfers, id) then Err(AlreadyReversed)
      else
        var balance := LocationBalance(b, orig.to);
        if balance.Err? then Err(balance.error)
        else if balance.value < orig.amount then Err(InsufficientReversal)
        else
          var rev := |b.transfers|;
          Ok(b.(transfers := b.transfers + [Transfer(orig.to, orig.from, orig.amount, Some(id))],
                changes := b.changes + [Change(orig.to, FromTransfer(rev), ReversalTransferIn, -orig.amount)]
                           + [Change(orig.from, FromTransfer(rev), ReversalTransferOut, orig.amount)]))
  }

  // ----- Opening balances and locations -----

  function LatestTxn(txns: seq<Txn>): (latest: Option<int>)
    ensures latest.None? <==> txns == []
    ensures latest.Some? ==> forall i :: 0 <= i < |txns| ==> txns[i].occurredAt <= latest.value
  {
    if txns == [] then None
    else
      var rest := LatestTxn(txns[..|txns| - 1]);
      var last := txns[|txns| - 1].occurredAt;
      if rest.Some? && last < rest.value then rest else Some(last)
  }

  /** The current moment as the code sees it: the current month, and the length of the calendar month
      that is added to a latest transaction lying beyond it. */
  datatype Clock = Clock(month: nat, monthDays: nat)

  predicate ValidClock(clock: Clock) {
    28 <= clock.monthDays <= 31
  }

  /** End of the span that yields the cash balance: past this month and past every transaction. */
  function KasEnd(b: Books, clock: Clock): int {
    var next := MonthStart(clock.month + 1);
    var latest := LatestTxn(b.txns);
    if latest.Some? && latest.value > next then latest.value + clock.monthDays * SECONDS_PER_DAY else next
  }

  function KasBalance(b: Books, clock: Clock): int {
    CalculatePeriodBalance(b, clock.month, KasEnd(b, clock)).closing
  }

  /** `SetOpeningBalance` allocates cash that no location holds yet. */
  function SetOpeningBalance(b: Books, location: nat, amount: int, clock: Clock): Outcome {
    if amount <= 0 then Err(InvalidAmount)
    else if location >= |b.locations| then Err(NotFound)
    else
      var kas := KasBalance(b, clock);
      if kas < 0 then Err(NegativeBalance)
      else if amount > kas - CentsOrZero(ChangeTotal(b.changes)) then Err(InsufficientUnallocated)
      else Ok(b.(changes := b.changes + [Change(location, OpeningBalance, Opening, amount)]))
  }

  function AddLocation(b: Books, category: Category): Books {
    b.(locations := b.locations + [Location(category, true)])
  }

  /** `DeactivateLocation` retires a location that holds no money. */
  function DeactivateLocation(b: Books, location: nat): Outcome {
    if location >= |b.locations| then Err(NotFound)
    else
      var balance := LocationBalance(b, location);
      if balance.Err? then Err(balance.error)
      else if balance.value > 0 then Err(CannotDeactivateWithBalance)
      else Ok(b.(locations := b.locations[location := b.locations[location].(isActive := false)]))
  }

  // ----- The reconciliation report -----

  datatype Anomaly = OrphanTransaction(txn: nat) | AmountMismatch(change: nat) | UnbalancedTransfer(transfer: nat)

  predicate IsOutSide(c: Change, id: nat) {
    c.source == FromTransfer(id) && c.kind in {TransferOut, ReversalTransferOut}
  }

  predicate IsInSide(c: Change, id: nat) {
    c.source == FromTransfer(id) && c.kind in {TransferIn, ReversalTransferIn}
  }

  predicate Orphaned(b: Books, i: nat)
    requires i < |b.txns|
  {
    b.txns[i].location.Some? && forall c :: 0 <= c < |b.changes| ==> b.changes[c].source != FromTxn(i)
  }

  predicate Mismatched(b: Books, c: nat)
    requires c < |b.changes|
  {
    var s := b.changes[c].source;
    s.FromTxn? && s.txn < |b.txns| && Abs(b.changes[c].delta) != b.txns[s.txn].amount
  }

  predicate HasOut(changes: seq<Change>, id: nat) {
    exists c :: 0 <= c < |changes| && IsOutSide(changes[c], id)
  }

  predicate HasIn(changes: seq<Change>, id: nat) {
    exists c :: 0 <= c < |changes| && IsInSide(changes[c], id)
  }

  predicate Unbalanced(b: Books, id: nat) {
    || !HasOut(b.changes, id)
    || !HasIn(b.changes, id)
    || exists o, i :: 0 <= o < |b.changes| && 0 <= i < |b.changes| && IsOutSide(b.changes[o], id)
         && IsInSide(b.changes[i], id) && Abs(b.changes[o].delta) != Abs(b.changes[i].delta)
  }

  function Anomalies(b: Books): set<Anomaly> {
    (set i: nat | i < |b.txns| && Orphaned(b, i) :: OrphanTransaction(i))
    + (set c: nat | c < |b.changes| && Mismatched(b, c) :: AmountMismatch(c))
    + (set t: nat | t < |b.transfers| && Unbalanced(b, t) :: UnbalancedTransfer(t))
  }

  datatype ReportStatus = Match | MatchWithNotes | DiscrepancyAnomaly

  datatype Report = Report(
    kas: int,
    inLocations: int,
    unallocated: int,
    discrepancy: int,
    anomalies: set<Anomaly>,
    status: ReportStatus)

  function Reconcile(b: Books, clock: Clock): Result<Report, BookError> {
    var kas := KasBalance(b, clock);
    if kas < 0 then Err(NegativeBalance)
    else
      var inLocations := CentsOrZero(ChangeTotal(b.changes));
      var unallocated := CentsOrZero(kas - inLocations);
      var discrepancy := kas - (inLocations + unallocated);
      var anomalies := Anomalies(b);
      Ok(Report(kas, inLocations, unallocated, discrepancy, anomalies,
                if discrepancy != 0 || anomalies != {} then DiscrepancyAnomaly
                else if unallocated > 0 then MatchWithNotes else Match))
  }

  // ----- What every step keeps -----

  /** Every located transaction has exactly one change, of its own signed amount, and no change lies about its
      transaction. */
  ghost predicate TxnsTraced(b: Books) {
    && (forall i :: 0 <= i < |b.txns| ==> b.txns[i].amount > 0 && KnownLocation(b, b.txns[i].location))
    && (forall i :: 0 <= i < |b.txns| && b.txns[i].location.Some? ==>
          ChangeOf(b.txns[i], i, b.txns[i].location.value) in b.changes)
    && (forall c :: 0 <= c < |b.changes| && b.changes[c].source.FromTxn? ==>
          var i := b.changes[c].source.txn;
          i < |b.txns| && b.txns[i].location.Some? && b.changes[c] == ChangeOf(b.txns[i], i, b.txns[i].location.value))
    && (forall c, d :: 0 <= c < d < |b.changes| && b.changes[c].source.FromTxn? ==> b.changes[c].source != b.changes[d].source)
  }

  /** Both sides of every transfer are recorded, with opposite deltas of its amount. */
  ghost predicate TransfersTraced(b: Books) {
    && (forall t :: 0 <= t < |b.transfers| ==>
          && b.transfers[t].amount > 0 && b.transfers[t].from != b.transfers[t].to
          && b.transfers[t].from < |b.locations| && b.transfers[t].to < |b.locations|)
    && (forall t :: 0 <= t < |b.transfers| ==> HasOut(b.changes, t) && HasIn(b.changes, t))
    && (forall c :: 0 <= c < |b.changes| && b.changes[c].source.FromTransfer? ==>
          var t := b.changes[c].source.transfer;
          && t < |b.transfers| && Abs(b.changes[c].delta) == b.transfers[t].amount
          && (IsOutSide(b.changes[c], t) || IsInSide(b.changes[c], t)))
  }

  predicate IsReversal(c: Change) {
    c.kind in {ReversalOfIncome, ReversalOfExpense, ReversalTransferOut, ReversalTransferIn}
  }

  /** The change is labelled for what it is: whether it brings money or takes it, and whether it takes back another. */
  predicate KindTells(b: Books, c: Change) {
    match c.source
    case OpeningBalance => c.kind == Opening && c.delta > 0
    case FromTxn(i) =>
      && i < |b.txns| && (IsReversal(c) <==> b.txns[i].reverses.Some?)
      && (c.delta > 0 <==> c.kind in {IncomeIn, ReversalOfExpense})
      && (c.delta < 0 <==> c.kind in {ExpenseOut, ReversalOfIncome})
    case FromTransfer(t) =>
      && t < |b.transfers| && (IsReversal(c) <==> b.transfers[t].reverses.Some?)
      && c.location == (if c.delta > 0 then b.transfers[t].to else b.transfers[t].from)
      && (c.delta > 0 <==> c.kind in {TransferIn, ReversalTransferOut})
      && (c.delta < 0 <==> c.kind in {TransferOut, ReversalTransferIn})
  }

  ghost predicate KindsTell(b: Books) {
    forall c :: 0 <= c < |b.changes| ==> KindTells(b, b.changes[c])
  }

  /** A location holds its signed transactions, its transfers and its opening balances, and is never overdrawn. */
  ghost predicate BalancesExplained(b: Books) {
    forall l: nat ::
      && LocationSum(b.changes, l) >= 0
      && LocationSum(b.changes, l) == PostedSum(b.txns, l) + TransferSum(b.transfers, l) + OpeningSum(b.changes, l)
  }

  ghost predicate TotalExplained(b: Books) {
    && (forall c :: 0 <= c < |b.changes| ==> b.changes[c].location < |b.locations|)
    && ChangeTotal(b.changes) == LocatedNet(b.txns, true) + OpeningTotal(b.changes)
  }

  ghost predicate BooksInv(b: Books) {
    TxnsTraced(b) && TransfersTraced(b) && KindsTell(b) && BalancesExplained(b) && TotalExplained(b)
  }

  /** The guard every posting passes before it takes money from a location. */
  ghost predicate Covered(b: Books, t: Txn) {
    && t.amount > 0 && KnownLocation(b, t.location)
    && (t.location.Some? ==> LocationSum(b.changes, t.location.value) + Signed(t) >= 0)
  }

  /** Rows are never removed, so what was recorded stays recorded. */
  lemma TracesSurvive(b: Books, a: Books)
    requires TxnsTraced(b) && TransfersTraced(b)
    requires b.changes <= a.changes && b.txns <= a.txns && b.transfers <= a.transfers
    ensures forall i :: 0 <= i < |b.txns| && a.txns[i].location.Some? ==>
      ChangeOf(a.txns[i], i, a.txns[i].location.value) in a.changes
    ensures forall t :: 0 <= t < |b.transfers| ==> HasOut(a.changes, t) && HasIn(a.changes, t)
  {
    forall t: nat | t < |b.transfers|
      ensures HasOut(a.changes, t) && HasIn(a.changes, t)
    {
      assert HasOut(b.changes, t) && HasIn(b.changes, t);
      var o :| 0 <= o < |b.changes| && IsOutSide(b.changes[o], t);
      var i :| 0 <= i < |b.changes| && IsInSide(b.changes[i], t);
      assert IsOutSide(a.changes[o], t) && IsInSide(a.changes[i], t);
    }
    forall i | 0 <= i < |b.txns| && a.txns[i].location.Some?
      ensures ChangeOf(a.txns[i], i, a.txns[i].location.value) in a.changes
    {
      var c :| 0 <= c < |b.changes| && b.changes[c] == ChangeOf(b.txns[i], i, b.txns[i].location.value);
      assert a.changes[c] == b.changes[c];
    }
  }

  lemma PostKeepsTraces(b: Books, t: Txn, a: Books)
    requires TxnsTraced(b) && TransfersTraced(b) && Covered(b, t) && a == Post(b, t)
    ensures TxnsTraced(a) && TransfersTraced(a)
  {
    TracesSurvive(b, a);
    if t.location.Some? {
      assert a.changes[|b.changes|] == ChangeOf(t, |b.txns|, t.location.value);
    }
  }

  /** Rows recorded before say of their changes what they said. */
  lemma KindsSurvive(b: Books, a: Books)
    requires KindsTell(b) && b.changes <= a.changes && b.txns <= a.txns && b.transfers <= a.transfers
    ensures forall c :: 0 <= c < |b.changes| ==> KindTells(a, a.changes[c])
  {
    forall c | 0 <= c < |b.changes|
      ensures KindTells(a, a.changes[c])
    {
      assert KindTells(b, b.changes[c]);
    }
  }

  lemma PostKeepsKinds(b: Books, t: Txn, a: Books)
    requires KindsTell(b) && t.amount > 0 && a == Post(b, t)
    ensures KindsTell(a)
  {
    KindsSurvive(b, a);
  }

  lemma PostKeepsBalances(b: Books, t: Txn, a: Books)
    requires BalancesExplained(b) && TotalExplained(b) && Covered(b, t) && a == Post(b, t)
    ensures BalancesExplained(a) && TotalExplained(a)
  {
    forall l: nat
      ensures PostedSum(b.txns + [t], l) == PostedSum(b.txns, l) + if t.location == Some(l) then Signed(t) else 0
      ensures t.location.Some? ==>
        LocationSum(a.changes, l) == LocationSum(b.changes, l) + (if t.location == Some(l) then Signed(t) else 0)
        && OpeningSum(a.changes, l) == OpeningSum(b.changes, l)
    {
      AppendTxn(b.txns, t, l);
      if t.location.Some? {
        AppendChange(b.changes, ChangeOf(t, |b.txns|, t.location.value), l);
      }
    }
    AppendTxn(b.txns, t, 0);
    if t.location.Some? {
      AppendChange(b.changes, ChangeOf(t, |b.txns|, t.location.value), 0);
    }
  }

  /** A covered posting keeps the books consistent. */
  lemma PostKeepsBooks(b: Books, t: Txn)
    requires BooksInv(b) && Covered(b, t)
    ensures BooksInv(Post(b, t))
    ensures NetBalance(Post(b, t).txns) == NetBalance(b.txns) + Signed(t)
  {
    PostKeepsTraces(b, t, Post(b, t));
    PostKeepsKinds(b, t, Post(b, t));
    PostKeepsBalances(b, t, Post(b, t));
    assert (b.txns + [t])[..|b.txns|] == b.txns;
  }

  lemma ManualKeepsBooks(b: Books, amount: int, kind: Direction, location: Option<nat>, at: int, enforced: bool)
    requires BooksInv(b) && CreateManual(b, amount, kind, location, at, enforced).Ok?
    ensures BooksInv(CreateManual(b, amount, kind, location, at, enforced).value)
  {
    PostKeepsBooks(b, Txn(amount, kind, None, None, location, at));
  }

  lemma ReverseTxnKeepsBooks(b: Books, id: nat, at: int)
    requires BooksInv(b) && ReverseTxn(b, id, at).Ok?
    ensures BooksInv(ReverseTxn(b, id, at).value)
  {
    PostKeepsBooks(b, ReversalOf(b.txns[id], id, at));
  }

  /** The two changes of a transfer from `from` to `to`, forward or reversing. */
  ghost predicate MovesFunds(b: Books, a: Books, tr: Transfer, outSide: Change, inSide: Change) {
    && a == b.(transfers := b.transfers + [tr], changes := b.changes + [outSide] + [inSide])
    && tr.amount > 0 && tr.from != tr.to && tr.from < |b.locations| && tr.to < |b.locations|
    && outSide.location == tr.from && outSide.delta == -tr.amount
    && inSide.location == tr.to && inSide.delta == tr.amount
    && outSide.source == inSide.source == FromTransfer(|b.transfers|)
    && ((outSide.kind == TransferOut && inSide.kind == TransferIn)
        || (outSide.kind == ReversalTransferIn && inSide.kind == ReversalTransferOut))
    && (tr.reverses.Some? <==> IsReversal(outSide))
  }

  lemma MoveEffect(b: Books, a: Books, tr: Transfer, outSide: Change, inSide: Change, l: nat)
    requires MovesFunds(b, a, tr, outSide, inSide)
    ensures LocationSum(a.changes, l) == LocationSum(b.changes, l) + TransferEffect(tr, l)
    ensures OpeningSum(a.changes, l) == OpeningSum(b.changes, l)
    ensures ChangeTotal(a.changes) == ChangeTotal(b.changes) && OpeningTotal(a.changes) == OpeningTotal(b.changes)
    ensures TransferSum(a.transfers, l) == TransferSum(b.transfers, l) + TransferEffect(tr, l)
  {
    AppendChange(b.changes, outSide, l);
    AppendChange(b.changes + [outSide], inSide, l);
    AppendTransfer(b.transfers, tr, l);
  }

  lemma BothSidesRecorded(b: Books, a: Books, tr: Transfer, outSide: Change, inSide: Change)
    requires MovesFunds(b, a, tr, outSide, inSide)
    ensures HasOut(a.changes, |b.transfers|) && HasIn(a.changes, |b.transfers|)
  {
    var n := |b.changes|;
    var id := |b.transfers|;
    assert a.changes[n] == outSide && a.changes[n + 1] == inSide;
    if outSide.kind == TransferOut {
      assert IsOutSide(a.changes[n], id) && IsInSide(a.changes[n + 1], id);
    } else {
      assert IsOutSide(a.changes[n + 1], id) && IsInSide(a.changes[n], id);
    }
  }

  lemma MoveKeepsTxnTraces(b: Books, a: Books, tr: Transfer, outSide: Change, inSide: Change)
    requires TxnsTraced(b) && TransfersTraced(b) && MovesFunds(b, a, tr, outSide, inSide)
    ensures TxnsTraced(a)
  {
    TracesSurvive(b, a);
  }

  lemma MoveKeepsTransferTraces(b: Books, a: Books, tr: Transfer, outSide: Change, inSide: Change)
    requires TxnsTraced(b) && TransfersTraced(b) && MovesFunds(b, a, tr, outSide, inSide)
    ensures TransfersTraced(a)
  {
    TracesSurvive(b, a);
    BothSidesRecorded(b, a, tr, outSide, inSide);
  }

  lemma MoveKeepsKinds(b: Books, a: Books, tr: Transfer, outSide: Change, inSide: Change)
    requires KindsTell(b) && MovesFunds(b, a, tr, outSide, inSide)
    ensures KindsTell(a)
  {
    KindsSurvive(b, a);
    assert a.transfers[|b.transfers|] == tr;
    assert KindTells(a, outSide) && KindTells(a, inSide);
  }

  lemma MoveKeepsBalances(b: Books, a: Books, tr: Transfer, outSide: Change, inSide: Change)
    requires BalancesExplained(b) && TotalExplained(b) && MovesFunds(b, a, tr, outSide, inSide)
    requires LocationSum(b.changes, tr.from) >= tr.amount
    ensures BalancesExplained(a) && TotalExplained(a)
  {
    forall l: nat
      ensures LocationSum(a.changes, l) >= 0
      ensures LocationSum(a.changes, l) == PostedSum(a.txns, l) + TransferSum(a.transfers, l) + OpeningSum(a.changes, l)
    {
      MoveEffect(b, a, tr, outSide, inSide, l);
    }
    MoveEffect(b, a, tr, outSide, inSide, 0);
  }

  lemma MoveKeepsBooks(b: Books, a: Books, tr: Transfer, outSide: Change, inSide: Change)
    requires BooksInv(b) && MovesFunds(b, a, tr, outSide, inSide)
    requires LocationSum(b.changes, tr.from) >= tr.amount
    ensures BooksInv(a)
  {
    MoveKeepsTxnTraces(b, a, tr, outSide, inSide);
    MoveKeepsTransferTraces(b, a, tr, outSide, inSide);
    MoveKeepsKinds(b, a, tr, outSide, inSide);
    MoveKeepsBalances(b, a, tr, outSide, inSide);
  }

  lemma TransferMoves(b: Books, from: nat, to: nat, amount: int)
    requires CreateTransfer(b, from, to, amount).Ok?
    ensures MovesFunds(b, CreateTransfer(b, from, to, amount).value, Transfer(from, to, amount, None),
      Change(from, FromTransfer(|b.transfers|), TransferOut, -amount),
      Change(to, FromTransfer(|b.transfers|), TransferIn, amount))
  {
  }

  lemma ReversalMoves(b: Books, id: nat)
    requires TransfersTraced(b) && ReverseTransfer(b, id).Ok?
    ensures var orig := b.transfers[id];
      MovesFunds(b, ReverseTransfer(b, id).value, Transfer(orig.to, orig.from, orig.amount, Some(id)),
        Change(orig.to, FromTransfer(|b.transfers|), ReversalTransferIn, -orig.amount),
        Change(orig.from, FromTransfer(|b.transfers|), ReversalTransferOut, orig.amount))
  {
  }

  lemma TransferKeepsBooks(b: Books, from: nat, to: nat, amount: int)
    requires BooksInv(b) && CreateTransfer(b, from, to, amount).Ok?
    ensures BooksInv(CreateTransfer(b, from, to, amount).value)
  {
    TransferMoves(b, from, to, amount);
    MoveKeepsBooks(b, CreateTransfer(b, from, to, amount).value, Transfer(from, to, amount, None),
      Change(from, FromTransfer(|b.transfers|), TransferOut, -amount),
      Change(to, FromTransfer(|b.transfers|), TransferIn, amount));
  }

  lemma ReverseTransferKeepsBooks(b: Books, id: nat)
    requires BooksInv(b) && ReverseTransfer(b, id).Ok?
    ensures BooksInv(ReverseTransfer(b, id).value)
  {
    ReversalMoves(b, id);
    var orig := b.transfers[id];
    MoveKeepsBooks(b, ReverseTransfer(b, id).value, Transfer(orig.to, orig.from, orig.amount, Some(id)),
      Change(orig.to, FromTransfer(|b.transfers|), ReversalTransferIn, -orig.amount),
      Change(orig.from, FromTransfer(|b.transfers|), ReversalTransferOut, orig.amount));
  }

  lemma OpeningKeepsTraces(b: Books, c: Change, a: Books)
    requires TxnsTraced(b) && TransfersTraced(b)
    requires a == b.(changes := b.changes + [c]) && c.source.OpeningBalance?
    ensures TxnsTraced(a) && TransfersTraced(a)
  {
    TracesSurvive(b, a);
  }

  lemma OpeningKeepsBalances(b: Books, c: Change, a: Books)
    requires BalancesExplained(b) && TotalExplained(b) && a == b.(changes := b.changes + [c])
    requires c.source.OpeningBalance? && c.delta > 0 && c.location < |b.locations|
    ensures BalancesExplained(a) && TotalExplained(a)
  {
    forall l: nat
      ensures LocationSum(a.changes, l) == LocationSum(b.changes, l) + (if l == c.location then c.delta else 0)
      ensures OpeningSum(a.changes, l) == OpeningSum(b.changes, l) + (if l == c.location then c.delta else 0)
    {
      AppendChange(b.changes, c, l);
    }
    AppendChange(b.changes, c, 0);
  }

  /** One more opening change at a location that exists. */
  lemma OpeningChangeKeeps(b: Books, c: Change, a: Books)
    requires BooksInv(b) && a == b.(changes := b.changes + [c])
    requires c.source.OpeningBalance? && c.kind == Opening && c.delta > 0 && c.location < |b.locations|
    ensures BooksInv(a)
  {
    OpeningKeepsTraces(b, c, a);
    KindsSurvive(b, a);
    OpeningKeepsBalances(b, c, a);
  }

  lemma OpeningKeepsBooks(b: Books, location: nat, amount: int, clock: Clock)
    requires BooksInv(b) && SetOpeningBalance(b, location, amount, clock).Ok?
    ensures BooksInv(SetOpeningBalance(b, location, amount, clock).value)
  {
    var c := Change(location, OpeningBalance, Opening, amount);
    OpeningChangeKeeps(b, c, SetOpeningBalance(b, location, amount, clock).value);
  }

  lemma AddLocationKeepsBooks(b: Books, category: Category)
    requires BooksInv(b)
    ensures BooksInv(AddLocation(b, category))
  {
    TracesSurvive(b, AddLocation(b, category));
    KindsSurvive(b, AddLocation(b, category));
  }

  lemma DeactivateKeepsBooks(b: Books, location: nat)
    requires BooksInv(b) && DeactivateLocation(b, location).Ok?
    ensures BooksInv(DeactivateLocation(b, location).value)
  {
    TracesSurvive(b, DeactivateLocation(b, location).value);
    KindsSurvive(b, DeactivateLocation(b, location).value);
  }

  // ----- Runs over the books -----

  datatype BookOp =
    | ManualOp(amount: int, kind: Direction, place: Option<nat>, at: int, enforced: bool)
    | ReverseTxnOp(txn: nat, at: int)
    | TransferOp(from: nat, to: nat, amount: int)
    | ReverseTransferOp(transfer: nat)
    | OpeningOp(location: nat, amount: int, clock: Clock)
    | PeriodOpeningOp(month: nat, amount: int)
    | AddLocationOp(category: Category)
    | DeactivateOp(location: nat)

  function TryBooks(b: Books, op: BookOp): Outcome {
    match op
    case ManualOp(amount, kind, location, at, enforced) => CreateManual(b, amount, kind, location, at, enforced)
    case ReverseTxnOp(txn, at) => ReverseTxn(b, txn, at)
    case TransferOp(from, to, amount) => CreateTransfer(b, from, to, amount)
    case ReverseTransferOp(transfer) => ReverseTransfer(b, transfer)
    case OpeningOp(location, amount, clock) => SetOpeningBalance(b, location, amount, clock)
    case PeriodOpeningOp(month, amount) =>
      (match SetPeriodOpening(b, month, amount)
       case Ok(result) => Ok(result.0)
       case Err(_) => Err(InvalidAmount))
    case AddLocationOp(category) => Ok(AddLocation(b, category))
    case DeactivateOp(location) => DeactivateLocation(b, location)
  }

  /** One operation; a refused one leaves the books as they were. */
  function ApplyBooks(b: Books, op: BookOp): Books {
    var outcome := TryBooks(b, op);
    if outcome.Ok? then outcome.value else b
  }

  /** Every operation on the books keeps them consistent. */
  lemma BookOpKeepsBooks(b: Books, op: BookOp)
    requires BooksInv(b)
    ensures BooksInv(ApplyBooks(b, op))
  {
    if ApplyBooks(b, op) != b {
      match op
      case ManualOp(amount, kind, location, at, enforced) => ManualKeepsBooks(b, amount, kind, location, at, enforced);
      case ReverseTxnOp(txn, at) => ReverseTxnKeepsBooks(b, txn, at);
      case TransferOp(from, to, amount) => TransferKeepsBooks(b, from, to, amount);
      case ReverseTransferOp(transfer) => ReverseTransferKeepsBooks(b, transfer);
      case OpeningOp(location, amount, clock) => OpeningKeepsBooks(b, location, amount, clock);
      case PeriodOpeningOp(month, amount) =>
      case AddLocationOp(category) => AddLocationKeepsBooks(b, category);
      case DeactivateOp(location) => DeactivateKeepsBooks(b, location);
    }
  }

  // ----- Conservation of transfers -----

  /** A transfer moves its amount and leaves the total of the RT alone. */
  lemma TransferConserves(b: Books, from: nat, to: nat, amount: int, l: nat)
    requires CreateTransfer(b, from, to, amount).Ok?
    ensures var a := CreateTransfer(b, from, to, amount).value;
      && ChangeTotal(a.changes) == ChangeTotal(b.changes)
      && LocationSum(a.changes, l) - LocationSum(b.changes, l)
         == if l == from then -amount else if l == to then amount else 0
  {
    TransferMoves(b, from, to, amount);
    MoveEffect(b, CreateTransfer(b, from, to, amount).value, Transfer(from, to, amount, None),
      Change(from, FromTransfer(|b.transfers|), TransferOut, -amount),
      Change(to, FromTransfer(|b.transfers|), TransferIn, amount), l);
  }

  /** Reversing a transfer, whenever it is possible, takes back exactly what the transfer did to each location. */
  lemma ReversalUndoesTransfer(b: Books, id: nat, l: nat)
    requires TransfersTraced(b) && ReverseTransfer(b, id).Ok?
    ensures var a := ReverseTransfer(b, id).value;
      && ChangeTotal(a.changes) == ChangeTotal(b.changes)
      && LocationSum(a.changes, l) == LocationSum(b.changes, l) - TransferEffect(b.transfers[id], l)
  {
    ReversalMoves(b, id);
    var orig := b.transfers[id];
    MoveEffect(b, ReverseTransfer(b, id).value, Transfer(orig.to, orig.from, orig.amount, Some(id)),
      Change(orig.to, FromTransfer(|b.transfers|), ReversalTransferIn, -orig.amount),
      Change(orig.from, FromTransfer(|b.transfers|), ReversalTransferOut, orig.amount), l);
  }

  /** An unreversed transfer whose amount its receiver still holds can be reversed, and only once. */
  lemma ReversedOnce(b: Books, id: nat)
    requires TransfersTraced(b) && id == |b.transfers| - 1 && b.transfers[id].reverses.None?
    requires !HasTransferReversal(b.transfers, id)
    requires LocationSum(b.changes, b.transfers[id].to) >= b.transfers[id].amount
    ensures var back := ReverseTransfer(b, id);
      && back.Ok? && ReverseTransfer(back.value, id) == Err(AlreadyReversed)
      && ReverseTransfer(back.value, id + 1) == Err(CannotReverseReversal)
  {
    assert ReverseTransfer(b, id).value.transfers[id + 1].reverses == Some(id);
  }

  lemma NewTransferUnreversed(b: Books, a: Books, tr: Transfer)
    requires forall i :: 0 <= i < |b.transfers| && b.transfers[i].reverses.Some? ==> b.transfers[i].reverses.value < i
    requires a.transfers == b.transfers + [tr] && tr.reverses.None?
    ensures a.transfers[|b.transfers|] == tr && !HasTransferReversal(a.transfers, |b.transfers|)
  {
  }

  /** Right after a transfer its reversal is always accepted, restores both locations, and cannot be repeated. */
  lemma TransferRoundTrip(b: Books, from: nat, to: nat, amount: int, l: nat)
    requires BooksInv(b) && CreateTransfer(b, from, to, amount).Ok?
    requires forall i :: 0 <= i < |b.transfers| && b.transfers[i].reverses.Some? ==> b.transfers[i].reverses.value < i
    ensures var id := |b.transfers|;
      var back := ReverseTransfer(CreateTransfer(b, from, to, amount).value, id);
      && back.Ok? && LocationSum(back.value.changes, l) == LocationSum(b.changes, l)
      && ReverseTransfer(back.value, id) == Err(AlreadyReversed)
      && ReverseTransfer(back.value, id + 1) == Err(CannotReverseReversal)
  {
    var a := CreateTransfer(b, from, to, amount).value;
    TransferKeepsBooks(b, from, to, amount);
    TransferConserves(b, from, to, amount, l);
    TransferConserves(b, from, to, amount, to);
    NewTransferUnreversed(b, a, Transfer(from, to, amount, None));
    ReversedOnce(a, |b.transfers|);
    ReversalUndoesTransfer(a, |b.transfers|, l);
  }

  // ----- Overlapping reversals of a row -----

  lemma PostNet(b: Books, t: Txn)
    ensures NetBalance(Post(b, t).txns) == NetBalance(b.txns) + Signed(t)
    ensures t.location.Some? ==>
      LocationSum(Post(b, t).changes, t.location.value) == LocationSum(b.changes, t.location.value) + Signed(t)
  {
    assert (b.txns + [t])[..|b.txns|] == b.txns;
    if t.location.Some? {
      AppendChange(b.changes, ChangeOf(t, |b.txns|, t.location.value), t.location.value);
    }
  }

  /** A second call that had looked for reversals before the first one posted its own takes the row back again exactly
      if the row is an expense, names no location, or its location held the amount twice. One that looks afterwards is
      refused. */
  lemma StaleReversalExactly(b: Books, id: nat, at: int, first: Books)
    requires id < |b.txns| && b.txns[id].reverses.None? && ReverseTxn(b, id, at) == Ok(first) && b.txns[id].amount > 0
    ensures ReverseTxn(first, id, at) == Err(AlreadyReversed)
    ensures var orig := b.txns[id];
      PostReversal(first, id, at).Ok? <==>
        orig.kind.Expense? || orig.location.None? || LocationSum(b.changes, orig.location.value) >= 2 * orig.amount
    ensures PostReversal(first, id, at).Ok? ==>
      NetBalance(PostReversal(first, id, at).value.txns) == NetBalance(b.txns) - 2 * Signed(b.txns[id])
  {
    var back := ReversalOf(b.txns[id], id, at);
    assert first.txns[|b.txns|] == back;
    PostNet(b, back);
    PostNet(first, back);
  }

  // ----- Soundness of the report -----

  /** In consistent books the report lists no anomaly. */
  lemma NoAnomalies(b: Books)
    requires BooksInv(b)
    ensures Anomalies(b) == {}
  {
    forall i: nat | i < |b.txns|
      ensures !Orphaned(b, i)
    {
      if b.txns[i].location.Some? {
        var c :| 0 <= c < |b.changes| && b.changes[c] == ChangeOf(b.txns[i], i, b.txns[i].location.value);
      }
    }
    forall t: nat | t < |b.transfers|
      ensures !Unbalanced(b, t)
    {
    }
  }

  /** Cash minus allocated money is the unlocated transactions less the opening balances. */
  lemma {:induction false} NetSplitsByLocation(txns: seq<Txn>)
    ensures NetBalance(txns) == LocatedNet(txns, true) + LocatedNet(txns, false)
  {
    if txns != [] {
      NetSplitsByLocation(txns[..|txns| - 1]);
    }
  }

  /** The cash balance is the overall net, less whatever happened at the very first moment of next month
      when that moment is the latest: the span then ends at it and leaves it out. */
  lemma KasExactly(b: Books, clock: Clock)
    requires b.openings == map[] && ValidClock(clock)
    ensures var next := MonthStart(clock.month + 1);
      KasBalance(b, clock) == NetBalance(b.txns)
        - if LatestTxn(b.txns) == Some(next) then NetIn(b.txns, Some(next), next + 1) else 0
  {
    MonthStartIncreases(clock.month, clock.month + 1);
    var next := MonthStart(clock.month + 1);
    if LatestTxn(b.txns) == Some(next) {
      NetSplits(b.txns, None, MonthStart(clock.month), next);
      NetSplits(b.txns, None, next, next + 1);
      NetOfAll(b.txns, next + 1);
    } else {
      ClosingIsNetBalance(b, clock.month, KasEnd(b, clock));
    }
  }

  lemma OneIncome(t: Txn)
    requires t.amount == 100 && t.kind.Income? && t.location.None?
    ensures LatestTxn([t]) == Some(t.occurredAt) && NetBalance([t]) == 100
    ensures NetIn([t], Some(t.occurredAt), t.occurredAt + 1) == 100
  {
    assert [t][..0] == [];
    assert SumIn([t], Income, Some(t.occurredAt), t.occurredAt + 1) == 100;
    assert SumIn([t], Expense, Some(t.occurredAt), t.occurredAt + 1) == 0;
  }

  lemma FirstIncomeKeeps(t: Txn, b: Books)
    requires t.amount > 0 && t.kind.Income? && t.location.None? && b == Books([], [t], [], [], map[])
    ensures BooksInv(b)
  {
    var empty := Books([], [], [], [], map[]);
    assert [] + [t] == [t];
    PostKeepsBooks(empty, t);
  }

  /** One income at the first moment of next month is missing from the cash balance. */
  lemma BoundaryTxnMissed(clock: Clock)
    requires ValidClock(clock)
    ensures var t := Txn(100, Income, None, None, None, MonthStart(clock.month + 1));
      var b := Books([], [t], [], [], map[]);
      BooksInv(b) && NetBalance(b.txns) == 100 && KasBalance(b, clock) == 0
  {
    var t := Txn(100, Income, None, None, None, MonthStart(clock.month + 1));
    FirstIncomeKeeps(t, Books([], [t], [], [], map[]));
    OneIncome(t);
    KasExactly(Books([], [t], [], [], map[]), clock);
  }

  /** Away from that boundary, cash not yet in any location is the net of unlocated transactions less opening
      balances. */
  lemma UnallocatedExplained(b: Books, clock: Clock)
    requires BooksInv(b) && b.openings == map[] && ValidClock(clock)
    requires LatestTxn(b.txns) != Some(MonthStart(clock.month + 1))
    ensures KasBalance(b, clock) - ChangeTotal(b.changes) == LocatedNet(b.txns, false) - OpeningTotal(b.changes)
  {
    KasExactly(b, clock);
    NetSplitsByLocation(b.txns);
  }

  /** Sum of the balances of the first `n` locations. */
  function BalancesTotal(changes: seq<Change>, n: nat): int {
    if n == 0 then 0 else BalancesTotal(changes, n - 1) + LocationSum(changes, n - 1)
  }

  lemma {:induction false} BalancesAppend(changes: seq<Change>, c: Change, n: nat)
    ensures BalancesTotal(changes + [c], n) == BalancesTotal(changes, n) + if c.location < n then c.delta else 0
  {
    if n > 0 {
      BalancesAppend(changes, c, n - 1);
      AppendChange(changes, c, n - 1);
    }
  }

  lemma {:induction false} BalancesOfNothing(n: nat)
    ensures BalancesTotal([], n) == 0
  {
    if n > 0 {
      BalancesOfNothing(n - 1);
    }
  }

  /** The total of all changes is the total of the location balances. */
  lemma {:induction false} TotalIsSumOfBalances(changes: seq<Change>, n: nat)
    requires forall c :: 0 <= c < |changes| ==> changes[c].location < n
    ensures ChangeTotal(changes) == BalancesTotal(changes, n)
  {
    if changes == [] {
      BalancesOfNothing(n);
    } else {
      var init := changes[..|changes| - 1];
      TotalIsSumOfBalances(init, n);
      BalancesAppend(init, changes[|changes| - 1], n);
      assert changes == init + [changes[|changes| - 1]];
    }
  }

  lemma {:induction false} BalancesNonNegative(b: Books, n: nat)
    requires BalancesExplained(b)
    ensures BalancesTotal(b.changes, n) >= 0
  {
    if n > 0 {
      BalancesNonNegative(b, n - 1);
    }
  }

  /** The report flags a discrepancy exactly when unlocated spending has eaten into money already allocated. */
  lemma ReportVerdict(b: Books, clock: Clock)
    requires BooksInv(b) && b.openings == map[] && ValidClock(clock)
    requires LatestTxn(b.txns) != Some(MonthStart(clock.month + 1))
    requires Reconcile(b, clock).Ok?
    ensures var r := Reconcile(b, clock).value;
      var slack := LocatedNet(b.txns, false) - OpeningTotal(b.changes);
      && r.anomalies == {} && r.inLocations == ChangeTotal(b.changes)
      && (r.status == DiscrepancyAnomaly <==> slack < 0)
      && (r.status == MatchWithNotes <==> slack > 0)
      && (slack >= 0 ==> r.unallocated == slack && r.discrepancy == 0)
  {
    NoAnomalies(b);
    TotalIsSumOfBalances(b.changes, |b.locations|);
    BalancesNonNegative(b, |b.locations|);
    UnallocatedExplained(b, clock);
  }
}
