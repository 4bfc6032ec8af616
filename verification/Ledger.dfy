/** The append-only books of one RT: cash transactions, transfers between fund locations,
    the balance changes they cause, and manual opening balances of months. A row's id is its position. */
module Ledger {
  import opened Results

  datatype Direction = Income | Expense

  /** A posted transaction; amounts are cents. */
  datatype Txn = Txn(
    amount: int,
    kind: Direction,
    reverses: Option<nat>,
    payment: Option<nat>,
    location: Option<nat>,
    occurredAt: int)

  datatype Transfer = Transfer(from: nat, to: nat, amount: int, reverses: Option<nat>)

  datatype Source = OpeningBalance | FromTxn(txn: nat) | FromTransfer(transfer: nat)

  datatype ChangeType =
    | Opening
    | IncomeIn | ExpenseOut | ReversalOfIncome | ReversalOfExpense
    | TransferOut | TransferIn | ReversalTransferOut | ReversalTransferIn

  /** A location balance change. */
  datatype Change = Change(location: nat, source: Source, kind: ChangeType, delta: int)

  datatype Category = Rekening | Brankas | CashOnHand

  datatype Location = Location(category: Category, isActive: bool)

  datatype Books = Books(
    locations: seq<Location>,
    txns: seq<Txn>,
    transfers: seq<Transfer>,
    changes: seq<Change>,
    openings: map<nat, int>)

  function Signed(t: Txn): int {
    if t.kind.Income? then t.amount else -t.amount
  }

  function Opposite(kind: Direction): Direction {
    if kind.Income? then Expense else Income
  }

  function Abs(x: int): int {
    if x < 0 then -x else x
  }

  function ChangeOf(t: Txn, id: nat, location: nat): Change {
    var kind :=
      if t.reverses.Some? then (if t.kind.Income? then ReversalOfExpense else ReversalOfIncome)
      else if t.kind.Income? then IncomeIn else ExpenseOut;
    Change(location, FromTxn(id), kind, Signed(t))
  }

  /** `TransactionCreate`: a posted row, and one balance change when it names a location. */
  function Post(b: Books, t: Txn): Books {
    b.(txns := b.txns + [t],
       changes := if t.location.None? then b.changes
                  else b.changes + [ChangeOf(t, |b.txns|, t.location.value)])
  }

  // ----- Sums over the rows -----

  /** Sum of the balance changes of one location. */
  function LocationSum(changes: seq<Change>, location: nat): int {
    if changes == [] then 0
    else
      var last := changes[|changes| - 1];
      LocationSum(changes[..|changes| - 1], location) + if last.location == location then last.delta else 0
  }

  function ChangeTotal(changes: seq<Change>): int {
    if changes == [] then 0
    else ChangeTotal(changes[..|changes| - 1]) + changes[|changes| - 1].delta
  }

  /** Opening balances recorded for one location. */
  function OpeningSum(changes: seq<Change>, location: nat): int {
    if changes == [] then 0
    else
      var last := changes[|changes| - 1];
      OpeningSum(changes[..|changes| - 1], location)
      + if last.location == location && last.source.OpeningBalance? then last.delta else 0
  }

  function OpeningTotal(changes: seq<Change>): int {
    if changes == [] then 0
    else
      var last := changes[|changes| - 1];
      OpeningTotal(changes[..|changes| - 1]) + if last.source.OpeningBalance? then last.delta else 0
  }

  /** Signed transactions of one location. */
  function PostedSum(txns: seq<Txn>, location: nat): int {
    if txns == [] then 0
    else
      var last := txns[|txns| - 1];
      PostedSum(txns[..|txns| - 1], location) + if last.location == Some(location) then Signed(last) else 0
  }

  /** Signed transactions that name some location, or that name none. */
  function LocatedNet(txns: seq<Txn>, located: bool): int {
    if txns == [] then 0
    else
      var last := txns[|txns| - 1];
      LocatedNet(txns[..|txns| - 1], located) + if last.location.Some? == located then Signed(last) else 0
  }

  function TransferEffect(t: Transfer, location: nat): int {
    (if t.to == location then t.amount else 0) - (if t.from == location then t.amount else 0)
  }

  function TransferSum(transfers: seq<Transfer>, location: nat): int {
    if transfers == [] then 0
    else TransferSum(transfers[..|transfers| - 1], location) + TransferEffect(transfers[|transfers| - 1], location)
  }

  lemma AppendChange(changes: seq<Change>, c: Change, location: nat)
    ensures LocationSum(changes + [c], location) == LocationSum(changes, location) + if c.location == location then c.delta else 0
    ensures ChangeTotal(changes + [c]) == ChangeTotal(changes) + c.delta
    ensures OpeningSum(changes + [c], location) ==
      OpeningSum(changes, location) + if c.location == location && c.source.OpeningBalance? then c.delta else 0
    ensures OpeningTotal(changes + [c]) == OpeningTotal(changes) + if c.source.OpeningBalance? then c.delta else 0
  {
    assert (changes + [c])[..|changes|] == changes;
  }

  lemma AppendTxn(txns: seq<Txn>, t: Txn, location: nat)
    ensures PostedSum(txns + [t], location) == PostedSum(txns, location) + if t.location == Some(location) then Signed(t) else 0
    ensures forall located ::
      LocatedNet(txns + [t], located) == LocatedNet(txns, located) + if t.location.Some? == located then Signed(t) else 0
  {
    assert (txns + [t])[..|txns|] == txns;
  }

  lemma AppendTransfer(transfers: seq<Transfer>, t: Transfer, location: nat)
    ensures TransferSum(transfers + [t], location) == TransferSum(transfers, location) + TransferEffect(t, location)
  {
    assert (transfers + [t])[..|transfers|] == transfers;
  }
}
