/** The books as mutable tables, with the operations that write their rows. */
module FundStore {
  import opened Results
  import opened Ledger
  import opened PeriodBalance
  import opened FundLocation

  /** A call reports an error exactly when its specification does, and an error leaves the tables alone. */
  ghost predicate Follows(outcome: Outcome, before: Books, after: Books, error: Option<BookError>) {
    match outcome
    case Ok(b) => error.None? && after == b
    case Err(e) => error == Some(e) && after == before
  }

  class FundBooks {
    var locations: seq<Location>
    var txns: seq<Txn>
    var transfers: seq<Transfer>
    var changes: seq<Change>
    var openings: map<nat, int>

    function View(): Books
      reads this
    {
      Books(locations, txns, transfers, changes, openings)
    }

    constructor ()
      ensures View() == Books([], [], [], [], map[])
    {
      locations, txns, transfers, changes, openings := [], [], [], [], map[];
    }

    /** `TransactionCreate`: the row first, then the location's change. */
    method TransactionCreate(t: Txn) returns (id: nat)
      modifies this`txns, this`changes
      ensures View() == Post(old(View()), t)
      ensures id == |old(txns)| && txns[id] == t
    {
      id := |txns|;
      txns := txns + [t];
      if t.location.Some? {
        var kind;
        var delta;
        if t.reverses.Some? {
          if t.kind.Income? {
            kind, delta := ReversalOfExpense, t.amount;
          } else {
            kind, delta := ReversalOfIncome, -t.amount;
          }
        } else if t.kind.Income? {
          kind, delta := IncomeIn, t.amount;
        } else {
          kind, delta := ExpenseOut, -t.amount;
        }
        changes := changes + [Change(t.location.value, FromTxn(id), kind, delta)];
      }
    }

    method CreateManualTransaction(amount: int, kind: Direction, location: Option<nat>, at: int, enforced: bool)
      returns (error: Option<BookError>)
      modifies this`txns, this`changes
      ensures Follows(CreateManual(old(View()), amount, kind, location, at, enforced), old(View()), View(), error)
    {
      if amount <= 0 {
        return Some(InvalidAmount);
      }
      if location.Some? {
        if location.value >= |locations| {
          return Some(LocationNotFound);
        }
        if !locations[location.value].isActive {
          return Some(InactiveLocation);
        }
        if kind.Expense? {
          var balance := LocationSum(changes, location.value);
          if CentsOrZero(balance) < amount {
            return Some(InsufficientFunds);
          }
        }
      } else if enforced {
        return Some(LocationRequired);
      }
      var _ := TransactionCreate(Txn(amount, kind, None, None, location, at));
      return None;
    }

    method ReverseTransaction(id: nat, at: int) returns (error: Option<BookError>)
      modifies this`txns, this`changes
      ensures Follows(ReverseTxn(old(View()), id, at), old(View()), View(), error)
    {
      if id >= |txns| {
        return Some(NotFound);
      }
      var orig := txns[id];
      if orig.reverses.Some? {
        return Some(CannotReverseReversal);
      }
      if HasReversal(txns, id) {
        return Some(AlreadyReversed);
      }
      var reversed: Direction;
      if orig.kind.Income? {
        reversed := Expense;
        if orig.location.Some? {
          var balance := LocationSum(changes, orig.location.value);
          if CentsOrZero(balance) < orig.amount {
            return Some(InsufficientFunds);
          }
        }
      } else {
        reversed := Income;
      }
      var _ := TransactionCreate(Txn(orig.amount, reversed, Some(id), orig.payment, orig.location, at));
      return None;
    }

    /** Append a transfer with the change of each side. */
    method RecordTransfer(t: Transfer, giving: ChangeType, receiving: ChangeType)
      modifies this`transfers, this`changes
      ensures View() == old(View()).(
        transfers := old(transfers) + [t],
        changes := old(changes) + [Change(t.from, FromTransfer(|old(transfers)|), giving, -t.amount)]
                   + [Change(t.to, FromTransfer(|old(transfers)|), receiving, t.amount)])
    {
      var id := |transfers|;
      transfers := transfers + [t];
      changes := changes + [Change(t.from, FromTransfer(id), giving, -t.amount)];
      changes := changes + [Change(t.to, FromTransfer(id), receiving, t.amount)];
    }

    method CreateTransfer(from: nat, to: nat, amount: int) returns (error: Option<BookError>)
      modifies this`transfers, this`changes
      ensures Follows(FundLocation.CreateTransfer(old(View()), from, to, amount), old(View()), View(), error)
    {
      if from == to {
        return Some(SameLocation);
      }
      if amount <= 0 {
        return Some(InvalidAmount);
      }
      if from >= |locations| || to >= |locations| {
        return Some(LocationNotFound);
      }
      if !locations[from].isActive || !locations[to].isActive {
        return Some(InactiveLocation);
      }
      var balance := LocationSum(changes, from);
      if balance < 0 {
        return Some(NegativeBalance);
      }
      if balance < amount {
        return Some(InsufficientFunds);
      }
      RecordTransfer(Transfer(from, to, amount, None), TransferOut, TransferIn);
      return None;
    }

    method ReverseTransfer(id: nat) returns (error: Option<BookError>)
      modifies this`transfers, this`changes
      ensures Follows(FundLocation.ReverseTransfer(old(View()), id), old(View()), View(), error)
    {
      if id >= |transfers| {
        return Some(NotFound);
      }
      var orig := transfers[id];
      if orig.reverses.Some? {
        return Some(CannotReverseReversal);
      }
      if HasTransferReversal(transfers, id) {
        return Some(AlreadyReversed);
      }
      var balance := LocationSum(changes, orig.to);
      if balance < 0 {
        return Some(NegativeBalance);
      }
      if balance < orig.amount {
        return Some(InsufficientReversal);
      }
      RecordTransfer(Transfer(orig.to, orig.from, orig.amount, Some(id)), ReversalTransferIn, ReversalTransferOut);
      return None;
    }

    method SetOpeningBalance(location: nat, amount: int, clock: Clock) returns (error: Option<BookError>)
      modifies this`changes
      ensures Follows(FundLocation.SetOpeningBalance(old(View()), location, amount, clock), old(View()), View(), error)
    {
      if amount <= 0 {
        return Some(InvalidAmount);
      }
      if location >= |locations| {
        return Some(NotFound);
      }
      var kas := KasBalance(View(), clock);
      if kas < 0 {
        return Some(NegativeBalance);
      }
      var available := kas - CentsOrZero(ChangeTotal(changes));
      if amount > available {
        return Some(InsufficientUnallocated);
      }
      changes := changes + [Change(location, OpeningBalance, Opening, amount)];
      return None;
    }

    /** Writes the month's manual row and reports the opening it replaces. */
    method SetPeriodOpeningBalance(month: nat, amount: int) returns (correction: Result<Correction, CorrectionError>)
      modifies this`openings
      ensures match SetPeriodOpening(old(View()), month, amount)
        case Ok((b, c)) => correction == Ok(c) && View() == b
        case Err(e) => correction == Err(e) && View() == old(View())
      ensures correction.Ok? ==> correction.value.before == RollOpening(old(View()), month)
    {
      var before := OpeningOf(View(), month);
      OpeningIsRollForward(View(), month);
      if amount < 0 {
        return Err(NegativeOpening);
      }
      openings := openings[month := amount];
      return Ok(Correction(before, amount));
    }

    method AddLocation(category: Category) returns (id: nat)
      modifies this`locations
      ensures View() == FundLocation.AddLocation(old(View()), category) && id == |old(locations)|
    {
      id := |locations|;
      locations := locations + [Location(category, true)];
    }

    method DeactivateLocation(location: nat) returns (error: Option<BookError>)
      modifies this`locations
      ensures Follows(FundLocation.DeactivateLocation(old(View()), location), old(View()), View(), error)
    {
      if location >= |locations| {
        return Some(NotFound);
      }
      var balance := LocationSum(changes, location);
      if balance < 0 {
        return Some(NegativeBalance);
      }
      if balance > 0 {
        return Some(CannotDeactivateWithBalance);
      }
      locations := locations[location := locations[location].(isActive := false)];
      return None;
    }
  }
}
