/** Opening and closing balances of months: the stored-anchor computation and the roll-forward it stands for. */
module PeriodBalance {
  import opened Results
  import opened Calendar
  import opened Ledger

  /** Transactions of one direction in `[from, to)`; without `from`, since the beginning. */
  function SumIn(txns: seq<Txn>, kind: Direction, from: Option<int>, to: int): int {
    if txns == [] then 0
    else
      var last := txns[|txns| - 1];
      SumIn(txns[..|txns| - 1], kind, from, to)
      + if last.kind == kind && (from.Some? ==> from.value <= last.occurredAt) && last.occurredAt < to
        then last.amount else 0
  }

  function CountIn(txns: seq<Txn>, from: int, to: int): nat {
    if txns == [] then 0
    else
      CountIn(txns[..|txns| - 1], from, to) + if from <= txns[|txns| - 1].occurredAt < to then 1 else 0
  }

  function NetIn(txns: seq<Txn>, from: Option<int>, to: int): int {
    SumIn(txns, Income, from, to) - SumIn(txns, Expense, from, to)
  }

  /** Posted income minus posted expense over all time. */
  function NetBalance(txns: seq<Txn>): int {
    if txns == [] then 0 else NetBalance(txns[..|txns| - 1]) + Signed(txns[|txns| - 1])
  }

  /** The latest month before `month` with a manual opening. */
  function LatestManualBefore(openings: map<nat, int>, month: nat): (p: Option<nat>)
    ensures p.Some? ==> p.value in openings && p.value < month
    ensures p.Some? ==> forall q :: p.value < q < month ==> q !in openings
    ensures p.None? ==> forall q :: 0 <= q < month ==> q !in openings
  {
    if month == 0 then None
    else if month - 1 in openings then Some(month - 1)
    else LatestManualBefore(openings, month - 1)
  }

  datatype Summary = Summary(opening: int, income: int, expense: int, net: int, closing: int, count: nat)

  function OpeningOf(b: Books, month: nat): int {
    if month in b.openings then b.openings[month]
    else
      match LatestManualBefore(b.openings, month)
      case Some(p) => b.openings[p] + NetIn(b.txns, Some(MonthStart(p)), MonthStart(month))
      case None => NetIn(b.txns, None, MonthStart(month))
  }

  /** `CalculatePeriodBalance` for the month `month` with movements up to `end`. */
  function CalculatePeriodBalance(b: Books, month: nat, end: int): Summary {
    var opening := OpeningOf(b, month);
    var income := SumIn(b.txns, Income, Some(MonthStart(month)), end);
    var expense := SumIn(b.txns, Expense, Some(MonthStart(month)), end);
    Summary(opening, income, expense, income - expense, opening + (income - expense),
            CountIn(b.txns, MonthStart(month), end))
  }

  // ----- The roll-forward -----

  /** A month opens with its manual correction, or else with what the month before closed with. */
  function RollOpening(b: Books, month: nat): int {
    if month in b.openings then b.openings[month]
    else if month == 0 then NetIn(b.txns, None, MonthStart(0))
    else RollOpening(b, month - 1) + NetIn(b.txns, Some(MonthStart(month - 1)), MonthStart(month))
  }

  function RollClosing(b: Books, month: nat): int {
    RollOpening(b, month) + NetIn(b.txns, Some(MonthStart(month)), MonthStart(month + 1))
  }

  lemma {:induction false} NetSplits(txns: seq<Txn>, from: Option<int>, mid: int, to: int)
    requires mid <= to && (from.Some? ==> from.value <= mid)
    ensures NetIn(txns, from, mid) + NetIn(txns, Some(mid), to) == NetIn(txns, from, to)
  {
    if txns != [] {
      NetSplits(txns[..|txns| - 1], from, mid, to);
    }
  }

  lemma {:induction false} EmptySpan(txns: seq<Txn>, at: int)
    ensures NetIn(txns, Some(at), at) == 0
  {
    if txns != [] {
      EmptySpan(txns[..|txns| - 1], at);
    }
  }

  /** The anchored opening of a month without a manual one is the month before it, rolled forward. */
  lemma AnchorRolls(b: Books, month: nat)
    requires month !in b.openings && month > 0
    ensures OpeningOf(b, month) == OpeningOf(b, month - 1) + NetIn(b.txns, Some(MonthStart(month - 1)), MonthStart(month))
  {
    MonthStartIncreases(month - 1, month);
    match LatestManualBefore(b.openings, month) {
      case Some(p) =>
        if p < month - 1 {
          MonthStartIncreases(p, month - 1);
          NetSplits(b.txns, Some(MonthStart(p)), MonthStart(month - 1), MonthStart(month));
        }
      case None =>
        NetSplits(b.txns, None, MonthStart(month - 1), MonthStart(month));
    }
  }

  /** The anchored shortcut and the month-by-month recursion open every month with the same balance. */
  lemma {:induction false} OpeningIsRollForward(b: Books, month: nat)
    ensures OpeningOf(b, month) == RollOpening(b, month)
  {
    if month !in b.openings && month > 0 {
      OpeningIsRollForward(b, month - 1);
      AnchorRolls(b, month);
    }
  }

  /** For every month, `CalculatePeriodBalance` is the roll-forward, opening and closing. */
  lemma PeriodRefinesRollForward(b: Books, month: nat)
    ensures var s := CalculatePeriodBalance(b, month, MonthStart(month + 1));
      && s.opening == RollOpening(b, month)
      && s.closing == RollClosing(b, month)
      && (month + 1 !in b.openings ==> RollOpening(b, month + 1) == s.closing)
  {
    OpeningIsRollForward(b, month);
  }

  lemma {:induction false} NetOfAll(txns: seq<Txn>, end: int)
    requires forall i :: 0 <= i < |txns| ==> txns[i].occurredAt < end
    ensures NetIn(txns, None, end) == NetBalance(txns)
  {
    if txns != [] {
      NetOfAll(txns[..|txns| - 1], end);
    }
  }

  /** With no manual openings and an end past the last transaction, closing is the overall balance. */
  lemma ClosingIsNetBalance(b: Books, month: nat, end: int)
    requires b.openings == map[] && MonthStart(month) <= end
    requires forall i :: 0 <= i < |b.txns| ==> b.txns[i].occurredAt < end
    ensures CalculatePeriodBalance(b, month, end).closing == NetBalance(b.txns)
  {
    NetSplits(b.txns, None, MonthStart(month), end);
    NetOfAll(b.txns, end);
  }

  // ----- What a month reports -----

  /** A month without transactions has no income, no expense and no count, and opens with the latest manual amount. */
  lemma EmptyMonthIsZero(b: Books, month: nat, end: int)
    requires b.txns == []
    ensures var s := CalculatePeriodBalance(b, month, end);
      && s.income == s.expense == s.net == 0 && s.count == 0
      && s.opening == s.closing == if month in b.openings then b.openings[month]
         else if LatestManualBefore(b.openings, month).None? then 0
         else b.openings[LatestManualBefore(b.openings, month).value]
  {
  }

  lemma AppendSum(txns: seq<Txn>, t: Txn, kind: Direction, from: Option<int>, to: int)
    ensures SumIn(txns + [t], kind, from, to) == SumIn(txns, kind, from, to)
      + if t.kind == kind && (from.Some? ==> from.value <= t.occurredAt) && t.occurredAt < to then t.amount else 0
    ensures from.Some? ==>
      CountIn(txns + [t], from.value, to)
      == CountIn(txns, from.value, to) + if from.value <= t.occurredAt < to then 1 else 0
  {
    assert (txns + [t])[..|txns|] == txns;
  }

  /** The transaction is carried into the month's opening: it lies before the month, which opens by no manual amount of
      its own, and not before the latest month that does. */
  ghost predicate CarriedInto(b: Books, t: Txn, month: nat) {
    && t.occurredAt < MonthStart(month) && month !in b.openings
    && forall p :: 0 <= p < month && p in b.openings ==> MonthStart(p) <= t.occurredAt
  }

  lemma CarriedFromAnchor(b: Books, t: Txn, month: nat)
    requires month !in b.openings && t.occurredAt < MonthStart(month)
    ensures CarriedInto(b, t, month) <==>
      var p := LatestManualBefore(b.openings, month); (p.Some? ==> MonthStart(p.value) <= t.occurredAt)
  {
    var p := LatestManualBefore(b.openings, month);
    forall q | 0 <= q < month && q in b.openings
      ensures p.Some? && MonthStart(q) <= MonthStart(p.value)
    {
      MonthStartIncreases(q, p.value);
    }
  }

  lemma PostingMovesOpening(b: Books, t: Txn, month: nat, a: Books)
    requires a == b.(txns := b.txns + [t])
    ensures OpeningOf(a, month) == OpeningOf(b, month) + if CarriedInto(b, t, month) then Signed(t) else 0
  {
    if month !in b.openings {
      var p := LatestManualBefore(b.openings, month);
      var from := if p.Some? then Some(MonthStart(p.value)) else None;
      AppendSum(b.txns, t, Income, from, MonthStart(month));
      AppendSum(b.txns, t, Expense, from, MonthStart(month));
      if t.occurredAt < MonthStart(month) {
        CarriedFromAnchor(b, t, month);
      }
    }
  }

  /** One more transaction of the span raises the total of its own direction by its amount and the count by one; one
      from elsewhere changes none of the three. An earlier one moves the opening, unless a manual amount lies
      between. */
  lemma PostingMovesSummary(b: Books, t: Txn, month: nat, end: int)
    ensures var a := b.(txns := b.txns + [t]);
      var was, now := CalculatePeriodBalance(b, month, end), CalculatePeriodBalance(a, month, end);
      var inside := MonthStart(month) <= t.occurredAt < end;
      && now.income == was.income + (if inside && t.kind.Income? then t.amount else 0)
      && now.expense == was.expense + (if inside && t.kind.Expense? then t.amount else 0)
      && now.count == was.count + (if inside then 1 else 0)
      && now.opening == was.opening + (if CarriedInto(b, t, month) then Signed(t) else 0)
      && now.net == now.income - now.expense && now.closing == now.opening + now.net
  {
    AppendSum(b.txns, t, Income, Some(MonthStart(month)), end);
    AppendSum(b.txns, t, Expense, Some(MonthStart(month)), end);
    PostingMovesOpening(b, t, month, b.(txns := b.txns + [t]));
  }

  // ----- Manual corrections -----

  datatype Correction = Correction(before: int, after: int)

  datatype CorrectionError = NegativeOpening

  /** `SetPeriodOpeningBalance`: the month's row becomes manual. */
  function SetPeriodOpening(b: Books, month: nat, amount: int): Result<(Books, Correction), CorrectionError> {
    if amount < 0 then Err(NegativeOpening)
    else
      var before := CalculatePeriodBalance(b, month, MonthStart(month + 1)).opening;
      Ok((b.(openings := b.openings[month := amount]), Correction(before, amount)))
  }

  /** No manual month in `(after, upTo]`. */
  ghost predicate NoManualIn(openings: map<nat, int>, after: nat, upTo: nat) {
    forall q :: after < q <= upTo ==> q !in openings
  }

  lemma {:induction false} RollCorrected(b: Books, after: Books, p: nat, amount: int, m: nat)
    requires after == b.(openings := b.openings[p := amount])
    ensures RollOpening(after, m) - RollOpening(b, m)
      == if p <= m && NoManualIn(b.openings, p, m) then amount - RollOpening(b, p) else 0
  {
    if m > 0 {
      RollCorrected(b, after, p, amount, m - 1);
      if m > p {
        assert NoManualIn(b.openings, p, m) <==> NoManualIn(b.openings, p, m - 1) && m !in b.openings;
      }
    }
  }

  /** A correction moves the openings from its month up to the next manual month by one common amount,
      and no other opening at all. */
  lemma CorrectionIsLocal(b: Books, p: nat, amount: int, m: nat)
    ensures SetPeriodOpening(b, p, amount).Ok? <==> amount >= 0
    ensures amount >= 0 ==>
      var (after, c) := SetPeriodOpening(b, p, amount).value;
      && after == b.(openings := after.openings)
      && c.before == RollOpening(b, p) && c.after == amount == RollOpening(after, p)
      && RollOpening(after, m) - RollOpening(b, m)
         == if p <= m && NoManualIn(b.openings, p, m) then amount - RollOpening(b, p) else 0
  {
    if amount >= 0 {
      OpeningIsRollForward(b, p);
      RollCorrected(b, SetPeriodOpening(b, p, amount).value.0, p, amount, m);
    }
  }

  /** The same locality for what `CalculatePeriodBalance` reports: openings and closings shift together. */
  lemma ReportedShift(b: Books, p: nat, amount: int, m: nat)
    requires amount >= 0
    ensures var after := SetPeriodOpening(b, p, amount).value.0;
      var was, now := CalculatePeriodBalance(b, m, MonthStart(m + 1)), CalculatePeriodBalance(after, m, MonthStart(m + 1));
      var shift := if p <= m && NoManualIn(b.openings, p, m) then amount - OpeningOf(b, p) else 0;
      && now.opening == was.opening + shift && now.closing == was.closing + shift
      && now.net == was.net && now.count == was.count
  {
    var after := SetPeriodOpening(b, p, amount).value.0;
    CorrectionIsLocal(b, p, amount, m);
    OpeningIsRollForward(b, p);
    OpeningIsRollForward(b, m);
    OpeningIsRollForward(after, m);
  }
}
