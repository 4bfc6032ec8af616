/** Bill synchronisation: every open occupancy receives the bills of every active due, once. */
module BillSync {
  import opened Results
  import opened Calendar
  import opened Billing
  import opened Payments

  /** A household's stay in a house; dates are day numbers. */
  datatype Stay = Stay(start: Option<nat>, end: Option<nat>, householdActive: bool)

  /** A period with the date its bills fall due. */
  datatype Slot = Slot(period: nat, dueDate: nat)

  // ----- What the code computes -----

  /** The sync's rule: a bill is obligatory unless its month lies before the move-in month or after the move-out
      month. */
  predicate Obligatory(o: Stay, period: nat) {
    && !(o.start.Some? && period < MonthOf(o.start.value))
    && !(o.end.Some? && MonthOf(o.end.value) < period)
  }

  /** The `CASE` that `HouseholdUpdate` recomputes the flags with. */
  function CaseFlag(o: Stay, period: nat): bool {
    if o.start.Some? && period < MonthOf(o.start.value) then false
    else if o.end.Some? && period > MonthOf(o.end.value) then false
    else true
  }

  /** The flag `BillCreate` issues a bill with: the same `CASE` over the occupancy's row, and true without such a
      row. */
  function IssuedFlag(stays: seq<Stay>, o: nat, period: nat): bool {
    var row := if o < |stays| then Some(CaseFlag(stays[o], period)) else None;
    if row.Some? then row.value else true
  }

  /** The stay has begun by the end of the month, and has not ended before it. */
  predicate LivesIn(o: Stay, period: nat) {
    && (o.start.Some? ==> o.start.value < FirstDay(period + 1))
    && (o.end.Some? ==> FirstDay(period) <= o.end.value)
  }

  lemma MonthBefore(period: nat, date: nat)
    ensures period < MonthOf(date) <==> FirstDay(period + 1) <= date
    ensures MonthOf(date) < period <==> date < FirstDay(period)
  {
    var m := MonthOf(date);
    if period + 1 < m {
      FirstDayIncreases(period + 1, m);
    }
    if m + 1 < period {
      FirstDayIncreases(m + 1, period);
    }
    if m < period + 1 {
      FirstDayIncreases(m, period + 1);
    }
    if m + 1 < period + 1 {
      FirstDayIncreases(m + 1, period + 1);
    }
    if period < m {
      FirstDayIncreases(period, m);
    }
  }

  /** The three formulas are one rule, and it says whether the household lives in the house that month; a bill issued
      for no occupancy is obligatory. */
  lemma OneRule(stays: seq<Stay>, o: nat, period: nat)
    ensures IssuedFlag(stays, o, period) <==> (o < |stays| ==> LivesIn(stays[o], period))
    ensures o < |stays| ==> CaseFlag(stays[o], period) == Obligatory(stays[o], period) == LivesIn(stays[o], period)
  {
    if o < |stays| {
      if stays[o].start.Some? {
        MonthBefore(period, stays[o].start.value);
      }
      if stays[o].end.Some? {
        MonthBefore(period, stays[o].end.value);
      }
    }
  }

  predicate IsOpen(o: Stay) {
    o.householdActive && o.end.None?
  }

  /** The calendar year as the months from January to December. */
  function YearSlots(year: nat): seq<Slot> {
    seq(12, m requires 0 <= m < 12 => Slot(12 * year + m, FirstDay(12 * year + m) + 9))
  }

  predicate Overlaps(o: Stay, year: nat) {
    && !(o.start.Some? && FirstDay(12 * (year + 1)) <= o.start.value)
    && !(o.end.Some? && o.end.value < FirstDay(12 * year))
  }

  /** `SELECT DISTINCT period, due_date` over the bills of a due. */
  function Issued(bills: seq<Bill>, d: nat): seq<Slot> {
    if bills == [] then []
    else
      var last := bills[|bills| - 1];
      var earlier := Issued(bills[..|bills| - 1], d);
      if last.due == d && Slot(last.period, last.dueDate) !in earlier
      then earlier + [Slot(last.period, last.dueDate)] else earlier
  }

  /** The slots a stay should have bills for. */
  function Wanted(bills: seq<Bill>, o: Stay, due: Due, d: nat): seq<Slot> {
    if !due.isActive || due.isVoluntary || due.dueType.Voluntary? then []
    else if due.dueType.MultiMonth? then
      if due.year.None? || due.year.value == 0 || !Overlaps(o, due.year.value) then [] else YearSlots(due.year.value)
    else Issued(bills, d)
  }

  /** The row with the key, if there is one. */
  function Find(bills: seq<Bill>, occupancy: nat, due: nat, period: nat): (i: Option<nat>)
    ensures i.Some? ==> i.value < |bills| && SameKey(bills[i.value], occupancy, due, period)
    ensures i.None? <==> !HasKey(bills, occupancy, due, period)
  {
    if bills == [] then None
    else
      var n := |bills| - 1;
      var earlier := Find(bills[..n], occupancy, due, period);
      if earlier.Some? then earlier
      else if SameKey(bills[n], occupancy, due, period) then Some(n)
      else
        assert forall b :: 0 <= b < n ==> bills[b] == bills[..n][b];
        None
  }

  /** Insert an unpaid bill, or on conflict set the flag of the existing one while it is unpaid. */
  function Upsert(bills: seq<Bill>, stays: seq<Stay>, o: nat, d: nat, amount: int, slot: Slot): seq<Bill>
    requires o < |stays|
  {
    var obligatory := Obligatory(stays[o], slot.period);
    var i := Find(bills, o, d, slot.period);
    if i.None? then bills + [Bill(o, d, amount, slot.period, slot.dueDate, Unpaid, true, obligatory)]
    else if bills[i.value].status == Unpaid then bills[i.value := bills[i.value].(isObligatory := obligatory)]
    else bills
  }

  /** The first `n` slots. */
  function UpsertAll(bills: seq<Bill>, stays: seq<Stay>, o: nat, d: nat, amount: int, slots: seq<Slot>,
                     n: nat): seq<Bill>
    requires o < |stays| && n <= |slots|
  {
    if n == 0 then bills
    else Upsert(UpsertAll(bills, stays, o, d, amount, slots, n - 1), stays, o, d, amount, slots[n - 1])
  }

  function SyncDue(bills: seq<Bill>, stays: seq<Stay>, dues: seq<Due>, o: nat, d: nat): seq<Bill>
    requires o < |stays| && d < |dues|
  {
    var slots := Wanted(bills, stays[o], dues[d], d);
    UpsertAll(bills, stays, o, d, dues[d].amount, slots, |slots|)
  }

  /** The first `n` dues. */
  function SyncDues(bills: seq<Bill>, stays: seq<Stay>, dues: seq<Due>, o: nat, n: nat): seq<Bill>
    requires o < |stays| && n <= |dues|
  {
    if n == 0 then bills else SyncDue(SyncDues(bills, stays, dues, o, n - 1), stays, dues, o, n - 1)
  }

  function SyncStay(bills: seq<Bill>, stays: seq<Stay>, dues: seq<Due>, o: nat): seq<Bill>
    requires o < |stays|
  {
    if IsOpen(stays[o]) then SyncDues(bills, stays, dues, o, |dues|) else bills
  }

  /** The first `n` occupancies of the RT. */
  function SyncAll(bills: seq<Bill>, stays: seq<Stay>, dues: seq<Due>, n: nat): seq<Bill>
    requires n <= |stays|
  {
    if n == 0 then bills else SyncStay(SyncAll(bills, stays, dues, n - 1), stays, dues, n - 1)
  }

  // ----- What no upsert undoes -----

  predicate Known(bills: seq<Bill>, stays: seq<Stay>) {
    forall i :: 0 <= i < |bills| ==> bills[i].occupancy < |stays|
  }

  predicate Agrees(bill: Bill, stays: seq<Stay>)
    requires bill.occupancy < |stays|
  {
    bill.status == Unpaid ==> bill.isObligatory == Obligatory(stays[bill.occupancy], bill.period)
  }

  function Corrected(bill: Bill, stays: seq<Stay>): Bill
    requires bill.occupancy < |stays|
  {
    bill.(isObligatory := Obligatory(stays[bill.occupancy], bill.period))
  }

  /** `b` has the bills of `a`, with only the flags of unpaid ones possibly set right, and then new
      unpaid bills with the right flag. */
  ghost predicate Extends(a: seq<Bill>, b: seq<Bill>, stays: seq<Stay>) {
    && |a| <= |b| && Known(a, stays) && Known(b, stays)
    && (forall i :: 0 <= i < |a| ==> b[i] == a[i] || (a[i].status == Unpaid && b[i] == Corrected(a[i], stays)))
    && (forall i :: |a| <= i < |b| ==> b[i].status == Unpaid && Agrees(b[i], stays))
  }

  /** The key has a bill whose flag is right. */
  predicate Present(bills: seq<Bill>, stays: seq<Stay>, o: nat, d: nat, period: nat) {
    exists i :: 0 <= i < |bills| && SameKey(bills[i], o, d, period) && o < |stays| && Agrees(bills[i], stays)
  }

  lemma ExtendsTrans(a: seq<Bill>, b: seq<Bill>, c: seq<Bill>, stays: seq<Stay>)
    requires Extends(a, b, stays) && Extends(b, c, stays)
    ensures Extends(a, c, stays)
  {
  }

  lemma PresentStays(a: seq<Bill>, b: seq<Bill>, stays: seq<Stay>, o: nat, d: nat, period: nat)
    requires Extends(a, b, stays) && Present(a, stays, o, d, period)
    ensures Present(b, stays, o, d, period)
  {
    var i :| 0 <= i < |a| && SameKey(a[i], o, d, period) && o < |stays| && Agrees(a[i], stays);
    assert SameKey(b[i], o, d, period);
  }

  /** The same slots are issued for the due. */
  ghost predicate SameIssued(a: seq<Bill>, b: seq<Bill>, d: nat) {
    forall s: Slot :: s in Issued(a, d) <==> s in Issued(b, d)
  }

  predicate IsIssued(bills: seq<Bill>, d: nat, s: Slot) {
    exists i :: 0 <= i < |bills| && bills[i].due == d && bills[i].period == s.period && bills[i].dueDate == s.dueDate
  }

  lemma {:induction false} IssuedMembers(bills: seq<Bill>, d: nat, s: Slot)
    ensures s in Issued(bills, d) <==> IsIssued(bills, d, s)
  {
    if bills != [] {
      var n := |bills| - 1;
      IssuedMembers(bills[..n], d, s);
      assert forall i :: 0 <= i < n ==> bills[i] == bills[..n][i];
      if IsIssued(bills, d, s) && !IsIssued(bills[..n], d, s) {
        assert bills[n].due == d && Slot(bills[n].period, bills[n].dueDate) == s;
      }
    }
  }

  // ----- One upsert -----

  lemma UpsertExtends(bills: seq<Bill>, stays: seq<Stay>, o: nat, d: nat, amount: int, slot: Slot)
    requires UniqueKeys(bills) && Known(bills, stays) && o < |stays|
    ensures var t := Upsert(bills, stays, o, d, amount, slot);
      UniqueKeys(t) && Extends(bills, t, stays) && Present(t, stays, o, d, slot.period)
  {
    var t := Upsert(bills, stays, o, d, amount, slot);
    var i := Find(bills, o, d, slot.period);
    var k := if i.Some? then i.value else |bills|;
    assert SameKey(t[k], o, d, slot.period) && Agrees(t[k], stays);
    if i.None? {
      forall x, y | 0 <= x < y < |t|
        ensures !SameKey(t[x], t[y].occupancy, t[y].due, t[y].period)
      {
        assert y == |bills| ==> !SameKey(bills[x], o, d, slot.period);
      }
    }
  }

  /** A bill that is there with the right flag is left alone. */
  lemma UpsertPresent(bills: seq<Bill>, stays: seq<Stay>, o: nat, d: nat, amount: int, slot: Slot)
    requires UniqueKeys(bills) && o < |stays| && Present(bills, stays, o, d, slot.period)
    ensures Upsert(bills, stays, o, d, amount, slot) == bills
  {
    var i :| 0 <= i < |bills| && SameKey(bills[i], o, d, slot.period) && Agrees(bills[i], stays);
    var k := Find(bills, o, d, slot.period);
    assert k.value == i;
  }

  lemma UpsertIssued(bills: seq<Bill>, stays: seq<Stay>, o: nat, d: nat, amount: int, slot: Slot, e: nat)
    requires o < |stays| && (d == e ==> slot in Issued(bills, d))
    ensures SameIssued(bills, Upsert(bills, stays, o, d, amount, slot), e)
  {
    var t := Upsert(bills, stays, o, d, amount, slot);
    forall s: Slot
      ensures s in Issued(bills, e) <==> s in Issued(t, e)
    {
      IssuedMembers(bills, e, s);
      IssuedMembers(t, e, s);
      IssuedMembers(bills, d, slot);
      if IsIssued(bills, e, s) {
        var i :| 0 <= i < |bills| && bills[i].due == e && bills[i].period == s.period && bills[i].dueDate == s.dueDate;
        assert t[i].due == e && t[i].period == s.period && t[i].dueDate == s.dueDate;
      }
    }
  }

  // ----- A whole pass -----

  /** What holds between the bills before and after any part of a pass. */
  ghost predicate Synced(a: seq<Bill>, b: seq<Bill>, stays: seq<Stay>, dues: seq<Due>) {
    && UniqueKeys(b) && Extends(a, b, stays)
    && forall e :: 0 <= e < |dues| && dues[e].dueType.Regular? ==> SameIssued(a, b, e)
  }

  lemma SyncedTrans(a: seq<Bill>, b: seq<Bill>, c: seq<Bill>, stays: seq<Stay>, dues: seq<Due>)
    requires Synced(a, b, stays, dues) && Synced(b, c, stays, dues)
    ensures Synced(a, c, stays, dues)
  {
    ExtendsTrans(a, b, c, stays);
  }

  /** Every slot the stay wants of the due has its bill. */
  ghost predicate Complete(bills: seq<Bill>, stays: seq<Stay>, dues: seq<Due>, o: nat, d: nat)
    requires o < |stays| && d < |dues|
  {
    forall s :: s in Wanted(bills, stays[o], dues[d], d) ==> Present(bills, stays, o, d, s.period)
  }

  /** The rest of the pass wants nothing more of a due already served. */
  lemma CompleteStays(a: seq<Bill>, b: seq<Bill>, stays: seq<Stay>, dues: seq<Due>, o: nat, d: nat)
    requires o < |stays| && d < |dues| && Synced(a, b, stays, dues) && Complete(a, stays, dues, o, d)
    ensures Complete(b, stays, dues, o, d)
  {
    forall s | s in Wanted(b, stays[o], dues[d], d)
      ensures Present(b, stays, o, d, s.period)
    {
      assert s in Wanted(a, stays[o], dues[d], d);
      PresentStays(a, b, stays, o, d, s.period);
    }
  }

  lemma UpsertSyncs(bills: seq<Bill>, stays: seq<Stay>, dues: seq<Due>, o: nat, d: nat, slot: Slot)
    requires UniqueKeys(bills) && Known(bills, stays) && o < |stays| && d < |dues|
    requires dues[d].dueType.Regular? ==> slot in Issued(bills, d)
    ensures Synced(bills, Upsert(bills, stays, o, d, dues[d].amount, slot), stays, dues)
    ensures Present(Upsert(bills, stays, o, d, dues[d].amount, slot), stays, o, d, slot.period)
  {
    UpsertExtends(bills, stays, o, d, dues[d].amount, slot);
    forall e | 0 <= e < |dues| && dues[e].dueType.Regular?
      ensures SameIssued(bills, Upsert(bills, stays, o, d, dues[d].amount, slot), e)
    {
      UpsertIssued(bills, stays, o, d, dues[d].amount, slot, e);
    }
  }

  ghost predicate AllPresent(bills: seq<Bill>, stays: seq<Stay>, o: nat, d: nat, slots: seq<Slot>, n: nat)
    requires n <= |slots|
  {
    forall k :: 0 <= k < n ==> Present(bills, stays, o, d, slots[k].period)
  }

  lemma AllPresentStays(a: seq<Bill>, b: seq<Bill>, stays: seq<Stay>, o: nat, d: nat, slots: seq<Slot>, n: nat)
    requires Extends(a, b, stays) && n <= |slots| && AllPresent(a, stays, o, d, slots, n)
    ensures AllPresent(b, stays, o, d, slots, n)
  {
    forall k | 0 <= k < n
      ensures Present(b, stays, o, d, slots[k].period)
    {
      PresentStays(a, b, stays, o, d, slots[k].period);
    }
  }

  /** What holds once the first `n` slots of a due were upserted. */
  ghost predicate SlotsDone(bills: seq<Bill>, t: seq<Bill>, stays: seq<Stay>, dues: seq<Due>, o: nat, d: nat,
                            slots: seq<Slot>, n: nat)
    requires n <= |slots|
  {
    Synced(bills, t, stays, dues) && AllPresent(t, stays, o, d, slots, n)
  }

  lemma NextUpsertSyncs(bills: seq<Bill>, before: seq<Bill>, t: seq<Bill>, stays: seq<Stay>, dues: seq<Due>,
                        o: nat, d: nat, slots: seq<Slot>, n: nat)
    requires o < |stays| && d < |dues| && n < |slots|
    requires dues[d].dueType.Regular? ==> forall s :: s in slots ==> s in Issued(bills, d)
    requires SlotsDone(bills, before, stays, dues, o, d, slots, n)
    requires t == Upsert(before, stays, o, d, dues[d].amount, slots[n])
    ensures SlotsDone(bills, t, stays, dues, o, d, slots, n + 1)
  {
    assert slots[n] in slots;
    UpsertSyncs(before, stays, dues, o, d, slots[n]);
    AllPresentStays(before, t, stays, o, d, slots, n);
    SyncedTrans(bills, before, t, stays, dues);
  }

  lemma {:induction false} UpsertAllSyncs(bills: seq<Bill>, t: seq<Bill>, stays: seq<Stay>, dues: seq<Due>,
                                          o: nat, d: nat, slots: seq<Slot>, n: nat)
    requires UniqueKeys(bills) && Known(bills, stays) && o < |stays| && d < |dues| && n <= |slots|
    requires dues[d].dueType.Regular? ==> forall s :: s in slots ==> s in Issued(bills, d)
    requires t == UpsertAll(bills, stays, o, d, dues[d].amount, slots, n)
    ensures SlotsDone(bills, t, stays, dues, o, d, slots, n)
    decreases n
  {
    if n > 0 {
      var before := UpsertAll(bills, stays, o, d, dues[d].amount, slots, n - 1);
      UpsertAllSyncs(bills, before, stays, dues, o, d, slots, n - 1);
      NextUpsertSyncs(bills, before, t, stays, dues, o, d, slots, n - 1);
    }
  }

  lemma SyncDueSyncs(bills: seq<Bill>, stays: seq<Stay>, dues: seq<Due>, o: nat, d: nat)
    requires UniqueKeys(bills) && Known(bills, stays) && o < |stays| && d < |dues|
    ensures Synced(bills, SyncDue(bills, stays, dues, o, d), stays, dues)
    ensures Complete(SyncDue(bills, stays, dues, o, d), stays, dues, o, d)
  {
    var slots := Wanted(bills, stays[o], dues[d], d);
    var t := SyncDue(bills, stays, dues, o, d);
    UpsertAllSyncs(bills, t, stays, dues, o, d, slots, |slots|);
    forall s | s in Wanted(t, stays[o], dues[d], d)
      ensures Present(t, stays, o, d, s.period)
    {
      assert s in slots;
      var k :| 0 <= k < |slots| && slots[k] == s;
      assert Present(t, stays, o, d, slots[k].period);
    }
  }

  /** What holds once the first `n` dues of a stay were served. */
  ghost predicate DuesDone(bills: seq<Bill>, t: seq<Bill>, stays: seq<Stay>, dues: seq<Due>, o: nat, n: nat)
    requires o < |stays| && n <= |dues|
  {
    Synced(bills, t, stays, dues) && forall d :: 0 <= d < n ==> Complete(t, stays, dues, o, d)
  }

  lemma NextDueSyncs(bills: seq<Bill>, before: seq<Bill>, t: seq<Bill>, stays: seq<Stay>, dues: seq<Due>, o: nat,
                     n: nat)
    requires o < |stays| && n < |dues| && DuesDone(bills, before, stays, dues, o, n)
    requires t == SyncDue(before, stays, dues, o, n)
    ensures DuesDone(bills, t, stays, dues, o, n + 1)
  {
    SyncDueSyncs(before, stays, dues, o, n);
    SyncedTrans(bills, before, t, stays, dues);
    forall d | 0 <= d < n
      ensures Complete(t, stays, dues, o, d)
    {
      CompleteStays(before, t, stays, dues, o, d);
    }
  }

  lemma {:induction false} SyncDuesSyncs(bills: seq<Bill>, t: seq<Bill>, stays: seq<Stay>, dues: seq<Due>, o: nat,
                                         n: nat)
    requires UniqueKeys(bills) && Known(bills, stays) && o < |stays| && n <= |dues|
    requires t == SyncDues(bills, stays, dues, o, n)
    ensures DuesDone(bills, t, stays, dues, o, n)
    decreases n
  {
    if n > 0 {
      var before := SyncDues(bills, stays, dues, o, n - 1);
      SyncDuesSyncs(bills, before, stays, dues, o, n - 1);
      NextDueSyncs(bills, before, t, stays, dues, o, n - 1);
    }
  }

  ghost predicate StayComplete(bills: seq<Bill>, stays: seq<Stay>, dues: seq<Due>, o: nat)
    requires o < |stays|
  {
    IsOpen(stays[o]) ==> forall d :: 0 <= d < |dues| ==> Complete(bills, stays, dues, o, d)
  }

  lemma SyncStaySyncs(bills: seq<Bill>, stays: seq<Stay>, dues: seq<Due>, o: nat)
    requires UniqueKeys(bills) && Known(bills, stays) && o < |stays|
    ensures Synced(bills, SyncStay(bills, stays, dues, o), stays, dues)
    ensures StayComplete(SyncStay(bills, stays, dues, o), stays, dues, o)
  {
    SyncDuesSyncs(bills, SyncDues(bills, stays, dues, o, |dues|), stays, dues, o, |dues|);
  }

  lemma StayCompleteStays(a: seq<Bill>, b: seq<Bill>, stays: seq<Stay>, dues: seq<Due>, o: nat)
    requires o < |stays| && Synced(a, b, stays, dues) && StayComplete(a, stays, dues, o)
    ensures StayComplete(b, stays, dues, o)
  {
    forall d | IsOpen(stays[o]) && 0 <= d < |dues|
      ensures Complete(b, stays, dues, o, d)
    {
      CompleteStays(a, b, stays, dues, o, d);
    }
  }

  /** One pass serves every open occupancy completely. */
  lemma {:induction false} SyncAllSyncs(bills: seq<Bill>, stays: seq<Stay>, dues: seq<Due>, n: nat)
    requires UniqueKeys(bills) && Known(bills, stays) && n <= |stays|
    ensures Synced(bills, SyncAll(bills, stays, dues, n), stays, dues)
    ensures forall o :: 0 <= o < n ==> StayComplete(SyncAll(bills, stays, dues, n), stays, dues, o)
  {
    if n > 0 {
      SyncAllSyncs(bills, stays, dues, n - 1);
      var before := SyncAll(bills, stays, dues, n - 1);
      var t := SyncStay(before, stays, dues, n - 1);
      SyncStaySyncs(before, stays, dues, n - 1);
      forall o | 0 <= o < n - 1
        ensures StayComplete(t, stays, dues, o)
      {
        StayCompleteStays(before, t, stays, dues, o);
      }
      SyncedTrans(bills, before, t, stays, dues);
    }
  }

  // ----- The fixpoint -----

  lemma {:induction false} NothingToUpsert(bills: seq<Bill>, t: seq<Bill>, stays: seq<Stay>, o: nat, d: nat,
                                           amount: int,
                                           slots: seq<Slot>, n: nat)
    requires UniqueKeys(bills) && o < |stays| && n <= |slots|
    requires forall s :: s in slots ==> Present(bills, stays, o, d, s.period)
    requires t == UpsertAll(bills, stays, o, d, amount, slots, n)
    ensures t == bills
    decreases n
  {
    if n > 0 {
      NothingToUpsert(bills, UpsertAll(bills, stays, o, d, amount, slots, n - 1), stays, o, d, amount, slots, n - 1);
      assert slots[n - 1] in slots;
      UpsertPresent(bills, stays, o, d, amount, slots[n - 1]);
    }
  }

  lemma NothingForDue(bills: seq<Bill>, stays: seq<Stay>, dues: seq<Due>, o: nat, d: nat)
    requires UniqueKeys(bills) && o < |stays| && d < |dues| && Complete(bills, stays, dues, o, d)
    ensures SyncDue(bills, stays, dues, o, d) == bills
  {
    var slots := Wanted(bills, stays[o], dues[d], d);
    NothingToUpsert(bills, SyncDue(bills, stays, dues, o, d), stays, o, d, dues[d].amount, slots, |slots|);
  }

  lemma {:induction false} NothingForDues(bills: seq<Bill>, t: seq<Bill>, stays: seq<Stay>, dues: seq<Due>, o: nat,
                                          n: nat)
    requires UniqueKeys(bills) && o < |stays| && n <= |dues|
    requires forall d :: 0 <= d < |dues| ==> Complete(bills, stays, dues, o, d)
    requires t == SyncDues(bills, stays, dues, o, n)
    ensures t == bills
    decreases n
  {
    if n > 0 {
      NothingForDues(bills, SyncDues(bills, stays, dues, o, n - 1), stays, dues, o, n - 1);
      NothingForDue(bills, stays, dues, o, n - 1);
    }
  }

  lemma {:induction false} NothingForStays(bills: seq<Bill>, stays: seq<Stay>, dues: seq<Due>, n: nat)
    requires UniqueKeys(bills) && n <= |stays|
    requires forall o :: 0 <= o < |stays| ==> StayComplete(bills, stays, dues, o)
    ensures SyncAll(bills, stays, dues, n) == bills
  {
    if n > 0 {
      NothingForStays(bills, stays, dues, n - 1);
      assert StayComplete(bills, stays, dues, n - 1);
      if IsOpen(stays[n - 1]) {
        NothingForDues(bills, SyncDues(bills, stays, dues, n - 1, |dues|), stays, dues, n - 1, |dues|);
      }
    }
  }

  /** One pass reaches the fixpoint: a second pass changes no row at all. */
  lemma SyncIsIdempotent(bills: seq<Bill>, stays: seq<Stay>, dues: seq<Due>)
    requires UniqueKeys(bills) && Known(bills, stays)
    ensures var t := SyncAll(bills, stays, dues, |stays|);
      SyncAll(t, stays, dues, |stays|) == t
  {
    SyncAllSyncs(bills, stays, dues, |stays|);
    NothingForStays(SyncAll(bills, stays, dues, |stays|), stays, dues, |stays|);
  }

  // ----- What one pass achieves -----

  /** After a pass an open occupancy has all twelve bills of an overlapping active multi-month due, each with the right
      flag unless it has been paid for or cancelled. */
  lemma YearIsBilled(bills: seq<Bill>, stays: seq<Stay>, dues: seq<Due>, o: nat, d: nat, month: nat)
    requires UniqueKeys(bills) && Known(bills, stays) && o < |stays| && IsOpen(stays[o]) && d < |dues|
    requires dues[d].isActive && !dues[d].isVoluntary && dues[d].dueType.MultiMonth?
    requires dues[d].year.Some? && dues[d].year.value > 0 && Overlaps(stays[o], dues[d].year.value)
    requires month / 12 == dues[d].year.value
    ensures Present(SyncAll(bills, stays, dues, |stays|), stays, o, d, month)
  {
    var t := SyncAll(bills, stays, dues, |stays|);
    SyncAllSyncs(bills, stays, dues, |stays|);
    assert StayComplete(t, stays, dues, o) && Complete(t, stays, dues, o, d);
    var slots := YearSlots(dues[d].year.value);
    assert slots[month % 12] in slots && slots[month % 12].period == month;
  }

  /** After a pass an open occupancy has a bill, with the right flag while unpaid, for every period of every active
      regular due that any household was ever billed for. */
  lemma IssuedPeriodsAreBilled(bills: seq<Bill>, stays: seq<Stay>, dues: seq<Due>, o: nat, b: nat)
    requires UniqueKeys(bills) && Known(bills, stays) && o < |stays| && IsOpen(stays[o])
    requires b < |SyncAll(bills, stays, dues, |stays|)|
    requires var d := SyncAll(bills, stays, dues, |stays|)[b].due;
      d < |dues| && dues[d].isActive && !dues[d].isVoluntary && dues[d].dueType.Regular?
    ensures var t := SyncAll(bills, stays, dues, |stays|); Present(t, stays, o, t[b].due, t[b].period)
  {
    var t := SyncAll(bills, stays, dues, |stays|);
    SyncAllSyncs(bills, stays, dues, |stays|);
    assert StayComplete(t, stays, dues, o) && Complete(t, stays, dues, o, t[b].due);
    IssuedMembers(t, t[b].due, Slot(t[b].period, t[b].dueDate));
  }

  ghost predicate WantsPeriod(bills: seq<Bill>, o: Stay, due: Due, d: nat, period: nat) {
    exists s :: s in Wanted(bills, o, due, d) && s.period == period
  }

  /** A bill that the pass serves: of an open occupancy, for a slot wanted of its due. */
  ghost predicate Served(bills: seq<Bill>, stays: seq<Stay>, dues: seq<Due>, b: nat)
    requires b < |bills|
  {
    var bill := bills[b];
    && bill.occupancy < |stays| && IsOpen(stays[bill.occupancy]) && bill.due < |dues|
    && WantsPeriod(bills, stays[bill.occupancy], dues[bill.due], bill.due, bill.period)
  }

  /** Whatever the flags were before, after a pass every unpaid bill that the pass serves is obligatory exactly if the
      household lives in the house that month. */
  lemma ServedFlagsAreRight(bills: seq<Bill>, stays: seq<Stay>, dues: seq<Due>, b: nat)
    requires UniqueKeys(bills) && Known(bills, stays)
    requires b < |SyncAll(bills, stays, dues, |stays|)| && Served(SyncAll(bills, stays, dues, |stays|), stays, dues, b)
    requires SyncAll(bills, stays, dues, |stays|)[b].status == Unpaid
    ensures var bill := SyncAll(bills, stays, dues, |stays|)[b];
      bill.isObligatory == LivesIn(stays[bill.occupancy], bill.period)
  {
    var t := SyncAll(bills, stays, dues, |stays|);
    SyncAllSyncs(bills, stays, dues, |stays|);
    var o, d, period := t[b].occupancy, t[b].due, t[b].period;
    assert StayComplete(t, stays, dues, o) && Complete(t, stays, dues, o, d);
    var i :| 0 <= i < |t| && SameKey(t[i], o, d, period) && Agrees(t[i], stays);
    assert i == b;
    OneRule(stays, o, period);
  }

  /** A pass changes nothing of an existing bill but the flag of an unpaid one, and duplicates no key. */
  lemma SyncPreserves(bills: seq<Bill>, stays: seq<Stay>, dues: seq<Due>, b: nat)
    requires UniqueKeys(bills) && Known(bills, stays) && b < |bills|
    ensures var t := SyncAll(bills, stays, dues, |stays|);
      && UniqueKeys(t) && |bills| <= |t|
      && t[b] == bills[b].(isObligatory := t[b].isObligatory)
      && (bills[b].status != Unpaid ==> t[b] == bills[b])
  {
    SyncAllSyncs(bills, stays, dues, |stays|);
  }

  /** If the unpaid bills' flags follow the rule before a pass, they follow it afterwards, the new bills included. */
  lemma FlagsKeepAgreeing(bills: seq<Bill>, stays: seq<Stay>, dues: seq<Due>)
    requires UniqueKeys(bills) && Known(bills, stays)
    requires forall b :: 0 <= b < |bills| ==> Agrees(bills[b], stays)
    ensures var t := SyncAll(bills, stays, dues, |stays|);
      Known(t, stays) && forall b :: 0 <= b < |t| ==> Agrees(t[b], stays)
  {
    SyncAllSyncs(bills, stays, dues, |stays|);
  }

  // ----- What a pass leaves alone -----

  /** The slots wanted of a due are the same before and after any part of a pass. */
  lemma SameWanted(a: seq<Bill>, b: seq<Bill>, stays: seq<Stay>, dues: seq<Due>, o: nat, d: nat, s: Slot)
    requires o < |stays| && d < |dues| && Synced(a, b, stays, dues)
    ensures s in Wanted(a, stays[o], dues[d], d) <==> s in Wanted(b, stays[o], dues[d], d)
  {
  }

  lemma SameWantedPeriod(a: seq<Bill>, b: seq<Bill>, stays: seq<Stay>, dues: seq<Due>, o: nat, d: nat, period: nat)
    requires o < |stays| && d < |dues| && Synced(a, b, stays, dues) && WantsPeriod(b, stays[o], dues[d], d, period)
    ensures WantsPeriod(a, stays[o], dues[d], d, period)
  {
    var s :| s in Wanted(b, stays[o], dues[d], d) && s.period == period;
    SameWanted(a, b, stays, dues, o, d, s);
  }

  lemma {:induction false} UpsertAllLeaves(bills: seq<Bill>, t: seq<Bill>, stays: seq<Stay>, o: nat, d: nat,
                                           amount: int,
                                           slots: seq<Slot>, n: nat, i: nat)
    requires o < |stays| && n <= |slots| && t == UpsertAll(bills, stays, o, d, amount, slots, n) && i < |bills|
    requires forall k :: 0 <= k < n ==> !SameKey(bills[i], o, d, slots[k].period)
    ensures |t| >= |bills| && t[i] == bills[i]
    decreases n
  {
    if n > 0 {
      UpsertAllLeaves(bills, UpsertAll(bills, stays, o, d, amount, slots, n - 1), stays, o, d, amount, slots, n - 1, i);
    }
  }

  lemma SyncDueLeaves(bills: seq<Bill>, stays: seq<Stay>, dues: seq<Due>, o: nat, d: nat, i: nat)
    requires o < |stays| && d < |dues| && i < |bills|
    requires bills[i].occupancy == o && bills[i].due == d ==> !WantsPeriod(bills, stays[o], dues[d], d, bills[i].period)
    ensures var t := SyncDue(bills, stays, dues, o, d); |t| >= |bills| && t[i] == bills[i]
  {
    var slots := Wanted(bills, stays[o], dues[d], d);
    assert forall k :: 0 <= k < |slots| ==> slots[k] in slots;
    UpsertAllLeaves(bills, SyncDue(bills, stays, dues, o, d), stays, o, d, dues[d].amount, slots, |slots|, i);
  }

  lemma {:induction false} SyncDuesLeaves(bills: seq<Bill>, t: seq<Bill>, stays: seq<Stay>, dues: seq<Due>, o: nat,
                                          n: nat,
                                          i: nat)
    requires UniqueKeys(bills) && Known(bills, stays) && o < |stays| && n <= |dues| && i < |bills|
    requires t == SyncDues(bills, stays, dues, o, n)
    requires bills[i].occupancy == o && bills[i].due < n ==>
      !WantsPeriod(bills, stays[o], dues[bills[i].due], bills[i].due, bills[i].period)
    ensures |t| >= |bills| && t[i] == bills[i]
    decreases n
  {
    if n > 0 {
      var before := SyncDues(bills, stays, dues, o, n - 1);
      SyncDuesSyncs(bills, before, stays, dues, o, n - 1);
      SyncDuesLeaves(bills, before, stays, dues, o, n - 1, i);
      if WantsPeriod(before, stays[o], dues[n - 1], n - 1, bills[i].period) {
        SameWantedPeriod(bills, before, stays, dues, o, n - 1, bills[i].period);
      }
      SyncDueLeaves(before, stays, dues, o, n - 1, i);
    }
  }

  /** A bill that the pass does not serve is left as it was. */
  lemma {:induction false} SyncAllLeaves(bills: seq<Bill>, t: seq<Bill>, stays: seq<Stay>, dues: seq<Due>, n: nat,
                                         i: nat)
    requires UniqueKeys(bills) && Known(bills, stays) && n <= |stays| && i < |bills|
    requires t == SyncAll(bills, stays, dues, n) && !Served(bills, stays, dues, i)
    ensures |t| >= |bills| && t[i] == bills[i]
    decreases n
  {
    if n > 0 {
      var before := SyncAll(bills, stays, dues, n - 1);
      SyncAllSyncs(bills, stays, dues, n - 1);
      SyncAllLeaves(bills, before, stays, dues, n - 1, i);
      var d, period := bills[i].due, bills[i].period;
      if IsOpen(stays[n - 1]) {
        if bills[i].occupancy == n - 1 && d < |dues| && WantsPeriod(before, stays[n - 1], dues[d], d, period) {
          SameWantedPeriod(bills, before, stays, dues, n - 1, d, period);
        }
        SyncDuesLeaves(before, t, stays, dues, n - 1, |dues|, i);
      }
    }
  }

  /** After a pass the flag of an unpaid bill follows the rule exactly if it did before or the pass serves the bill. */
  lemma FlagRightExactly(bills: seq<Bill>, stays: seq<Stay>, dues: seq<Due>, b: nat)
    requires UniqueKeys(bills) && Known(bills, stays) && b < |bills| && bills[b].status == Unpaid
    ensures var t := SyncAll(bills, stays, dues, |stays|);
      b < |t| && t[b].occupancy < |stays|
      && (Agrees(t[b], stays) <==> Agrees(bills[b], stays) || Served(bills, stays, dues, b))
  {
    var t := SyncAll(bills, stays, dues, |stays|);
    SyncAllSyncs(bills, stays, dues, |stays|);
    var o, d, period := t[b].occupancy, t[b].due, t[b].period;
    if Served(bills, stays, dues, b) {
      var s :| s in Wanted(bills, stays[o], dues[d], d) && s.period == period;
      SameWanted(bills, t, stays, dues, o, d, s);
      ServedFlagsAreRight(bills, stays, dues, b);
      OneRule(stays, o, period);
    } else {
      SyncAllLeaves(bills, t, stays, dues, |stays|, b);
    }
  }

  /** What `HouseholdUpdate` does after it moved a stay's dates: the flags of its unpaid bills are computed again. */
  function Recalculated(bills: seq<Bill>, stays: seq<Stay>, o: nat): seq<Bill>
    requires o < |stays|
  {
    seq(|bills|, b requires 0 <= b < |bills| =>
      if bills[b].occupancy == o && bills[b].status == Unpaid
      then bills[b].(isObligatory := CaseFlag(stays[o], bills[b].period)) else bills[b])
  }

  /** Recalculating brings a stay with new dates back in line with the sync's rule, and is a no-op on flags that follow
      it, so on every table that a pass leaves from such flags. */
  lemma RecalculationAgrees(bills: seq<Bill>, stays: seq<Stay>, o: nat)
    requires Known(bills, stays) && o < |stays|
    requires forall b :: 0 <= b < |bills| && bills[b].occupancy != o ==> Agrees(bills[b], stays)
    ensures var t := Recalculated(bills, stays, o);
      && (forall b :: 0 <= b < |bills| ==> t[b].occupancy < |stays| && Agrees(t[b], stays))
      && (t == bills <==> forall b :: 0 <= b < |bills| ==> Agrees(bills[b], stays))
  {
    var t := Recalculated(bills, stays, o);
    forall b | 0 <= b < |bills|
      ensures Agrees(t[b], stays) && (t[b] == bills[b] <==> Agrees(bills[b], stays))
    {
      OneRule(stays, o, bills[b].period);
    }
    assert t == bills <==> forall b :: 0 <= b < |bills| ==> t[b] == bills[b];
  }

  // ----- The loops over dues, months and occupancies -----

  class BillTable {
    var bills: seq<Bill>

    constructor (bills: seq<Bill>)
      ensures this.bills == bills
    {
      this.bills := bills;
    }

    /** Whether the stay's dates make a bill of the period obligatory. */
    method ObligationFor(stay: Stay, period: nat) returns (isObligatory: bool)
      ensures isObligatory == Obligatory(stay, period)
    {
      isObligatory := true;
      if stay.start.Some? {
        var moveInMonth := MonthOf(stay.start.value);
        if period < moveInMonth {
          isObligatory := false;
        }
      }
      if stay.end.Some? {
        var moveOutMonth := MonthOf(stay.end.value);
        if period > moveOutMonth {
          isObligatory := false;
        }
      }
    }

    /** `INSERT ... ON CONFLICT DO UPDATE`: whether a row was inserted. */
    method UpsertBill(stays: seq<Stay>, o: nat, d: nat, amount: int, slot: Slot) returns (inserted: bool)
      requires o < |stays|
      modifies this
      ensures bills == Upsert(old(bills), stays, o, d, amount, slot)
      ensures |bills| == |old(bills)| + if inserted then 1 else 0
    {
      var isObligatory := ObligationFor(stays[o], slot.period);
      var i := Find(bills, o, d, slot.period);
      inserted := i.None?;
      if inserted {
        bills := bills + [Bill(o, d, amount, slot.period, slot.dueDate, Unpaid, true, isObligatory)];
      } else if bills[i.value].status == Unpaid {
        bills := bills[i.value := bills[i.value].(isObligatory := isObligatory)];
      }
    }

    method UpsertSlots(stays: seq<Stay>, o: nat, d: nat, amount: int, slots: seq<Slot>) returns (created: nat)
      requires o < |stays|
      modifies this
      ensures bills == UpsertAll(old(bills), stays, o, d, amount, slots, |slots|)
      ensures |bills| == |old(bills)| + created
    {
      created := 0;
      for i := 0 to |slots|
        invariant bills == UpsertAll(old(bills), stays, o, d, amount, slots, i)
        invariant |bills| == |old(bills)| + created
      {
        var isInserted := UpsertBill(stays, o, d, amount, slots[i]);
        if isInserted {
          created := created + 1;
        }
      }
    }

    /** The months of the year, each due on the tenth or on its last day if that is earlier. */
    method CalendarYear(year: nat) returns (slots: seq<Slot>)
      ensures slots == YearSlots(year)
    {
      slots := [];
      for m := 0 to 12
        invariant slots == YearSlots(year)[..m]
      {
        var period := 12 * year + m;
        var lastDay := DaysIn(period);
        var day := 10;
        if day > lastDay {
          day := lastDay;
        }
        slots := slots + [Slot(period, FirstDay(period) + day - 1)];
      }
    }

    /** The slots to bill: none for inactive and voluntary dues, a whole year, or what was issued already. */
    method SlotsFor(stay: Stay, due: Due, d: nat) returns (slots: seq<Slot>)
      ensures slots == Wanted(bills, stay, due, d)
    {
      if !due.isActive || due.isVoluntary || due.dueType.Voluntary? {
        return [];
      }
      if due.dueType.Regular? {
        return Issued(bills, d);
      }
      if due.year.None? || due.year.value <= 0 {
        return [];
      }
      var year := due.year.value;
      if stay.start.Some? && stay.start.value >= FirstDay(12 * (year + 1)) {
        return [];
      }
      if stay.end.Some? && stay.end.value < FirstDay(12 * year) {
        return [];
      }
      slots := CalendarYear(year);
    }

    /** How many bills were created for the stay; a closed or unknown one gets none. */
    method SyncHouseholdOccupancyBills(stays: seq<Stay>, dues: seq<Due>, o: nat) returns (created: nat)
      modifies this
      ensures bills == if o < |stays| then SyncStay(old(bills), stays, dues, o) else old(bills)
      ensures |bills| == |old(bills)| + created
    {
      if o >= |stays| || !stays[o].householdActive || stays[o].end.Some? {
        return 0;
      }
      created := 0;
      for d := 0 to |dues|
        invariant bills == SyncDues(old(bills), stays, dues, o, d)
        invariant |bills| == |old(bills)| + created
      {
        var slots := SlotsFor(stays[o], dues[d], d);
        var n := UpsertSlots(stays, o, d, dues[d].amount, slots);
        created := created + n;
      }
    }

    method SyncBillsForRT(stays: seq<Stay>, dues: seq<Due>) returns (totalCreated: nat)
      modifies this
      ensures bills == SyncAll(old(bills), stays, dues, |stays|)
      ensures |bills| == |old(bills)| + totalCreated
    {
      totalCreated := 0;
      for o := 0 to |stays|
        invariant bills == SyncAll(old(bills), stays, dues, o)
        invariant |bills| == |old(bills)| + totalCreated
      {
        if stays[o].householdActive && stays[o].end.None? {
          var n := SyncHouseholdOccupancyBills(stays, dues, o);
          totalCreated := totalCreated + n;
        }
      }
    }
  }

  // ----- The sync as payment-engine steps -----

  /** Each upsert is a bill creation or a change of an obligation flag, with the flags that those compute themselves,
      so whatever those keep, the sync keeps. */
  lemma UpsertIsStep(s: State, stays: seq<Stay>, o: nat, d: nat, slot: Slot)
    requires DuesKnown(s) && o < |stays| && d < |s.dues| && s.dues[d].amount >= 0
    ensures var i := Find(s.bills, o, d, slot.period);
      s.(bills := Upsert(s.bills, stays, o, d, s.dues[d].amount, slot)) ==
        if i.None?
        then Step(s, AddBillOp(o, d, s.dues[d].amount, slot.period, slot.dueDate, IssuedFlag(stays, o, slot.period)))
        else Step(s, ObligatoryOp(i.value, CaseFlag(stays[o], slot.period)))
  {
    OneRule(stays, o, slot.period);
  }
}
