/** Exactly which bills exist after a synchronisation pass, and what the new ones say. */
module SyncOutcomes {
  import opened Results
  import opened Calendar
  import opened Billing
  import opened Payments
  import opened BillSync

  /** A bill the code should issue. The stay is current, of an active household; the due is active and not voluntary. A
      multi-month due bills the months of its year, each on its tenth day, to everyone who has moved in by December; a
      regular due bills the periods and dates that some household has a bill for. */
  ghost predicate IssuedFor(bills: seq<Bill>, stays: seq<Stay>, dues: seq<Due>, o: nat, d: nat, period: nat,
                            dueDate: nat) {
    && o < |stays| && stays[o].householdActive && stays[o].end.None?
    && d < |dues| && dues[d].isActive && !dues[d].isVoluntary
    && match dues[d].dueType
       case Voluntary => false
       case MultiMonth =>
         && dues[d].year.Some? && dues[d].year.value > 0 && period / 12 == dues[d].year.value
         && LivesIn(stays[o], 12 * dues[d].year.value + 11) && dueDate == FirstDay(period) + 9
       case Regular =>
         exists i :: 0 <= i < |bills| && bills[i].due == d && bills[i].period == period && bills[i].dueDate == dueDate
  }

  /** A new bill: unpaid, active, of the due's amount, and obligatory exactly if the household lives there that
      month. */
  function NewBill(stays: seq<Stay>, dues: seq<Due>, o: nat, d: nat, period: nat, dueDate: nat): Bill
    requires o < |stays| && d < |dues|
  {
    Bill(o, d, dues[d].amount, period, dueDate, Unpaid, true, LivesIn(stays[o], period))
  }

  lemma SlotOfYear(year: nat, s: Slot)
    ensures s in YearSlots(year) <==> s.period / 12 == year && s.dueDate == FirstDay(s.period) + 9
  {
    if s.period / 12 == year && s.dueDate == FirstDay(s.period) + 9 {
      assert YearSlots(year)[s.period % 12] == s;
    }
  }

  /** The slots a stay wants are the bills that the code should issue. */
  lemma WantedMeans(bills: seq<Bill>, stays: seq<Stay>, dues: seq<Due>, o: nat, d: nat, s: Slot)
    requires o < |stays| && d < |dues| && IsOpen(stays[o])
    ensures s in Wanted(bills, stays[o], dues[d], d) <==> IssuedFor(bills, stays, dues, o, d, s.period, s.dueDate)
  {
    IssuedMembers(bills, d, s);
    if dues[d].year.Some? {
      SlotOfYear(dues[d].year.value, s);
    }
  }

  /** The bill was issued for one of the slots. */
  ghost predicate FromSlots(stays: seq<Stay>, dues: seq<Due>, o: nat, d: nat, slots: seq<Slot>, bill: Bill)
    requires o < |stays| && d < |dues|
  {
    exists s :: s in slots && bill == NewBill(stays, dues, o, d, s.period, s.dueDate)
  }

  lemma UpsertNew(bills: seq<Bill>, t: seq<Bill>, stays: seq<Stay>, dues: seq<Due>, o: nat, d: nat, slots: seq<Slot>,
                  slot: Slot, i: nat)
    requires o < |stays| && d < |dues| && slot in slots && t == Upsert(bills, stays, o, d, dues[d].amount, slot)
    requires i < |t| && (i < |bills| ==> FromSlots(stays, dues, o, d, slots, bills[i]))
    ensures FromSlots(stays, dues, o, d, slots, t[i])
  {
    OneRule(stays, o, slot.period);
    if i == |bills| {
      assert t[i] == NewBill(stays, dues, o, d, slot.period, slot.dueDate);
    }
  }

  lemma {:induction false} UpsertAllNew(bills: seq<Bill>, t: seq<Bill>, stays: seq<Stay>, dues: seq<Due>, o: nat,
                                        d: nat,
                                        slots: seq<Slot>, n: nat, i: nat)
    requires o < |stays| && d < |dues| && n <= |slots| && |bills| <= i < |t|
    requires t == UpsertAll(bills, stays, o, d, dues[d].amount, slots, n)
    ensures FromSlots(stays, dues, o, d, slots, t[i])
    decreases n
  {
    if n > 0 {
      var before := UpsertAll(bills, stays, o, d, dues[d].amount, slots, n - 1);
      if i < |before| {
        UpsertAllNew(bills, before, stays, dues, o, d, slots, n - 1, i);
      }
      UpsertNew(before, t, stays, dues, o, d, slots, slots[n - 1], i);
    }
  }

  /** The bill was issued in the pass over these stays, for something wanted at its start. */
  ghost predicate Origin(bills: seq<Bill>, stays: seq<Stay>, dues: seq<Due>, bill: Bill) {
    && bill.occupancy < |stays| && bill.due < |dues|
    && IssuedFor(bills, stays, dues, bill.occupancy, bill.due, bill.period, bill.dueDate)
    && bill == NewBill(stays, dues, bill.occupancy, bill.due, bill.period, bill.dueDate)
  }

  lemma SyncDueNew(start: seq<Bill>, bills: seq<Bill>, stays: seq<Stay>, dues: seq<Due>, o: nat, d: nat, i: nat)
    requires o < |stays| && d < |dues| && IsOpen(stays[o]) && Synced(start, bills, stays, dues)
    requires |bills| <= i < |SyncDue(bills, stays, dues, o, d)|
    ensures var bill := SyncDue(bills, stays, dues, o, d)[i];
      bill.occupancy == o && bill.due == d && Origin(start, stays, dues, bill)
  {
    var t := SyncDue(bills, stays, dues, o, d);
    var slots := Wanted(bills, stays[o], dues[d], d);
    UpsertAllNew(bills, t, stays, dues, o, d, slots, |slots|, i);
    var s :| s in slots && t[i] == NewBill(stays, dues, o, d, s.period, s.dueDate);
    SameWanted(start, bills, stays, dues, o, d, s);
    WantedMeans(start, stays, dues, o, d, s);
  }

  lemma {:induction false} SyncDuesNew(start: seq<Bill>, bills: seq<Bill>, t: seq<Bill>, stays: seq<Stay>,
                                       dues: seq<Due>,
                                       o: nat, n: nat, i: nat)
    requires o < |stays| && n <= |dues| && IsOpen(stays[o]) && Synced(start, bills, stays, dues)
    requires t == SyncDues(bills, stays, dues, o, n) && |bills| <= i < |t|
    ensures t[i].occupancy == o && t[i].due < n && Origin(start, stays, dues, t[i])
    decreases n
  {
    if n > 0 {
      var before := SyncDues(bills, stays, dues, o, n - 1);
      SyncDuesSyncs(bills, before, stays, dues, o, n - 1);
      SyncedTrans(start, bills, before, stays, dues);
      if i < |before| {
        SyncDuesNew(start, bills, before, stays, dues, o, n - 1, i);
        SyncDueLeaves(before, stays, dues, o, n - 1, i);
      } else {
        SyncDueNew(start, before, stays, dues, o, n - 1, i);
      }
    }
  }

  lemma SyncStayNew(bills: seq<Bill>, before: seq<Bill>, t: seq<Bill>, stays: seq<Stay>, dues: seq<Due>, o: nat, i: nat)
    requires o < |stays| && Synced(bills, before, stays, dues) && t == SyncStay(before, stays, dues, o) && i < |t|
    requires i < |before| ==> before[i].occupancy < o && Origin(bills, stays, dues, before[i])
    ensures t[i].occupancy <= o && Origin(bills, stays, dues, t[i])
  {
    if IsOpen(stays[o]) {
      if i < |before| {
        SyncDuesLeaves(before, t, stays, dues, o, |dues|, i);
      } else {
        SyncDuesNew(bills, before, t, stays, dues, o, |dues|, i);
      }
    }
  }

  lemma {:induction false} SyncAllNew(bills: seq<Bill>, t: seq<Bill>, stays: seq<Stay>, dues: seq<Due>, n: nat, i: nat)
    requires UniqueKeys(bills) && Known(bills, stays) && n <= |stays|
    requires t == SyncAll(bills, stays, dues, n) && |bills| <= i < |t|
    ensures t[i].occupancy < n && Origin(bills, stays, dues, t[i])
    decreases n
  {
    if n > 0 {
      var before := SyncAll(bills, stays, dues, n - 1);
      SyncAllSyncs(bills, stays, dues, n - 1);
      if i < |before| {
        SyncAllNew(bills, before, stays, dues, n - 1, i);
      }
      SyncStayNew(bills, before, t, stays, dues, n - 1, i);
    }
  }

  /** Every row after the old ones is a bill that the code should issue, with its date, amount and flag, and none of
      them repeats an old key. */
  lemma NewBillsExactly(bills: seq<Bill>, stays: seq<Stay>, dues: seq<Due>, i: nat)
    requires UniqueKeys(bills) && Known(bills, stays) && |bills| <= i < |SyncAll(bills, stays, dues, |stays|)|
    ensures var bill := SyncAll(bills, stays, dues, |stays|)[i];
      Origin(bills, stays, dues, bill) && !HasKey(bills, bill.occupancy, bill.due, bill.period)
  {
    var t := SyncAll(bills, stays, dues, |stays|);
    SyncAllNew(bills, t, stays, dues, |stays|, i);
    SyncAllSyncs(bills, stays, dues, |stays|);
    forall b | 0 <= b < |bills|
      ensures !SameKey(bills[b], t[i].occupancy, t[i].due, t[i].period)
    {
      assert t[b].period == bills[b].period;
    }
  }

  lemma IssuedIsThere(bills: seq<Bill>, stays: seq<Stay>, dues: seq<Due>, o: nat, d: nat, period: nat, dueDate: nat)
    requires UniqueKeys(bills) && Known(bills, stays) && IssuedFor(bills, stays, dues, o, d, period, dueDate)
    ensures HasKey(SyncAll(bills, stays, dues, |stays|), o, d, period)
  {
    var t := SyncAll(bills, stays, dues, |stays|);
    var s := Slot(period, dueDate);
    SyncAllSyncs(bills, stays, dues, |stays|);
    WantedMeans(bills, stays, dues, o, d, s);
    SameWanted(bills, t, stays, dues, o, d, s);
    assert StayComplete(t, stays, dues, o) && Complete(t, stays, dues, o, d);
    assert Present(t, stays, o, d, s.period);
  }

  /** After a pass a household has a bill of a due for a month exactly if it had one before or the code should issue it:
      none for a closed stay, an inactive household, or an inactive or voluntary due. */
  lemma SyncedKeysExactly(bills: seq<Bill>, stays: seq<Stay>, dues: seq<Due>, o: nat, d: nat, period: nat)
    requires UniqueKeys(bills) && Known(bills, stays)
    ensures HasKey(SyncAll(bills, stays, dues, |stays|), o, d, period) <==>
      HasKey(bills, o, d, period) || exists dueDate: nat :: IssuedFor(bills, stays, dues, o, d, period, dueDate)
  {
    var t := SyncAll(bills, stays, dues, |stays|);
    SyncAllSyncs(bills, stays, dues, |stays|);
    if HasKey(t, o, d, period) {
      var i :| 0 <= i < |t| && SameKey(t[i], o, d, period);
      if i < |bills| {
        assert SameKey(bills[i], o, d, period);
      } else {
        SyncAllNew(bills, t, stays, dues, |stays|, i);
      }
    }
    if HasKey(bills, o, d, period) {
      var i :| 0 <= i < |bills| && SameKey(bills[i], o, d, period);
      assert SameKey(t[i], o, d, period);
    }
    if dueDate: nat :| IssuedFor(bills, stays, dues, o, d, period, dueDate) {
      IssuedIsThere(bills, stays, dues, o, d, period, dueDate);
    }
  }
}
