/** The registry as mutable tables, with the operations that open and close its periods in place. */
module RegistryStore {
  import opened Results
  import opened Occupancy

  /** A call reports an error exactly when its specification does, and an error leaves the tables alone. */
  ghost predicate Follows(outcome: Outcome, before: Registry, after: Registry, error: Option<RegistryError>) {
    match outcome
    case Ok(g) => error.None? && after == g
    case Err(e) => error == Some(e) && after == before
  }

  /** Rows that do not live in the stay are passed over. */
  lemma {:induction false} MoveRowsSkips(rows: seq<Residency>, from: nat, to: nat, date: nat, a: nat, b: nat)
    requires a <= b <= |rows| && forall i :: a <= i < b ==> !LivesIn(rows[i], from)
    ensures MoveRows(rows, from, to, date, b) == MoveRows(rows, from, to, date, a)
  {
    if a < b {
      MoveRowsSkips(rows, from, to, date, a, b - 1);
    }
  }

  class HouseholdRepository {
    var households: seq<bool>
    var stays: seq<Stay>
    var residents: seq<bool>
    var residencies: seq<Residency>

    function View(): Registry
      reads this
    {
      Registry(households, stays, residents, residencies)
    }

    constructor ()
      ensures View() == NOBODY
    {
      households, stays, residents, residencies := [], [], [], [];
    }

    /** Whether some current stay is in the house, other than of the given household. */
    method FindOccupant(house: string, except: Option<nat>) returns (found: bool)
      ensures found == if except.Some? then TakenByOther(stays, house, except.value) else Taken(stays, house)
    {
      for i := 0 to |stays|
        invariant forall j :: 0 <= j < i && stays[j].house == house && IsCurrent(stays[j].span) ==>
                    Some(stays[j].household) == except
      {
        if stays[i].house == house && IsCurrent(stays[i].span) && Some(stays[i].household) != except {
          return true;
        }
      }
      return false;
    }

    /** The constraints on a new stay's dates. */
    method CheckPeriod(house: string, span: Span) returns (error: Option<RegistryError>)
      ensures error == if !Ordered(span) then Some(BadDates) else if Clashes(stays, house, span) then Some(Overlap) else None
    {
      if span.start.Some? && span.end.Some? && span.end.value <= span.start.value {
        return Some(BadDates);
      }
      for i := 0 to |stays|
        invariant forall j :: 0 <= j < i && stays[j].house == house ==> !Overlaps(stays[j].span, span)
      {
        if stays[i].house == house && Overlaps(stays[i].span, span) {
          return Some(Overlap);
        }
      }
      return None;
    }

    method HouseholdCreate(house: string, start: Option<nat>, end: Option<nat>, active: bool, today: nat)
      returns (error: Option<RegistryError>)
      modifies this
      ensures Follows(Occupancy.HouseholdCreate(old(View()), house, start, end, active, today), old(View()), View(), error)
    {
      if house == "" {
        return Some(NumberRequired);
      }
      var occupied := FindOccupant(house, None);
      if occupied {
        return Some(OccupiedHouse);
      }
      var startDate := today;
      if start.Some? {
        startDate := start.value;
      }
      var span := Span(Some(startDate), end);
      error := CheckPeriod(house, span);
      if error.Some? {
        return;
      }
      var household, stay, resident := |households|, |stays|, |residents|;
      households := households + [active];
      stays := stays + [Stay(house, household, span)];
      residents := residents + [true];
      residencies := residencies + [Residency(resident, stay, span)];
    }

    /** The current residencies of a stay, as they were before anything moves. */
    method CurrentPeriods(stay: nat) returns (ids: seq<nat>)
      ensures forall k :: 0 <= k < |ids| ==> ids[k] < |residencies| && LivesIn(residencies[ids[k]], stay)
      ensures forall i :: 0 <= i < |residencies| && LivesIn(residencies[i], stay) ==> i in ids
      ensures forall k, l :: 0 <= k < l < |ids| ==> ids[k] < ids[l]
    {
      ids := [];
      for i := 0 to |residencies|
        invariant forall k :: 0 <= k < |ids| ==> ids[k] < i && LivesIn(residencies[ids[k]], stay)
        invariant forall j :: 0 <= j < i && LivesIn(residencies[j], stay) ==> j in ids
        invariant forall k, l :: 0 <= k < l < |ids| ==> ids[k] < ids[l]
      {
        if LivesIn(residencies[i], stay) {
          ids := ids + [i];
        }
      }
    }

    /** Ends the household's stay and its residents' residencies on the date, and begins new ones there.
        A constraint that fails after the first write rolls the whole call back. */
    method HouseholdMove(h: nat, house: string, date: nat) returns (error: Option<RegistryError>)
      modifies this`stays, this`residencies
      ensures Follows(Occupancy.HouseholdMove(old(View()), h, house, date), old(View()), View(), error)
    {
      if house == "" {
        return Some(NumberRequired);
      }
      if h >= |households| || !households[h] {
        return Some(NoCurrentOccupancy);
      }
      var current := CurrentStay(stays, h);
      if current.None? {
        return Some(NoCurrentOccupancy);
      }
      var i := current.value;
      var start := stays[i].span.start;
      if start.Some? && date < start.value {
        return Some(BeforeStart);
      }
      var occupied := FindOccupant(house, Some(h));
      if occupied {
        return Some(OccupiedHouse);
      }
      if start.Some? && date <= start.value {
        return Some(BadDates);
      }
      var staysBefore, residenciesBefore := stays, residencies;
      stays := stays[i := stays[i].(span := stays[i].span.(end := Some(date)))];
      error := CheckPeriod(house, Span(Some(date), None));
      if error.Some? {
        stays := staysBefore;
        return;
      }
      stays := stays + [Stay(house, h, Span(Some(date), None))];
      error := MoveResidencies(i, |staysBefore|, date);
      if error.Some? {
        stays, residencies := staysBefore, residenciesBefore;
      }
    }

    /** One resident at a time: the current period ends, the next one begins. */
    method MoveResidencies(from: nat, to: nat, date: nat) returns (error: Option<RegistryError>)
      requires from != to
      modifies this`residencies
      ensures error == if CannotClose(old(residencies), from, date) then Some(BadDates) else None
      ensures error.None? ==> residencies == MoveRows(old(residencies), from, to, date, |old(residencies)|)
    {
      var ids := CurrentPeriods(from);
      ghost var rows := residencies;
      MoveRowsSkips(rows, from, to, date, 0, if |ids| > 0 then ids[0] else |rows|);
      for k := 0 to |ids|
        invariant |residencies| >= |rows|
        invariant forall l :: 0 <= l < k ==> Ordered(Closed(rows[ids[l]].span, date))
        invariant residencies == MoveRows(rows, from, to, date, if k < |ids| then ids[k] else |rows|)
      {
        var i := ids[k];
        MoveRowsLeavesRest(rows, from, to, date, i);
        var row := residencies[i];
        if row.span.start.Some? && date <= row.span.start.value {
          return Some(BadDates);
        }
        residencies := residencies[i := row.(span := row.span.(end := Some(date)))];
        residencies := residencies + [Residency(row.resident, to, Span(Some(date), None))];
        MoveRowsSkips(rows, from, to, date, i + 1, if k + 1 < |ids| then ids[k + 1] else |rows|);
      }
      return None;
    }

    method ResidentMove(r: nat, household: nat, date: nat) returns (error: Option<RegistryError>)
      modifies this`residencies
      ensures Follows(Occupancy.ResidentMove(old(View()), r, household, date), old(View()), View(), error)
    {
      if household >= |households| || !households[household] {
        return Some(NotFound);
      }
      var target := CurrentStay(stays, household);
      if target.None? {
        return Some(NoCurrentOccupancy);
      }
      if r >= |residents| || !residents[r] {
        return Some(NotFound);
      }
      var current := CurrentResidency(residencies, r);
      if current.None? {
        return Some(NotFound);
      }
      var i := current.value;
      var start := residencies[i].span.start;
      if start.Some? && date < start.value {
        return Some(BeforeStart);
      }
      if start.Some? && date <= start.value {
        return Some(BadDates);
      }
      residencies := residencies[i := residencies[i].(span := residencies[i].span.(end := Some(date)))];
      residencies := residencies + [Residency(r, target.value, Span(Some(date), None))];
      return None;
    }

    method ResidentCreate(household: Option<nat>, start: Option<nat>, end: Option<nat>, today: nat)
      returns (error: Option<RegistryError>)
      modifies this`residents, this`residencies
      ensures Follows(Occupancy.ResidentCreate(old(View()), household, start, end, today), old(View()), View(), error)
    {
      if household.None? {
        residents := residents + [true];
        return None;
      }
      var h := household.value;
      if h >= |households| || !households[h] {
        return Some(NotFound);
      }
      var current := CurrentStay(stays, h);
      if current.None? {
        return Some(NoCurrentOccupancy);
      }
      var startDate := today;
      if start.Some? {
        startDate := start.value;
      }
      if end.Some? && end.value <= startDate {
        return Some(BadDates);
      }
      var id := |residents|;
      residents := residents + [true];
      residencies := residencies + [Residency(id, current.value, Span(Some(startDate), end))];
      return None;
    }

    method ResidentDeactivate(r: nat, today: nat) returns (error: Option<RegistryError>)
      modifies this`residents, this`residencies
      ensures Follows(Occupancy.ResidentDeactivate(old(View()), r, today), old(View()), View(), error)
    {
      if r >= |residents| || !residents[r] {
        return Some(NotFound);
      }
      residents := residents[r := false];
      ghost var ended := EndedResidenciesOf(old(View()), r, today);
      for i := 0 to |residencies|
        invariant residents == old(residents)[r := false] && |residencies| == |old(residencies)|
        invariant forall j :: 0 <= j < i ==> residencies[j] == ended[j]
        invariant forall j :: i <= j < |residencies| ==> residencies[j] == old(residencies)[j]
      {
        var row := residencies[i];
        if row.resident == r && IsCurrent(row.span) {
          residencies := residencies[i := row.(span := row.span.(end := Some(LastDay(row.span, today))))];
        }
      }
      return None;
    }

    /** Residencies first, then the stays: the residencies are found through stays that are still current. */
    method HouseholdDeactivate(h: nat, today: nat) returns (error: Option<RegistryError>)
      modifies this`households, this`stays, this`residencies
      ensures Follows(Occupancy.HouseholdDeactivate(old(View()), h, today), old(View()), View(), error)
    {
      if h >= |households| || !households[h] {
        return Some(NotFound);
      }
      households := households[h := false];
      ghost var left := EndedResidencies(old(View()), h, today);
      for i := 0 to |residencies|
        invariant households == old(households)[h := false] && stays == old(stays) && |residencies| == |old(residencies)|
        invariant forall j :: 0 <= j < i ==> residencies[j] == left[j]
        invariant forall j :: i <= j < |residencies| ==> residencies[j] == old(residencies)[j]
      {
        var row := residencies[i];
        if IsCurrent(row.span) && row.stay < |stays| && stays[row.stay].household == h && IsCurrent(stays[row.stay].span) {
          residencies := residencies[i := row.(span := row.span.(end := Some(LastDay(row.span, today))))];
        }
      }
      ghost var closed := EndedStays(old(View()), h, today);
      for i := 0 to |stays|
        invariant households == old(households)[h := false] && residencies == left && |stays| == |old(stays)|
        invariant forall j :: 0 <= j < i ==> stays[j] == closed[j]
        invariant forall j :: i <= j < |stays| ==> stays[j] == old(stays)[j]
      {
        var row := stays[i];
        if row.household == h && IsCurrent(row.span) {
          stays := stays[i := row.(span := row.span.(end := Some(LastDay(row.span, today))))];
        }
      }
      return None;
    }
  }
}
