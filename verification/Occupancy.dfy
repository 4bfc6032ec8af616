/** Who lives where, and since when: households in houses and residents in households, as histories of periods.
    Rows are never removed; a row's id is its position. Dates are day numbers and periods are half-open. */
module Occupancy {
  import opened Results

  /** A period without an end is current; an unknown start is a legacy row. */
  datatype Span = Span(start: Option<nat>, end: Option<nat>)

  datatype Stay = Stay(house: string, household: nat, span: Span)

  datatype Residency = Residency(resident: nat, stay: nat, span: Span)

  /** `households` and `residents` say of each row whether it is active. */
  datatype Registry = Registry(
    households: seq<bool>,
    stays: seq<Stay>,
    residents: seq<bool>,
    residencies: seq<Residency>)

  datatype RegistryError =
    | NumberRequired | OccupiedHouse | NotFound | NoCurrentOccupancy | BeforeStart
    | BadDates      // CHECK (end_date > start_date)
    | Overlap       // EXCLUDE: two known periods of one house overlap

  type Outcome = Result<Registry, RegistryError>

  // ----- Periods -----

  predicate IsCurrent(s: Span) {
    s.end.None?
  }

  predicate Ordered(s: Span) {
    s.start.Some? && s.end.Some? ==> s.start.value < s.end.value
  }

  /** `[start, end)` intersects `[other.start, other.end)`; only known starts are compared. */
  predicate Overlaps(s: Span, other: Span) {
    && s.start.Some? && other.start.Some?
    && (s.end.None? || other.start.value < s.end.value)
    && (other.end.None? || s.start.value < other.end.value)
  }

  function Closed(s: Span, date: nat): Span {
    s.(end := Some(date))
  }

  /** Closing today, or a day after the start when that is not before today. */
  function LastDay(s: Span, today: nat): nat {
    if s.start.None? then today
    else if today > s.start.value then today
    else s.start.value + 1
  }

  // ----- Lookups -----

  function CurrentStay(stays: seq<Stay>, household: nat): (i: Option<nat>)
    ensures i.Some? ==> i.value < |stays| && stays[i.value].household == household && IsCurrent(stays[i.value].span)
    ensures i.None? ==> forall j :: 0 <= j < |stays| ==> stays[j].household != household || !IsCurrent(stays[j].span)
  {
    if stays == [] then None
    else
      var earlier := CurrentStay(stays[..|stays| - 1], household);
      if earlier.Some? then earlier
      else if stays[|stays| - 1].household == household && IsCurrent(stays[|stays| - 1].span) then Some(|stays| - 1)
      else None
  }

  function CurrentResidency(residencies: seq<Residency>, resident: nat): (i: Option<nat>)
    ensures i.Some? ==>
      i.value < |residencies| && residencies[i.value].resident == resident && IsCurrent(residencies[i.value].span)
    ensures i.None? ==>
      forall j :: 0 <= j < |residencies| ==> residencies[j].resident != resident || !IsCurrent(residencies[j].span)
  {
    if residencies == [] then None
    else
      var n := |residencies| - 1;
      var earlier := CurrentResidency(residencies[..n], resident);
      if earlier.Some? then earlier
      else if residencies[n].resident == resident && IsCurrent(residencies[n].span) then Some(n)
      else None
  }

  predicate Taken(stays: seq<Stay>, house: string) {
    exists i :: 0 <= i < |stays| && stays[i].house == house && IsCurrent(stays[i].span)
  }

  predicate TakenByOther(stays: seq<Stay>, house: string, household: nat) {
    exists i :: 0 <= i < |stays| && stays[i].house == house && IsCurrent(stays[i].span) && stays[i].household != household
  }

  predicate Clashes(stays: seq<Stay>, house: string, span: Span) {
    exists i :: 0 <= i < |stays| && stays[i].house == house && Overlaps(stays[i].span, span)
  }

  // ----- Households -----

  function HouseholdCreate(g: Registry, house: string, start: Option<nat>, end: Option<nat>, active: bool,
                           today: nat): Outcome {
    if house == "" then Err(NumberRequired)
    else if Taken(g.stays, house) then Err(OccupiedHouse)
    else
      var span := Span(Some(if start.Some? then start.value else today), end);
      if !Ordered(span) then Err(BadDates)
      else if Clashes(g.stays, house, span) then Err(Overlap)
      else
        Ok(Registry(g.households + [active],
                    g.stays + [Stay(house, |g.households|, span)],
                    g.residents + [true],
                    g.residencies + [Residency(|g.residents|, |g.stays|, span)]))
  }

  /** A current residency in the stay. */
  predicate LivesIn(r: Residency, stay: nat) {
    r.stay == stay && IsCurrent(r.span)
  }

  /** Residency `i` ends on the date, and a new one begins there in the other stay. */
  function MoveOne(residencies: seq<Residency>, i: nat, to: nat, date: nat): seq<Residency>
    requires i < |residencies|
  {
    residencies[i := residencies[i].(span := Closed(residencies[i].span, date))]
    + [Residency(residencies[i].resident, to, Span(Some(date), None))]
  }

  /** The first `n` rows, those living in `from` moved on to `to`. */
  function MoveRows(residencies: seq<Residency>, from: nat, to: nat, date: nat, n: nat): (moved: seq<Residency>)
    requires n <= |residencies|
    ensures |moved| >= |residencies|
  {
    if n == 0 then residencies
    else
      var moved := MoveRows(residencies, from, to, date, n - 1);
      if LivesIn(residencies[n - 1], from) then MoveOne(moved, n - 1, to, date) else moved
  }

  predicate CannotClose(residencies: seq<Residency>, stay: nat, date: nat) {
    exists i :: 0 <= i < |residencies| && LivesIn(residencies[i], stay) && !Ordered(Closed(residencies[i].span, date))
  }

  function HouseholdMove(g: Registry, h: nat, house: string, date: nat): Outcome {
    if house == "" then Err(NumberRequired)
    else if h >= |g.households| || !g.households[h] then Err(NoCurrentOccupancy)
    else
      var current := CurrentStay(g.stays, h);
      if current.None? then Err(NoCurrentOccupancy)
      else
        var i := current.value;
        var span := g.stays[i].span;
        if span.start.Some? && date < span.start.value then Err(BeforeStart)
        else if TakenByOther(g.stays, house, h) then Err(OccupiedHouse)
        else if !Ordered(Closed(span, date)) then Err(BadDates)
        else
          var stays := g.stays[i := g.stays[i].(span := Closed(span, date))];
          if Clashes(stays, house, Span(Some(date), None)) then Err(Overlap)
          else if CannotClose(g.residencies, i, date) then Err(BadDates)
          else
            Ok(g.(stays := stays + [Stay(house, h, Span(Some(date), None))],
                  residencies := MoveRows(g.residencies, i, |g.stays|, date, |g.residencies|)))
  }

  /** Current residencies in a current stay of the household end. */
  function EndedResidencies(g: Registry, h: nat, today: nat): seq<Residency> {
    seq(|g.residencies|, i requires 0 <= i < |g.residencies| =>
      var r := g.residencies[i];
      if IsCurrent(r.span) && r.stay < |g.stays| && g.stays[r.stay].household == h && IsCurrent(g.stays[r.stay].span)
      then r.(span := Closed(r.span, LastDay(r.span, today))) else r)
  }

  function EndedStays(g: Registry, h: nat, today: nat): seq<Stay> {
    seq(|g.stays|, i requires 0 <= i < |g.stays| =>
      var s := g.stays[i];
      if s.household == h && IsCurrent(s.span) then s.(span := Closed(s.span, LastDay(s.span, today))) else s)
  }

  function HouseholdDeactivate(g: Registry, h: nat, today: nat): Outcome {
    if h >= |g.households| || !g.households[h] then Err(NotFound)
    else Ok(Registry(g.households[h := false], EndedStays(g, h, today), g.residents, EndedResidencies(g, h, today)))
  }

  // ----- Residents -----

  /** Without a household the resident has no residency. */
  function ResidentCreate(g: Registry, household: Option<nat>, start: Option<nat>, end: Option<nat>,
                          today: nat): Outcome {
    if household.None? then Ok(g.(residents := g.residents + [true]))
    else if household.value >= |g.households| || !g.households[household.value] then Err(NotFound)
    else
      var current := CurrentStay(g.stays, household.value);
      if current.None? then Err(NoCurrentOccupancy)
      else
        var span := Span(Some(if start.Some? then start.value else today), end);
        if !Ordered(span) then Err(BadDates)
        else
          Ok(g.(residents := g.residents + [true],
                residencies := g.residencies + [Residency(|g.residents|, current.value, span)]))
  }

  function ResidentMove(g: Registry, r: nat, household: nat, date: nat): Outcome {
    if household >= |g.households| || !g.households[household] then Err(NotFound)
    else
      var target := CurrentStay(g.stays, household);
      if target.None? then Err(NoCurrentOccupancy)
      else if r >= |g.residents| || !g.residents[r] then Err(NotFound)
      else
        var current := CurrentResidency(g.residencies, r);
        if current.None? then Err(NotFound)
        else
          var span := g.residencies[current.value].span;
          if span.start.Some? && date < span.start.value then Err(BeforeStart)
          else if !Ordered(Closed(span, date)) then Err(BadDates)
          else Ok(g.(residencies := MoveOne(g.residencies, current.value, target.value, date)))
  }

  function EndedResidenciesOf(g: Registry, r: nat, today: nat): seq<Residency> {
    seq(|g.residencies|, i requires 0 <= i < |g.residencies| =>
      var x := g.residencies[i];
      if x.resident == r && IsCurrent(x.span) then x.(span := Closed(x.span, LastDay(x.span, today))) else x)
  }

  function ResidentDeactivate(g: Registry, r: nat, today: nat): Outcome {
    if r >= |g.residents| || !g.residents[r] then Err(NotFound)
    else Ok(g.(residents := g.residents[r := false], residencies := EndedResidenciesOf(g, r, today)))
  }

  // ----- Runs -----

  datatype Op =
    | CreateHousehold(house: string, start: Option<nat>, end: Option<nat>, active: bool, today: nat)
    | MoveHousehold(household: nat, house: string, date: nat)
    | DeactivateHousehold(household: nat, today: nat)
    | CreateResident(of: Option<nat>, start: Option<nat>, end: Option<nat>, today: nat)
    | MoveResident(resident: nat, household: nat, date: nat)
    | DeactivateResident(resident: nat, today: nat)

  function Try(g: Registry, op: Op): Outcome {
    match op
    case CreateHousehold(house, start, end, active, today) => HouseholdCreate(g, house, start, end, active, today)
    case MoveHousehold(h, house, date) => HouseholdMove(g, h, house, date)
    case DeactivateHousehold(h, today) => HouseholdDeactivate(g, h, today)
    case CreateResident(h, start, end, today) => ResidentCreate(g, h, start, end, today)
    case MoveResident(r, h, date) => ResidentMove(g, r, h, date)
    case DeactivateResident(r, today) => ResidentDeactivate(g, r, today)
  }

  /** A refused call is rolled back. */
  function Step(g: Registry, op: Op): Registry {
    var outcome := Try(g, op);
    if outcome.Ok? then outcome.value else g
  }

  const NOBODY := Registry([], [], [], [])

  function Run(ops: seq<Op>): Registry {
    if ops == [] then NOBODY else Step(Run(ops[..|ops| - 1]), ops[|ops| - 1])
  }

  // ----- Histories -----

  /** Each later period of one owner begins after the earlier ones ended, and exactly where one of them ended. */
  ghost predicate StaysChained(stays: seq<Stay>) {
    && (forall i :: 0 <= i < |stays| ==> Ordered(stays[i].span))
    && (forall i, j :: 0 <= i < j < |stays| && stays[i].household == stays[j].household ==>
          Precedes(stays[i].span, stays[j].span))
    && (forall i, j :: 0 <= i < j < |stays| && stays[i].household == stays[j].household ==> StayContinues(stays, j))
  }

  ghost predicate ResidenciesChained(residencies: seq<Residency>) {
    && (forall i :: 0 <= i < |residencies| ==> Ordered(residencies[i].span))
    && (forall i, j :: 0 <= i < j < |residencies| && residencies[i].resident == residencies[j].resident ==>
          Precedes(residencies[i].span, residencies[j].span))
    && (forall i, j :: 0 <= i < j < |residencies| && residencies[i].resident == residencies[j].resident ==>
          ResidencyContinues(residencies, j))
  }

  predicate Precedes(s: Span, t: Span) {
    s.end.Some? && t.start.Some? && s.end.value <= t.start.value
  }

  ghost predicate StayContinues(stays: seq<Stay>, j: nat)
    requires j < |stays|
  {
    exists i :: 0 <= i < j && stays[i].household == stays[j].household && stays[i].span.end == stays[j].span.start
  }

  ghost predicate ResidencyContinues(residencies: seq<Residency>, j: nat)
    requires j < |residencies|
  {
    exists i :: 0 <= i < j && residencies[i].resident == residencies[j].resident
      && residencies[i].span.end == residencies[j].span.start
  }

  /** At most one current stay in a house, and no two known periods of a house overlap. */
  ghost predicate HousesExclusive(stays: seq<Stay>) {
    forall i, j :: 0 <= i < j < |stays| && stays[i].house == stays[j].house ==>
      !(IsCurrent(stays[i].span) && IsCurrent(stays[j].span)) && !Overlaps(stays[i].span, stays[j].span)
  }

  ghost predicate RowsKnown(g: Registry) {
    && (forall i :: 0 <= i < |g.stays| ==> g.stays[i].household < |g.households|)
    && (forall i :: 0 <= i < |g.residencies| ==> g.residencies[i].resident < |g.residents| && g.residencies[i].stay < |g.stays|)
  }

  /** Who lives somewhere now lives in a current stay, and is active. */
  ghost predicate CurrentInCurrent(g: Registry)
    requires RowsKnown(g)
  {
    forall i :: 0 <= i < |g.residencies| && IsCurrent(g.residencies[i].span) ==>
      IsCurrent(g.stays[g.residencies[i].stay].span) && g.residents[g.residencies[i].resident]
  }

  ghost predicate Inv(g: Registry) {
    && RowsKnown(g) && StaysChained(g.stays) && HousesExclusive(g.stays)
    && ResidenciesChained(g.residencies) && CurrentInCurrent(g)
  }

  // ----- Closing current periods -----

  /** Some current stays were closed, on dates after their start; nothing else changed. */
  ghost predicate SomeClosed(a: seq<Stay>, b: seq<Stay>) {
    && |a| == |b|
    && forall i :: 0 <= i < |a| ==>
         b[i] == a[i] || (IsCurrent(a[i].span) && b[i] == a[i].(span := b[i].span)
                          && b[i].span.start == a[i].span.start && b[i].span.end.Some? && Ordered(b[i].span))
  }

  lemma ClosingStaysKeeps(a: seq<Stay>, b: seq<Stay>)
    requires StaysChained(a) && HousesExclusive(a) && SomeClosed(a, b)
    ensures StaysChained(b) && HousesExclusive(b)
  {
    forall i, j | 0 <= i < j < |b| && b[i].household == b[j].household
      ensures StayContinues(b, j)
    {
      assert StayContinues(a, j);
      var k :| 0 <= k < j && a[k].household == a[j].household && a[k].span.end == a[j].span.start;
      assert b[k] == a[k];
    }
  }

  ghost predicate SomeLeft(a: seq<Residency>, b: seq<Residency>) {
    && |a| == |b|
    && forall i :: 0 <= i < |a| ==>
         b[i] == a[i] || (IsCurrent(a[i].span) && b[i] == a[i].(span := b[i].span)
                          && b[i].span.start == a[i].span.start && b[i].span.end.Some? && Ordered(b[i].span))
  }

  lemma LeavingKeeps(a: seq<Residency>, b: seq<Residency>)
    requires ResidenciesChained(a) && SomeLeft(a, b)
    ensures ResidenciesChained(b)
  {
    forall i, j | 0 <= i < j < |b| && b[i].resident == b[j].resident
      ensures ResidencyContinues(b, j)
    {
      assert ResidencyContinues(a, j);
      var k :| 0 <= k < j && a[k].resident == a[j].resident && a[k].span.end == a[j].span.start;
      assert b[k] == a[k];
    }
  }

  // ----- Beginning new periods -----

  /** A first stay, or one that begins where the household's last one ended. */
  lemma BeginStayKeeps(stays: seq<Stay>, s: Stay, last: nat)
    requires StaysChained(stays) && Ordered(s.span)
    requires forall i :: 0 <= i < |stays| && stays[i].household == s.household ==> Precedes(stays[i].span, s.span)
    requires (forall i :: 0 <= i < |stays| ==> stays[i].household != s.household)
      || (last < |stays| && stays[last].household == s.household && stays[last].span.end == s.span.start)
    ensures StaysChained(stays + [s])
  {
    var t := stays + [s];
    forall i, j | 0 <= i < j < |t| && t[i].household == t[j].household
      ensures StayContinues(t, j)
    {
      if j < |stays| {
        assert StayContinues(stays, j);
        var k :| 0 <= k < j && stays[k].household == stays[j].household && stays[k].span.end == stays[j].span.start;
        assert t[k] == stays[k];
      } else {
        assert t[last] == stays[last];
      }
    }
  }

  lemma BeginResidencyKeeps(rows: seq<Residency>, r: Residency, last: nat)
    requires ResidenciesChained(rows) && Ordered(r.span)
    requires forall i :: 0 <= i < |rows| && rows[i].resident == r.resident ==> Precedes(rows[i].span, r.span)
    requires (forall i :: 0 <= i < |rows| ==> rows[i].resident != r.resident)
      || (last < |rows| && rows[last].resident == r.resident && rows[last].span.end == r.span.start)
    ensures ResidenciesChained(rows + [r])
  {
    var t := rows + [r];
    forall i, j | 0 <= i < j < |t| && t[i].resident == t[j].resident
      ensures ResidencyContinues(t, j)
    {
      if j < |rows| {
        assert ResidencyContinues(rows, j);
        var k :| 0 <= k < j && rows[k].resident == rows[j].resident && rows[k].span.end == rows[j].span.start;
        assert t[k] == rows[k];
      } else {
        assert t[last] == rows[last];
      }
    }
  }

  lemma NewTenantKeeps(stays: seq<Stay>, s: Stay)
    requires HousesExclusive(stays) && !Clashes(stays, s.house, s.span)
    requires IsCurrent(s.span) ==> !Taken(stays, s.house)
    ensures HousesExclusive(stays + [s])
  {
    var t := stays + [s];
    forall i | 0 <= i < |stays| && stays[i].house == s.house
      ensures !Overlaps(stays[i].span, s.span) && !(IsCurrent(stays[i].span) && IsCurrent(s.span))
    {
    }
  }

  lemma MoveOneKeeps(rows: seq<Residency>, i: nat, to: nat, date: nat)
    requires ResidenciesChained(rows) && i < |rows| && IsCurrent(rows[i].span) && Ordered(Closed(rows[i].span, date))
    ensures ResidenciesChained(MoveOne(rows, i, to, date))
  {
    var left := rows[i := rows[i].(span := Closed(rows[i].span, date))];
    LeavingKeeps(rows, left);
    BeginResidencyKeeps(left, Residency(rows[i].resident, to, Span(Some(date), None)), i);
  }

  // ----- Moving a household -----

  predicate SomeoneLivesIn(rows: seq<Residency>, n: nat, r: nat, stay: nat) {
    exists i :: 0 <= i < |rows| && i < n && rows[i].resident == r && LivesIn(rows[i], stay)
  }

  /** What moving the first `n` rows leaves: those rows closed on the date, the others as they were,
      and the new rows current in the other stay. */
  ghost predicate RowsMoved(rows: seq<Residency>, moved: seq<Residency>, from: nat, to: nat, date: nat, n: nat)
    requires n <= |rows| <= |moved|
  {
    && (forall i :: 0 <= i < n ==>
          moved[i] == if LivesIn(rows[i], from) then rows[i].(span := Closed(rows[i].span, date)) else rows[i])
    && (forall i :: n <= i < |rows| ==> moved[i] == rows[i])
    && (forall i :: |rows| <= i < |moved| ==>
          && moved[i].stay == to && moved[i].span == Span(Some(date), None)
          && SomeoneLivesIn(rows, n, moved[i].resident, from))
  }

  lemma {:induction false} MoveRowsKeeps(rows: seq<Residency>, from: nat, to: nat, date: nat, n: nat)
    requires ResidenciesChained(rows) && n <= |rows| && !CannotClose(rows, from, date)
    ensures ResidenciesChained(MoveRows(rows, from, to, date, n))
    ensures RowsMoved(rows, MoveRows(rows, from, to, date, n), from, to, date, n)
  {
    if n > 0 {
      MoveRowsKeeps(rows, from, to, date, n - 1);
      var before := MoveRows(rows, from, to, date, n - 1);
      if LivesIn(rows[n - 1], from) {
        assert before[n - 1] == rows[n - 1];
        MoveOneKeeps(before, n - 1, to, date);
        NextRowMoved(rows, before, from, to, date, n - 1);
      } else {
        OtherRowStays(rows, before, from, to, date, n - 1);
      }
    }
  }

  lemma NextRowMoved(rows: seq<Residency>, before: seq<Residency>, from: nat, to: nat, date: nat, n: nat)
    requires n < |rows| <= |before| && LivesIn(rows[n], from) && RowsMoved(rows, before, from, to, date, n)
    ensures RowsMoved(rows, MoveOne(before, n, to, date), from, to, date, n + 1)
  {
    var moved := MoveOne(before, n, to, date);
    forall i | |rows| <= i < |moved|
      ensures moved[i].stay == to && moved[i].span == Span(Some(date), None)
      ensures SomeoneLivesIn(rows, n + 1, moved[i].resident, from)
    {
      if i < |before| {
        assert moved[i] == before[i] && SomeoneLivesIn(rows, n, before[i].resident, from);
      } else {
        assert rows[n].resident == moved[i].resident;
      }
    }
  }

  lemma OtherRowStays(rows: seq<Residency>, before: seq<Residency>, from: nat, to: nat, date: nat, n: nat)
    requires n < |rows| <= |before| && !LivesIn(rows[n], from) && RowsMoved(rows, before, from, to, date, n)
    ensures RowsMoved(rows, before, from, to, date, n + 1)
  {
    forall i | |rows| <= i < |before|
      ensures SomeoneLivesIn(rows, n + 1, before[i].resident, from)
    {
      assert SomeoneLivesIn(rows, n, before[i].resident, from);
    }
  }

  // ----- Every operation -----

  lemma FirstStayKeeps(g: Registry, house: string, span: Span)
    requires Inv(g) && Ordered(span) && !Clashes(g.stays, house, span) && !Taken(g.stays, house)
    ensures StaysChained(g.stays + [Stay(house, |g.households|, span)])
    ensures HousesExclusive(g.stays + [Stay(house, |g.households|, span)])
  {
    BeginStayKeeps(g.stays, Stay(house, |g.households|, span), 0);
    NewTenantKeeps(g.stays, Stay(house, |g.households|, span));
  }

  lemma FirstResidencyKeeps(g: Registry, stay: nat, span: Span)
    requires Inv(g) && Ordered(span)
    ensures ResidenciesChained(g.residencies + [Residency(|g.residents|, stay, span)])
  {
    BeginResidencyKeeps(g.residencies, Residency(|g.residents|, stay, span), 0);
  }

  lemma HouseholdCreateKeeps(g: Registry, house: string, start: Option<nat>, end: Option<nat>, active: bool, today: nat)
    requires Inv(g) && HouseholdCreate(g, house, start, end, active, today).Ok?
    ensures Inv(HouseholdCreate(g, house, start, end, active, today).value)
  {
    var span := Span(Some(if start.Some? then start.value else today), end);
    FirstStayKeeps(g, house, span);
    FirstResidencyKeeps(g, |g.stays|, span);
  }

  lemma StayMovesOn(g: Registry, i: nat, house: string, date: nat)
    requires Inv(g) && i < |g.stays| && IsCurrent(g.stays[i].span) && Ordered(Closed(g.stays[i].span, date))
    requires !TakenByOther(g.stays, house, g.stays[i].household)
    requires var stays := g.stays[i := g.stays[i].(span := Closed(g.stays[i].span, date))];
      !Clashes(stays, house, Span(Some(date), None))
    ensures var stays := g.stays[i := g.stays[i].(span := Closed(g.stays[i].span, date))];
      var next := stays + [Stay(house, g.stays[i].household, Span(Some(date), None))];
      StaysChained(next) && HousesExclusive(next)
  {
    var h := g.stays[i].household;
    var stays := g.stays[i := g.stays[i].(span := Closed(g.stays[i].span, date))];
    ClosingStaysKeeps(g.stays, stays);
    BeginStayKeeps(stays, Stay(house, h, Span(Some(date), None)), i);
    assert !Taken(stays, house);
    NewTenantKeeps(stays, Stay(house, h, Span(Some(date), None)));
  }

  lemma HouseholdMoveKeeps(g: Registry, h: nat, house: string, date: nat)
    requires Inv(g) && HouseholdMove(g, h, house, date).Ok?
    ensures Inv(HouseholdMove(g, h, house, date).value)
  {
    var i := CurrentStay(g.stays, h).value;
    var t := HouseholdMove(g, h, house, date).value;
    StayMovesOn(g, i, house, date);
    MoveRowsKeeps(g.residencies, i, |g.stays|, date, |g.residencies|);
    forall k | 0 <= k < |t.residencies|
      ensures t.residencies[k].resident < |t.residents| && t.residencies[k].stay < |t.stays|
      ensures IsCurrent(t.residencies[k].span) ==>
        IsCurrent(t.stays[t.residencies[k].stay].span) && t.residents[t.residencies[k].resident]
    {
    }
  }

  lemma HouseholdDeactivateKeeps(g: Registry, h: nat, today: nat)
    requires Inv(g) && HouseholdDeactivate(g, h, today).Ok?
    ensures Inv(HouseholdDeactivate(g, h, today).value)
  {
    var t := HouseholdDeactivate(g, h, today).value;
    ClosingStaysKeeps(g.stays, t.stays);
    LeavingKeeps(g.residencies, t.residencies);
  }

  lemma ResidentCreateKeeps(g: Registry, household: Option<nat>, start: Option<nat>, end: Option<nat>, today: nat)
    requires Inv(g) && ResidentCreate(g, household, start, end, today).Ok?
    ensures Inv(ResidentCreate(g, household, start, end, today).value)
  {
    if household.Some? {
      var span := Span(Some(if start.Some? then start.value else today), end);
      FirstResidencyKeeps(g, CurrentStay(g.stays, household.value).value, span);
    }
  }

  lemma ResidentMoveKeeps(g: Registry, r: nat, household: nat, date: nat)
    requires Inv(g) && ResidentMove(g, r, household, date).Ok?
    ensures Inv(ResidentMove(g, r, household, date).value)
  {
    MoveOneKeeps(g.residencies, CurrentResidency(g.residencies, r).value, CurrentStay(g.stays, household).value, date);
  }

  lemma ResidentDeactivateKeeps(g: Registry, r: nat, today: nat)
    requires Inv(g) && ResidentDeactivate(g, r, today).Ok?
    ensures Inv(ResidentDeactivate(g, r, today).value)
  {
    var t := ResidentDeactivate(g, r, today).value;
    LeavingKeeps(g.residencies, t.residencies);
    forall i | 0 <= i < |t.residencies| && IsCurrent(t.residencies[i].span)
      ensures t.residents[t.residencies[i].resident]
    {
      assert t.residencies[i] == g.residencies[i];
    }
  }

  lemma StepKeeps(g: Registry, op: Op)
    requires Inv(g)
    ensures Inv(Step(g, op))
  {
    if Try(g, op).Ok? {
      match op
      case CreateHousehold(house, start, end, active, today) => HouseholdCreateKeeps(g, house, start, end, active, today);
      case MoveHousehold(h, house, date) => HouseholdMoveKeeps(g, h, house, date);
      case DeactivateHousehold(h, today) => HouseholdDeactivateKeeps(g, h, today);
      case CreateResident(h, start, end, today) => ResidentCreateKeeps(g, h, start, end, today);
      case MoveResident(r, h, date) => ResidentMoveKeeps(g, r, h, date);
      case DeactivateResident(r, today) => ResidentDeactivateKeeps(g, r, today);
    }
  }

  lemma {:induction false} RunKeeps(ops: seq<Op>)
    ensures Inv(Run(ops))
  {
    if ops != [] {
      RunKeeps(ops[..|ops| - 1]);
      StepKeeps(Run(ops[..|ops| - 1]), ops[|ops| - 1]);
    }
  }

  // ----- What every run guarantees -----

  /** A house and a household each have at most one current stay. */
  lemma {:induction false} OneCurrentStay(ops: seq<Op>, i: nat, j: nat)
    requires i < |Run(ops).stays| && j < |Run(ops).stays|
    requires IsCurrent(Run(ops).stays[i].span) && IsCurrent(Run(ops).stays[j].span)
    requires Run(ops).stays[i].house == Run(ops).stays[j].house || Run(ops).stays[i].household == Run(ops).stays[j].household
    ensures i == j
  {
    RunKeeps(ops);
  }

  /** A resident has at most one current residency. */
  lemma {:induction false} OneCurrentResidency(ops: seq<Op>, i: nat, j: nat)
    requires i < |Run(ops).residencies| && j < |Run(ops).residencies|
    requires IsCurrent(Run(ops).residencies[i].span) && IsCurrent(Run(ops).residencies[j].span)
    requires Run(ops).residencies[i].resident == Run(ops).residencies[j].resident
    ensures i == j
  {
    RunKeeps(ops);
  }

  /** Whoever lives somewhere now is an active resident of a current stay. */
  lemma {:induction false} ResidentsLiveInCurrentStays(ops: seq<Op>, i: nat)
    requires i < |Run(ops).residencies| && IsCurrent(Run(ops).residencies[i].span)
    ensures var g := Run(ops);
      var r := g.residencies[i];
      r.stay < |g.stays| && IsCurrent(g.stays[r.stay].span) && r.resident < |g.residents| && g.residents[r.resident]
  {
    RunKeeps(ops);
  }

  /** Two stays of one household with none in between: the later begins the day the earlier ends, and every
      period that has ended has at least one day. */
  lemma {:induction false} StaysAreContiguous(ops: seq<Op>, i: nat, j: nat)
    requires i < j < |Run(ops).stays| && Run(ops).stays[i].household == Run(ops).stays[j].household
    requires forall k :: i < k < j ==> Run(ops).stays[k].household != Run(ops).stays[j].household
    ensures var s, t := Run(ops).stays[i].span, Run(ops).stays[j].span;
      s.end.Some? && s.end == t.start && Ordered(s)
  {
    RunKeeps(ops);
    LinkIsAdjacent(Run(ops).stays, i, j);
  }

  lemma LinkIsAdjacent(stays: seq<Stay>, i: nat, j: nat)
    requires StaysChained(stays) && i < j < |stays| && stays[i].household == stays[j].household
    requires forall k :: i < k < j ==> stays[k].household != stays[j].household
    ensures stays[i].span.end == stays[j].span.start
  {
    assert StayContinues(stays, j) && Precedes(stays[i].span, stays[j].span) && Ordered(stays[i].span);
    var k :| 0 <= k < j && stays[k].household == stays[j].household && stays[k].span.end == stays[j].span.start;
  }

  /** The same for the residencies of one resident. */
  lemma {:induction false} ResidenciesAreContiguous(ops: seq<Op>, i: nat, j: nat)
    requires i < j < |Run(ops).residencies| && Run(ops).residencies[i].resident == Run(ops).residencies[j].resident
    requires forall k :: i < k < j ==> Run(ops).residencies[k].resident != Run(ops).residencies[j].resident
    ensures Run(ops).residencies[i].span.end.Some? && Run(ops).residencies[i].span.end == Run(ops).residencies[j].span.start
  {
    RunKeeps(ops);
    LinkedResidencyIsAdjacent(Run(ops).residencies, i, j);
  }

  lemma LinkedResidencyIsAdjacent(rows: seq<Residency>, i: nat, j: nat)
    requires ResidenciesChained(rows) && i < j < |rows| && rows[i].resident == rows[j].resident
    requires forall k :: i < k < j ==> rows[k].resident != rows[j].resident
    ensures rows[i].span.end == rows[j].span.start
  {
    assert ResidencyContinues(rows, j) && Precedes(rows[i].span, rows[j].span) && Ordered(rows[i].span);
    var k :| 0 <= k < j && rows[k].resident == rows[j].resident && rows[k].span.end == rows[j].span.start;
  }

  predicate Covers(s: Span, day: nat) {
    s.start.Some? && s.start.value <= day && (s.end.None? || day < s.end.value)
  }

  /** On any day at most one household lives in a house. */
  lemma {:induction false} OneHouseholdPerDay(ops: seq<Op>, i: nat, j: nat, day: nat)
    requires i < |Run(ops).stays| && j < |Run(ops).stays| && Run(ops).stays[i].house == Run(ops).stays[j].house
    requires Covers(Run(ops).stays[i].span, day) && Covers(Run(ops).stays[j].span, day)
    ensures i == j
  {
    RunKeeps(ops);
  }

  /** A move takes every current resident of the household along, and nobody else. */
  lemma MoveTakesEveryone(g: Registry, h: nat, house: string, date: nat, r: nat)
    requires Inv(g) && HouseholdMove(g, h, house, date).Ok?
    ensures var t := HouseholdMove(g, h, house, date).value;
      SomeoneLivesIn(t.residencies, |t.residencies|, r, |g.stays|)
      <==> SomeoneLivesIn(g.residencies, |g.residencies|, r, CurrentStay(g.stays, h).value)
  {
    var from := CurrentStay(g.stays, h).value;
    AllRowsArrive(g.residencies, from, |g.stays|, date, |g.residencies|, r);
    MoveRowsKeeps(g.residencies, from, |g.stays|, date, |g.residencies|);
  }

  lemma {:induction false} AllRowsArrive(rows: seq<Residency>, from: nat, to: nat, date: nat, n: nat, r: nat)
    requires n <= |rows|
    ensures SomeoneLivesIn(rows, n, r, from) ==> ArrivedIn(MoveRows(rows, from, to, date, n), |rows|, r, to)
  {
    if n > 0 {
      AllRowsArrive(rows, from, to, date, n - 1, r);
      MoveRowsLeavesRest(rows, from, to, date, n - 1);
      var before := MoveRows(rows, from, to, date, n - 1);
      var moved := MoveRows(rows, from, to, date, n);
      if ArrivedIn(before, |rows|, r, to) {
        var i :| |rows| <= i < |before| && before[i].resident == r && LivesIn(before[i], to);
        assert moved[i] == before[i];
      }
      if LivesIn(rows[n - 1], from) && rows[n - 1].resident == r {
        assert moved[|before|] == Residency(r, to, Span(Some(date), None));
      }
    }
  }

  predicate ArrivedIn(rows: seq<Residency>, first: nat, r: nat, stay: nat) {
    exists i :: first <= i < |rows| && rows[i].resident == r && LivesIn(rows[i], stay)
  }

  lemma {:induction false} MoveRowsLeavesRest(rows: seq<Residency>, from: nat, to: nat, date: nat, n: nat)
    requires n <= |rows|
    ensures forall i :: n <= i < |rows| ==> MoveRows(rows, from, to, date, n)[i] == rows[i]
  {
    if n > 0 {
      MoveRowsLeavesRest(rows, from, to, date, n - 1);
    }
  }
}
