/** Day by day, who lives where after each operation of the registry, and exactly when the operation is accepted. */
module Residence {
  import opened Results
  import opened Occupancy

  /** The period holds on the day; one without a start held since ever. */
  predicate On(s: Span, day: nat) {
    (s.start.Some? ==> s.start.value <= day) && (s.end.Some? ==> day < s.end.value)
  }

  /** On the day the resident belongs to the stay. */
  predicate Lives(rows: seq<Residency>, r: nat, stay: nat, day: nat) {
    exists i :: 0 <= i < |rows| && rows[i].resident == r && rows[i].stay == stay && On(rows[i].span, day)
  }

  /** On the day the household has the house. */
  predicate Houses(stays: seq<Stay>, h: nat, house: string, day: nat) {
    exists i :: 0 <= i < |stays| && stays[i].household == h && stays[i].house == house && On(stays[i].span, day)
  }

  predicate StartsBefore(s: Span, date: nat) {
    s.start.Some? ==> s.start.value < date
  }

  /** Stay `i` is where the household is now. */
  predicate NowAt(g: Registry, h: nat, i: nat) {
    && h < |g.households| && g.households[h]
    && i < |g.stays| && g.stays[i].household == h && g.stays[i].span.end.None?
  }

  /** Row `i` says where the resident lives now. */
  predicate NowIn(g: Registry, r: nat, i: nat) {
    && r < |g.residents| && g.residents[r]
    && i < |g.residencies| && g.residencies[i].resident == r && g.residencies[i].span.end.None?
  }

  lemma NowAtFound(g: Registry, h: nat, i: nat)
    requires Inv(g) && NowAt(g, h, i)
    ensures CurrentStay(g.stays, h) == Some(i)
  {
  }

  lemma NowInFound(g: Registry, r: nat, i: nat)
    requires Inv(g) && NowIn(g, r, i)
    ensures CurrentResidency(g.residencies, r) == Some(i)
  {
  }

  // ----- Closing a period -----

  /** Every other period of the household is over when the current one begins. */
  lemma OthersOver(g: Registry, h: nat, i: nat, k: nat, day: nat)
    requires Inv(g) && NowAt(g, h, i) && k < |g.stays| && k != i && g.stays[k].household == h
    requires On(g.stays[k].span, day)
    ensures g.stays[i].span.start.Some? && day < g.stays[i].span.start.value
  {
  }

  lemma OtherRowsOver(g: Registry, r: nat, i: nat, k: nat, day: nat)
    requires Inv(g) && NowIn(g, r, i) && k < |g.residencies| && k != i && g.residencies[k].resident == r
    requires On(g.residencies[k].span, day)
    ensures g.residencies[i].span.start.Some? && day < g.residencies[i].span.start.value
  {
  }

  /** With the current period closed, the days before the date are as they were and the later ones are free. */
  lemma ClosedStayDays(g: Registry, h: nat, i: nat, date: nat, x: nat, house: string, day: nat)
    requires Inv(g) && NowAt(g, h, i) && StartsBefore(g.stays[i].span, date)
    ensures Houses(g.stays[i := g.stays[i].(span := Closed(g.stays[i].span, date))], x, house, day) <==>
      Houses(g.stays, x, house, day) && (x == h ==> day < date)
  {
    var t := g.stays[i := g.stays[i].(span := Closed(g.stays[i].span, date))];
    if k :| 0 <= k < |t| && t[k].household == x && t[k].house == house && On(t[k].span, day) {
      assert On(g.stays[k].span, day) && g.stays[k].household == x && g.stays[k].house == house;
      if x == h && k != i {
        OthersOver(g, h, i, k, day);
      }
    }
    if Houses(g.stays, x, house, day) && (x == h ==> day < date) {
      var k :| 0 <= k < |g.stays| && g.stays[k].household == x && g.stays[k].house == house && On(g.stays[k].span, day);
      assert t[k].household == x && t[k].house == house && On(t[k].span, day);
    }
  }

  lemma ClosedRowDays(g: Registry, r: nat, i: nat, date: nat, x: nat, stay: nat, day: nat)
    requires Inv(g) && NowIn(g, r, i) && StartsBefore(g.residencies[i].span, date)
    ensures Lives(g.residencies[i := g.residencies[i].(span := Closed(g.residencies[i].span, date))], x, stay, day) <==>
      Lives(g.residencies, x, stay, day) && (x == r ==> day < date)
  {
    var rows := g.residencies;
    var t := rows[i := rows[i].(span := Closed(rows[i].span, date))];
    if k :| 0 <= k < |t| && t[k].resident == x && t[k].stay == stay && On(t[k].span, day) {
      assert On(rows[k].span, day) && rows[k].resident == x && rows[k].stay == stay;
      if x == r && k != i {
        OtherRowsOver(g, r, i, k, day);
      }
    }
    if Lives(rows, x, stay, day) && (x == r ==> day < date) {
      var k :| 0 <= k < |rows| && rows[k].resident == x && rows[k].stay == stay && On(rows[k].span, day);
      assert t[k].resident == x && t[k].stay == stay && On(t[k].span, day);
    }
  }

  lemma AddedRowDays(rows: seq<Residency>, row: Residency, x: nat, stay: nat, day: nat)
    ensures Lives(rows + [row], x, stay, day) <==>
      Lives(rows, x, stay, day) || (row.resident == x && row.stay == stay && On(row.span, day))
  {
    var t := rows + [row];
    if k :| 0 <= k < |rows| && rows[k].resident == x && rows[k].stay == stay && On(rows[k].span, day) {
      assert t[k] == rows[k];
    }
    assert t[|rows|] == row;
  }

  lemma AddedStayDays(stays: seq<Stay>, s: Stay, x: nat, house: string, day: nat)
    ensures Houses(stays + [s], x, house, day) <==>
      Houses(stays, x, house, day) || (s.household == x && s.house == house && On(s.span, day))
  {
    var t := stays + [s];
    if k :| 0 <= k < |stays| && stays[k].household == x && stays[k].house == house && On(stays[k].span, day) {
      assert t[k] == stays[k];
    }
    assert t[|stays|] == s;
  }

  // ----- Moving a resident -----

  /** A resident who lives somewhere, since before the date, can be moved to any household that lives somewhere. */
  ghost predicate MayMoveResident(g: Registry, r: nat, h: nat, date: nat) {
    (exists i: nat :: NowAt(g, h, i)) && exists i: nat :: NowIn(g, r, i) && StartsBefore(g.residencies[i].span, date)
  }

  /** A move of a resident is accepted exactly if there is a place to leave and one to arrive. */
  lemma ResidentMoveExactly(g: Registry, r: nat, h: nat, date: nat)
    requires Inv(g)
    ensures ResidentMove(g, r, h, date).Ok? <==> MayMoveResident(g, r, h, date)
  {
    if i: nat :| NowAt(g, h, i) {
      NowAtFound(g, h, i);
    }
    if i: nat :| NowIn(g, r, i) && StartsBefore(g.residencies[i].span, date) {
      NowInFound(g, r, i);
    }
    if ResidentMove(g, r, h, date).Ok? {
      assert NowAt(g, h, CurrentStay(g.stays, h).value);
      assert NowIn(g, r, CurrentResidency(g.residencies, r).value);
    }
  }

  /** From the date on the resident lives in the current stay of the target household and nowhere else; every earlier
      day, and everybody else, is as before. */
  lemma ResidentArrives(g: Registry, r: nat, h: nat, date: nat, to: nat, x: nat, stay: nat, day: nat)
    requires Inv(g) && ResidentMove(g, r, h, date).Ok? && NowAt(g, h, to)
    ensures var t := ResidentMove(g, r, h, date).value;
      && t == g.(residencies := t.residencies)
      && (Lives(t.residencies, x, stay, day) <==>
            if x == r && date <= day then stay == to else Lives(g.residencies, x, stay, day))
  {
    var i := CurrentResidency(g.residencies, r).value;
    NowAtFound(g, h, to);
    ClosedRowDays(g, r, i, date, x, stay, day);
    AddedRowDays(g.residencies[i := g.residencies[i].(span := Closed(g.residencies[i].span, date))],
                 Residency(r, to, Span(Some(date), None)), x, stay, day);
  }

  // ----- Moving a household -----

  /** No other stay has the house on the date or later: none is current, and none of a known start ends after it. */
  predicate FreeFrom(stays: seq<Stay>, house: string, date: nat, but: nat) {
    forall k :: 0 <= k < |stays| && k != but && stays[k].house == house ==>
      stays[k].span.end.Some? && (stays[k].span.start.Some? ==> stays[k].span.end.value <= date)
  }

  /** Everybody living in the stay has done so since before the date. */
  predicate AllSince(rows: seq<Residency>, stay: nat, date: nat) {
    forall k :: 0 <= k < |rows| && rows[k].stay == stay && rows[k].span.end.None? ==> StartsBefore(rows[k].span, date)
  }

  ghost predicate MayMoveHousehold(g: Registry, h: nat, house: string, date: nat) {
    && house != ""
    && exists i: nat :: NowAt(g, h, i) && StartsBefore(g.stays[i].span, date) && FreeFrom(g.stays, house, date, i)
         && AllSince(g.residencies, i, date)
  }

  lemma FreeMeans(g: Registry, h: nat, i: nat, house: string, date: nat)
    requires Inv(g) && NowAt(g, h, i)
    ensures var stays := g.stays[i := g.stays[i].(span := Closed(g.stays[i].span, date))];
      FreeFrom(g.stays, house, date, i) <==>
        !TakenByOther(g.stays, house, h) && !Clashes(stays, house, Span(Some(date), None))
  {
    var stays := g.stays[i := g.stays[i].(span := Closed(g.stays[i].span, date))];
    forall k | 0 <= k < |stays| && k != i && IsCurrent(stays[k].span)
      ensures stays[k].household != h
    {
      if g.stays[k].household == h {
        NowAtFound(g, h, k);
        NowAtFound(g, h, i);
      }
    }
    if !TakenByOther(g.stays, house, h) && !Clashes(stays, house, Span(Some(date), None)) {
      forall k | 0 <= k < |g.stays| && k != i && g.stays[k].house == house
        ensures g.stays[k].span.end.Some? && (g.stays[k].span.start.Some? ==> g.stays[k].span.end.value <= date)
      {
        assert stays[k] == g.stays[k] && !Overlaps(stays[k].span, Span(Some(date), None));
      }
    }
  }

  /** A move of a household is accepted exactly to a named house that is free from the date on, once the household and
      all its people have been where they are for a day. */
  lemma HouseholdMoveExactly(g: Registry, h: nat, house: string, date: nat)
    requires Inv(g)
    ensures HouseholdMove(g, h, house, date).Ok? <==> MayMoveHousehold(g, h, house, date)
  {
    if i: nat :| NowAt(g, h, i) {
      NowAtFound(g, h, i);
      FreeMeans(g, h, i, house, date);
      assert AllSince(g.residencies, i, date) <==> !CannotClose(g.residencies, i, date);
      forall k: nat | NowAt(g, h, k)
        ensures k == i
      {
        NowAtFound(g, h, k);
      }
    }
    if HouseholdMove(g, h, house, date).Ok? {
      assert NowAt(g, h, CurrentStay(g.stays, h).value);
    }
  }

  /** From the date on the household has the new house and no other; every earlier day, and every other household, is as
      before. */
  lemma HouseholdArrives(g: Registry, h: nat, house: string, date: nat, x: nat, at: string, day: nat)
    requires Inv(g) && HouseholdMove(g, h, house, date).Ok?
    ensures var t := HouseholdMove(g, h, house, date).value;
      && t.households == g.households && t.residents == g.residents
      && (Houses(t.stays, x, at, day) <==>
            if x == h && date <= day then at == house else Houses(g.stays, x, at, day))
  {
    var i := CurrentStay(g.stays, h).value;
    ClosedStayDays(g, h, i, date, x, at, day);
    AddedStayDays(g.stays[i := g.stays[i].(span := Closed(g.stays[i].span, date))],
                  Stay(house, h, Span(Some(date), None)), x, at, day);
  }

  /** The resident lives in the stay at present. */
  predicate Current(rows: seq<Residency>, r: nat, stay: nat) {
    SomeoneLivesIn(rows, |rows|, r, stay)
  }

  lemma MovedRowDays(g: Registry, moved: seq<Residency>, from: nat, to: nat, date: nat, x: nat, stay: nat, day: nat)
    requires Inv(g) && to == |g.stays| && |g.residencies| <= |moved| && AllSince(g.residencies, from, date)
    requires RowsMoved(g.residencies, moved, from, to, date, |g.residencies|)
    requires Current(g.residencies, x, from) ==> ArrivedIn(moved, |g.residencies|, x, to)
    ensures Lives(moved, x, stay, day) <==>
      if Current(g.residencies, x, from) && date <= day then stay == to else Lives(g.residencies, x, stay, day)
  {
    var rows := g.residencies;
    if k :| 0 <= k < |moved| && moved[k].resident == x && moved[k].stay == stay && On(moved[k].span, day) {
      if k < |rows| {
        assert rows[k].resident == x && rows[k].stay == stay && On(rows[k].span, day);
        if Current(rows, x, from) && date <= day {
          var c :| 0 <= c < |rows| && rows[c].resident == x && LivesIn(rows[c], from);
          OtherRowsOver(g, x, c, k, day);
        }
      }
    }
    if Current(rows, x, from) && date <= day && stay == to {
      var k :| |rows| <= k < |moved| && moved[k].resident == x && LivesIn(moved[k], to);
      assert On(moved[k].span, day);
    }
    if Lives(rows, x, stay, day) && !(Current(rows, x, from) && date <= day) {
      var k :| 0 <= k < |rows| && rows[k].resident == x && rows[k].stay == stay && On(rows[k].span, day);
      assert moved[k].resident == x && moved[k].stay == stay;
      assert LivesIn(rows[k], from) ==> Current(rows, x, from);
      assert On(moved[k].span, day);
    }
  }

  /** From the date on everybody who lives with the household lives in its new stay; every earlier day, and everybody
      else, is as before. */
  lemma PeopleArrive(g: Registry, h: nat, house: string, date: nat, from: nat, x: nat, stay: nat, day: nat)
    requires Inv(g) && HouseholdMove(g, h, house, date).Ok? && NowAt(g, h, from)
    ensures var t := HouseholdMove(g, h, house, date).value;
      && |t.stays| == |g.stays| + 1 && t.stays[|g.stays|] == Stay(house, h, Span(Some(date), None))
      && (Lives(t.residencies, x, stay, day) <==>
            if Current(g.residencies, x, from) && date <= day then stay == |g.stays|
            else Lives(g.residencies, x, stay, day))
  {
    NowAtFound(g, h, from);
    MoveRowsKeeps(g.residencies, from, |g.stays|, date, |g.residencies|);
    AllRowsArrive(g.residencies, from, |g.stays|, date, |g.residencies|, x);
    MovedRowDays(g, HouseholdMove(g, h, house, date).value.residencies, from, |g.stays|, date, x, stay, day);
  }

  // ----- Deactivating -----

  /** A period closed today, or a day after it began if that is later. */
  ghost predicate EndsToday(was: Span, now: Span, today: nat) {
    && was.end.None? && now.start == was.start && now.end.Some?
    && (was.start.None? ==> now.end.value == today)
    && (was.start.Some? ==>
          && now.end.value >= today && now.end.value > was.start.value
          && (now.end.value == today || now.end.value == was.start.value + 1))
  }

  /** Deactivating a resident is accepted exactly while the resident is active. Then the current residency, if any,
      ends; no other row changes, and the resident can be moved no more. */
  lemma ResidentDeactivation(g: Registry, r: nat, today: nat)
    ensures ResidentDeactivate(g, r, today).Ok? <==> r < |g.residents| && g.residents[r]
    ensures ResidentDeactivate(g, r, today).Ok? ==>
      var t := ResidentDeactivate(g, r, today).value;
      && t.households == g.households && t.stays == g.stays && t.residents == g.residents[r := false]
      && |t.residencies| == |g.residencies|
      && (forall i :: 0 <= i < |g.residencies| ==>
            var was, now := g.residencies[i], t.residencies[i];
            && now.resident == was.resident && now.stay == was.stay
            && if was.resident == r && was.span.end.None? then EndsToday(was.span, now.span, today) else now == was)
      && (forall h: nat, date: nat :: ResidentMove(t, r, h, date).Err?)
      && ResidentDeactivate(t, r, today) == Err(NotFound)
  {
  }

  /** Deactivating a household is accepted exactly while it is active. Then its current stay ends, and so does every
      current residency in it; no other row changes. It takes no resident and cannot be moved any more. */
  lemma HouseholdDeactivation(g: Registry, h: nat, today: nat)
    ensures HouseholdDeactivate(g, h, today).Ok? <==> h < |g.households| && g.households[h]
    ensures HouseholdDeactivate(g, h, today).Ok? ==>
      var t := HouseholdDeactivate(g, h, today).value;
      && t.households == g.households[h := false] && t.residents == g.residents
      && |t.stays| == |g.stays| && |t.residencies| == |g.residencies|
      && (forall i :: 0 <= i < |g.stays| ==>
            var was, now := g.stays[i], t.stays[i];
            && now.household == was.household && now.house == was.house
            && if was.household == h && was.span.end.None? then EndsToday(was.span, now.span, today) else now == was)
      && (forall i :: 0 <= i < |g.residencies| ==>
            var was, now := g.residencies[i], t.residencies[i];
            && now.resident == was.resident && now.stay == was.stay
            && if was.span.end.None? && was.stay < |g.stays| && g.stays[was.stay].household == h
                  && g.stays[was.stay].span.end.None?
               then EndsToday(was.span, now.span, today) else now == was)
  {
  }

  /** Nothing is left of a deactivated household: no current stay, no current resident, no way to move or to join it. */
  lemma NothingLeft(g: Registry, h: nat, today: nat, t: Registry)
    requires Inv(g) && HouseholdDeactivate(g, h, today) == Ok(t)
    ensures forall i :: 0 <= i < |t.stays| && t.stays[i].household == h ==> t.stays[i].span.end.Some?
    ensures forall i :: 0 <= i < |t.residencies| && t.residencies[i].span.end.None? ==>
      t.residencies[i].stay < |t.stays| && t.stays[t.residencies[i].stay].household != h
    ensures forall house: string, date: nat :: HouseholdMove(t, h, house, date).Err?
    ensures forall r: nat, date: nat :: ResidentMove(t, r, h, date).Err?
    ensures forall start: Option<nat>, end: Option<nat>, day: nat :: ResidentCreate(t, Some(h), start, end, day).Err?
  {
    HouseholdDeactivation(g, h, today);
    HouseholdDeactivateKeeps(g, h, today);
  }

  /** The day a period closed today ends. */
  function EndDay(s: Span, today: nat): nat {
    match s.start
    case None => today
    case Some(first) => if first < today then today else first + 1
  }

  /** A deactivated resident lives nowhere from the day the residency ends; earlier days, and everybody else's, are as
      before. */
  lemma ResidentLeaves(g: Registry, r: nat, today: nat, i: nat, x: nat, stay: nat, day: nat)
    requires Inv(g) && NowIn(g, r, i)
    ensures var t := ResidentDeactivate(g, r, today);
      t.Ok? && (Lives(t.value.residencies, x, stay, day) <==>
                  Lives(g.residencies, x, stay, day) && (x == r ==> day < EndDay(g.residencies[i].span, today)))
  {
    var rows := g.residencies;
    var t := ResidentDeactivate(g, r, today).value.residencies;
    var date := EndDay(rows[i].span, today);
    forall k | 0 <= k < |rows| && rows[k].resident == r && IsCurrent(rows[k].span)
      ensures k == i
    {
      NowInFound(g, r, k);
      NowInFound(g, r, i);
    }
    assert t == rows[i := rows[i].(span := Closed(rows[i].span, date))];
    ClosedRowDays(g, r, i, date, x, stay, day);
  }

  /** A deactivated household has no house from the day its stay ends; earlier days, and every other household's, are as
      before. */
  lemma HouseholdLeaves(g: Registry, h: nat, today: nat, i: nat, x: nat, house: string, day: nat)
    requires Inv(g) && NowAt(g, h, i)
    ensures var t := HouseholdDeactivate(g, h, today);
      t.Ok? && (Houses(t.value.stays, x, house, day) <==>
                  Houses(g.stays, x, house, day) && (x == h ==> day < EndDay(g.stays[i].span, today)))
  {
    var t := HouseholdDeactivate(g, h, today).value.stays;
    var date := EndDay(g.stays[i].span, today);
    forall k | 0 <= k < |g.stays| && g.stays[k].household == h && IsCurrent(g.stays[k].span)
      ensures k == i
    {
      NowAtFound(g, h, k);
      NowAtFound(g, h, i);
    }
    assert t == g.stays[i := g.stays[i].(span := Closed(g.stays[i].span, date))];
    ClosedStayDays(g, h, i, date, x, house, day);
  }

  // ----- Creating -----

  /** A household is created exactly with a named house that nobody has now nor at any time of the given period. It
      and its head, a resident of its own, have the house for that period; everybody else's days are as before. */
  lemma HouseholdBegins(g: Registry, house: string, start: Option<nat>, end: Option<nat>, active: bool, today: nat)
    requires Inv(g)
    ensures var from := if start.Some? then start.value else today;
      HouseholdCreate(g, house, start, end, active, today).Ok? <==>
        && house != "" && (end.Some? ==> from < end.value)
        && forall k :: 0 <= k < |g.stays| && g.stays[k].house == house ==>
             g.stays[k].span.end.Some?
             && (g.stays[k].span.start.Some? ==>
                   g.stays[k].span.end.value <= from || (end.Some? && end.value <= g.stays[k].span.start.value))
    ensures HouseholdCreate(g, house, start, end, active, today).Ok? ==>
      var t := HouseholdCreate(g, house, start, end, active, today).value;
      var span := Span(Some(if start.Some? then start.value else today), end);
      && t.households == g.households + [active] && t.residents == g.residents + [true]
      && t.stays == g.stays + [Stay(house, |g.households|, span)]
      && t.residencies == g.residencies + [Residency(|g.residents|, |g.stays|, span)]
  {
    var span := Span(Some(if start.Some? then start.value else today), end);
    forall k | 0 <= k < |g.stays| && g.stays[k].house == house
      ensures !(IsCurrent(g.stays[k].span) || Overlaps(g.stays[k].span, span)) <==>
        g.stays[k].span.end.Some?
        && (g.stays[k].span.start.Some? ==>
              g.stays[k].span.end.value <= span.start.value || (end.Some? && end.value <= g.stays[k].span.start.value))
    {
    }
    if HouseholdCreate(g, house, start, end, active, today).Ok? {
      forall k | 0 <= k < |g.stays| && g.stays[k].house == house
        ensures !IsCurrent(g.stays[k].span) && !Overlaps(g.stays[k].span, span)
      {
      }
    }
  }

  /** A resident is created without a household, or with one that lives somewhere now and for a period of at least a
      day. The new resident lives in its current stay for that period; everybody else's days are as before. */
  lemma ResidentBegins(g: Registry, h: nat, start: Option<nat>, end: Option<nat>, today: nat, x: nat, stay: nat,
                       day: nat)
    requires Inv(g)
    ensures var from := if start.Some? then start.value else today;
      ResidentCreate(g, Some(h), start, end, today).Ok? <==>
        (exists i: nat :: NowAt(g, h, i)) && (end.Some? ==> from < end.value)
    ensures ResidentCreate(g, None, start, end, today) == Ok(g.(residents := g.residents + [true]))
    ensures ResidentCreate(g, Some(h), start, end, today).Ok? ==>
      var t := ResidentCreate(g, Some(h), start, end, today).value;
      var span := Span(Some(if start.Some? then start.value else today), end);
      && t == g.(residents := g.residents + [true], residencies := t.residencies)
      && (Lives(t.residencies, x, stay, day) <==>
            if x == |g.residents| then NowAt(g, h, stay) && On(span, day) else Lives(g.residencies, x, stay, day))
  {
    if i: nat :| NowAt(g, h, i) {
      NowAtFound(g, h, i);
    }
    if ResidentCreate(g, Some(h), start, end, today).Ok? {
      var c := CurrentStay(g.stays, h).value;
      var span := Span(Some(if start.Some? then start.value else today), end);
      assert NowAt(g, h, c);
      AddedRowDays(g.residencies, Residency(|g.residents|, c, span), x, stay, day);
      if NowAt(g, h, stay) {
        NowAtFound(g, h, stay);
      }
      assert x == |g.residents| ==> !Lives(g.residencies, x, stay, day);
    }
  }

  // ----- Refusals -----

  predicate ActiveAt(rows: seq<bool>, i: nat) {
    i < |rows| && rows[i]
  }

  /** The household is nowhere now. */
  ghost predicate Nowhere(g: Registry, h: nat) {
    forall i: nat :: !NowAt(g, h, i)
  }

  /** Why a period cannot be closed on the date. */
  predicate CloseReason(s: Span, date: nat, e: RegistryError) {
    && s.start.Some?
    && match e
       case BeforeStart => date < s.start.value
       case BadDates => date == s.start.value
       case _ => false
  }

  /** Why a household cannot have the house for the period: somebody has it now, or had or will have it then. */
  predicate HouseReason(g: Registry, house: string, span: Span, but: nat, e: RegistryError) {
    exists k :: 0 <= k < |g.stays| && k != but && g.stays[k].house == house
      && match e
         case OccupiedHouse => IsCurrent(g.stays[k].span)
         case Overlap => Occupancy.Overlaps(g.stays[k].span, span)
         case _ => false
  }

  ghost predicate RegistryReason(g: Registry, op: Op, e: RegistryError) {
    match op
    case CreateHousehold(house, start, end, _, today) =>
      var from := if start.Some? then start.value else today;
      || (e == NumberRequired && house == "")
      || (e == BadDates && end.Some? && end.value <= from)
      || HouseReason(g, house, Span(Some(from), end), |g.stays|, e)
    case MoveHousehold(h, house, date) =>
      || (e == NumberRequired && house == "")
      || (e == NoCurrentOccupancy && Nowhere(g, h))
      || exists i: nat ::
           NowAt(g, h, i)
           && (CloseReason(g.stays[i].span, date, e) || HouseReason(g, house, Span(Some(date), None), i, e)
               || (e == BadDates && !AllSince(g.residencies, i, date)))
    case DeactivateHousehold(h, _) => e == NotFound && !ActiveAt(g.households, h)
    case CreateResident(of, start, end, today) =>
      && of.Some?
      && (|| (e == NotFound && !ActiveAt(g.households, of.value))
          || (e == NoCurrentOccupancy && Nowhere(g, of.value))
          || (e == BadDates && end.Some? && end.value <= if start.Some? then start.value else today))
    case MoveResident(r, h, date) =>
      || (e == NotFound && (!ActiveAt(g.households, h) || !ActiveAt(g.residents, r) || forall i: nat :: !NowIn(g, r, i)))
      || (e == NoCurrentOccupancy && Nowhere(g, h))
      || exists i: nat :: NowIn(g, r, i) && CloseReason(g.residencies[i].span, date, e)
    case DeactivateResident(r, _) => e == NotFound && !ActiveAt(g.residents, r)
  }

  lemma MoveRefusalTrue(g: Registry, h: nat, house: string, date: nat, e: RegistryError)
    requires Inv(g) && HouseholdMove(g, h, house, date) == Err(e)
    ensures RegistryReason(g, MoveHousehold(h, house, date), e)
  {
    var c := CurrentStay(g.stays, h);
    if c.Some? && ActiveAt(g.households, h) {
      var i := c.value;
      assert NowAt(g, h, i);
      FreeMeans(g, h, i, house, date);
      if e == OccupiedHouse || e == Overlap {
        assert HouseReason(g, house, Span(Some(date), None), i, e);
      }
    }
  }

  lemma ResidentRefusalTrue(g: Registry, r: nat, h: nat, date: nat, e: RegistryError)
    requires Inv(g) && ResidentMove(g, r, h, date) == Err(e)
    ensures RegistryReason(g, MoveResident(r, h, date), e)
  {
    var c := CurrentResidency(g.residencies, r);
    if c.Some? && ActiveAt(g.residents, r) {
      assert NowIn(g, r, c.value);
    }
  }

  /** Every refusal of the registry names a reason that holds, over all runs. */
  lemma {:induction false} RegistryRefusalsTrue(ops: seq<Op>, op: Op, e: RegistryError)
    requires Try(Run(ops), op) == Err(e)
    ensures RegistryReason(Run(ops), op, e)
  {
    RunKeeps(ops);
    match op
    case MoveHousehold(h, house, date) => MoveRefusalTrue(Run(ops), h, house, date, e);
    case MoveResident(r, h, date) => ResidentRefusalTrue(Run(ops), r, h, date, e);
    case _ =>
  }
}
