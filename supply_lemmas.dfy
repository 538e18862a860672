/** What the supply projection promises, proved about its specification
    functions (and so, through the methods' postconditions, about the
    methods). */
module SupplyLemmas {
  import opened Records
  import opened Supply

  // ---------------------------------------------------------------------
  // Reference definitions over the administers table

  /** The number of daily rows for medication `name`. */
  function DailyCount(rows: seq<Administer>, name: string): (r: nat)
    ensures r <= |rows|
  {
    if rows == [] then 0
    else
      var a := rows[|rows| - 1];
      DailyCount(rows[..|rows| - 1], name) + (if a.name == name && a.repeat == "daily" then 1 else 0)
  }

  /** The medication names of the non-daily rows, in row order. */
  function NondailyNames(rows: seq<Administer>): (r: seq<string>)
    ensures forall n :: n in r <==> exists j :: 0 <= j < |rows| && rows[j].name == n && rows[j].repeat != "daily"
  {
    if rows == [] then []
    else
      var init := rows[..|rows| - 1];
      var a := rows[|rows| - 1];
      assert forall j :: 0 <= j < |init| ==> init[j] == rows[j];
      NondailyNames(init) + (if a.repeat != "daily" then [a.name] else [])
  }

  /** The repeats of the non-daily rows for medication `name`, in row order. */
  function Repeats(rows: seq<Administer>, name: string): (r: seq<string>)
    ensures forall x :: x in r <==>
      exists j :: 0 <= j < |rows| && rows[j].name == name && rows[j].repeat != "daily" && rows[j].repeat == x
  {
    if rows == [] then []
    else
      var init := rows[..|rows| - 1];
      var a := rows[|rows| - 1];
      assert forall j :: 0 <= j < |init| ==> init[j] == rows[j];
      Repeats(init, name) + (if a.name == name && a.repeat != "daily" then [a.repeat] else [])
  }

  /** `xs` without repetitions, each element kept at its first appearance. */
  function Distinct(xs: seq<string>): (r: seq<string>)
    ensures forall x :: x in r <==> x in xs
    ensures forall a, b :: 0 <= a < b < |r| ==> r[a] != r[b]
  {
    if xs == [] then []
    else
      var d := Distinct(xs[..|xs| - 1]);
      assert xs == xs[..|xs| - 1] + [xs[|xs| - 1]];
      if xs[|xs| - 1] in d then d else d + [xs[|xs| - 1]]
  }

  /** Pills taken in outer iterations 0 .. n-1 of a group's simulation. */
  function Consumed(ds: seq<string>, start: Weekday, n: nat): nat
  {
    if n == 0 then 0 else Consumed(ds, start, n - 1) + PassHits(ds, start, (n - 1) * |ds|)
  }

  // ---------------------------------------------------------------------
  // The row pass

  /** The row pass succeeds exactly when every row names a known medication. */
  lemma {:induction false} ScanOkIff(meds: seq<Medication>, rows: seq<Administer>)
    ensures Scan(meds, rows).Ok? <==> forall j :: 0 <= j < |rows| ==> CurrentQuantity(meds, rows[j].name).Some?
    decreases |rows|
  {
    if rows != [] {
      var init := rows[..|rows| - 1];
      ScanOkIff(meds, init);
      assert forall j :: 0 <= j < |init| ==> init[j] == rows[j];
    }
  }

  /** After the row pass, the days of every medication are its quantity
      times the number of its daily rows. */
  lemma {:induction false} ScanDays(meds: seq<Medication>, rows: seq<Administer>)
    requires Scan(meds, rows).Ok?
    ensures forall i :: 0 <= i < |meds| ==>
      Scan(meds, rows).value.days[i] == DailyCount(rows, meds[i].name) * CurrentQuantity(meds, meds[i].name).value
    decreases |rows|
  {
    if rows == [] {
      forall i | 0 <= i < |meds|
        ensures Scan(meds, rows).value.days[i] == 0 * CurrentQuantity(meds, meds[i].name).value
      {
      }
    } else {
      var init := rows[..|rows| - 1];
      var a := rows[|rows| - 1];
      ScanLast(meds, rows);
      ScanDays(meds, init);
      var s := Scan(meds, init).value;
      forall i | 0 <= i < |meds|
        ensures Scan(meds, rows).value.days[i] == DailyCount(rows, meds[i].name) * CurrentQuantity(meds, meds[i].name).value
      {
        var n := meds[i].name;
        assert DailyCount(rows, n) == DailyCount(init, n) + if a.name == n && a.repeat == "daily" then 1 else 0;
        DaysStep(meds, s, a, i, DailyCount(init, n), DailyCount(rows, n));
      }
    }
  }

  /** One row's effect on one entry of the days column. */
  lemma DaysStep(meds: seq<Medication>, s: Scanned, a: Administer, i: nat, c: nat, c': nat)
    requires |s.days| == |meds| && i < |meds|
    requires ScanRow(meds, s, a).Ok?
    requires s.days[i] == c * CurrentQuantity(meds, meds[i].name).value
    requires c' == c + if a.name == meds[i].name && a.repeat == "daily" then 1 else 0
    ensures ScanRow(meds, s, a).value.days[i] == c' * CurrentQuantity(meds, meds[i].name).value
  {
    var q := CurrentQuantity(meds, meds[i].name).value;
    if a.name == meds[i].name && a.repeat == "daily" {
      MulSucc(c, q);
    }
  }

  lemma MulSucc(c: int, q: int)
    ensures (c + 1) * q == c * q + q
  {
  }

  lemma {:induction false} RepeatsOfUngrouped(rows: seq<Administer>, name: string)
    requires name !in NondailyNames(rows)
    ensures Repeats(rows, name) == []
  {
    if rows != [] {
      var init := rows[..|rows| - 1];
      assert NondailyNames(rows) == NondailyNames(init) + if rows[|rows| - 1].repeat != "daily" then [rows[|rows| - 1].name] else [];
      RepeatsOfUngrouped(init, name);
    }
  }

  /** The first non-daily row of a medication starts its repeats. */
  lemma RepeatsOfNew(rows: seq<Administer>)
    requires rows != [] && rows[|rows| - 1].repeat != "daily"
    requires rows[|rows| - 1].name !in NondailyNames(rows[..|rows| - 1])
    ensures Repeats(rows, rows[|rows| - 1].name) == [rows[|rows| - 1].repeat]
  {
    RepeatsOfUngrouped(rows[..|rows| - 1], rows[|rows| - 1].name);
  }

  /** Removing repetitions from a sequence grown by one element. */
  lemma DistinctSnoc(xs: seq<string>, x: string)
    ensures Distinct(xs + [x]) == if x in Distinct(xs) then Distinct(xs) else Distinct(xs) + [x]
  {
    assert (xs + [x])[..|xs|] == xs;
  }

  /** The grouping step keeps the group order, appends `repeat` to the group
      called `name`, and opens a group at the end only for a new name. */
  lemma AddRepeatGroups(groups: seq<Group>, name: string, repeat: string)
    ensures GroupNames(AddRepeat(groups, name, repeat)) ==
      if name in GroupNames(groups) then GroupNames(groups) else GroupNames(groups) + [name]
    ensures forall g :: 0 <= g < |groups| ==>
      AddRepeat(groups, name, repeat)[g] ==
        if groups[g].name == name then Group(name, groups[g].days + [repeat]) else groups[g]
    ensures name !in GroupNames(groups) ==>
      AddRepeat(groups, name, repeat)[|groups|] == Group(name, [repeat])
  {
    if name !in GroupNames(groups) {
      forall g | 0 <= g < |groups| ensures groups[g].name != name {
        assert GroupNames(groups)[g] == groups[g].name;
      }
    }
  }

  lemma ScanLast(meds: seq<Medication>, rows: seq<Administer>)
    requires rows != [] && Scan(meds, rows).Ok?
    ensures Scan(meds, rows[..|rows| - 1]).Ok?
    ensures Scan(meds, rows) == ScanRow(meds, Scan(meds, rows[..|rows| - 1]).value, rows[|rows| - 1])
  {
  }

  /** A non-daily row adds its medication to the group names unless it is
      there already. */
  lemma GroupNamesGrow(rows: seq<Administer>, groups: seq<Group>)
    requires rows != [] && rows[|rows| - 1].repeat != "daily"
    requires GroupNames(groups) == Distinct(NondailyNames(rows[..|rows| - 1]))
    ensures GroupNames(AddRepeat(groups, rows[|rows| - 1].name, rows[|rows| - 1].repeat)) ==
      Distinct(NondailyNames(rows))
  {
    var a := rows[|rows| - 1];
    assert NondailyNames(rows) == NondailyNames(rows[..|rows| - 1]) + [a.name];
    DistinctSnoc(NondailyNames(rows[..|rows| - 1]), a.name);
    AddRepeatGroups(groups, a.name, a.repeat);
  }

  /** A non-daily row adds its repeat to its medication's group, which then
      holds that medication's repeats up to and including this row. */
  lemma {:induction false} GroupDaysGrow(rows: seq<Administer>, groups: seq<Group>, gs: seq<Group>)
    requires rows != [] && rows[|rows| - 1].repeat != "daily"
    requires GroupNames(groups) == Distinct(NondailyNames(rows[..|rows| - 1]))
    requires forall g :: 0 <= g < |groups| ==> groups[g].days == Repeats(rows[..|rows| - 1], groups[g].name)
    requires gs == AddRepeat(groups, rows[|rows| - 1].name, rows[|rows| - 1].repeat)
    ensures forall g :: 0 <= g < |gs| ==> gs[g].days == Repeats(rows, gs[g].name)
  {
    var init := rows[..|rows| - 1];
    var a := rows[|rows| - 1];
    AddRepeatGroups(groups, a.name, a.repeat);
    forall g | 0 <= g < |groups| ensures gs[g].days == Repeats(rows, gs[g].name) {
      var h, x := groups[g], gs[g];
      assert Repeats(rows, x.name) == Repeats(init, x.name) + (if x.name == a.name then [a.repeat] else []);
      if h.name == a.name {
        assert x == Group(a.name, h.days + [a.repeat]);
      } else {
        assert x == h;
      }
    }
    if a.name !in GroupNames(groups) {
      RepeatsOfNew(rows);
    }
  }

  /** Non-daily rows are grouped one group per medication, in order of first
      appearance, each group holding its medication's repeats in row order
      (duplicates kept). */
  lemma {:induction false} ScanGroups(meds: seq<Medication>, rows: seq<Administer>)
    requires Scan(meds, rows).Ok?
    ensures GroupNames(Scan(meds, rows).value.groups) == Distinct(NondailyNames(rows))
    ensures forall g :: 0 <= g < |Scan(meds, rows).value.groups| ==>
      Scan(meds, rows).value.groups[g].days == Repeats(rows, Scan(meds, rows).value.groups[g].name)
    decreases |rows|
  {
    if rows != [] {
      var init := rows[..|rows| - 1];
      var a := rows[|rows| - 1];
      ScanLast(meds, rows);
      ScanGroups(meds, init);
      var gs := Scan(meds, init).value.groups;
      if a.repeat == "daily" {
        assert NondailyNames(rows) == NondailyNames(init);
        assert forall n :: Repeats(rows, n) == Repeats(init, n);
      } else {
        GroupNamesGrow(rows, gs);
        GroupDaysGrow(rows, gs, Scan(meds, rows).value.groups);
      }
    }
  }

  // ---------------------------------------------------------------------
  // The group pass

  /** The group pass succeeds exactly when every group's simulation does. */
  lemma {:induction false} FillOkIff(meds: seq<Medication>, days: seq<int>, groups: seq<Group>,
                                     quantity: int, start: Weekday)
    requires |days| == |meds|
    ensures Fill(meds, days, groups, quantity, start).Ok? <==>
      forall g :: 0 <= g < |groups| ==> GroupSupply(quantity, groups[g].days, start).Ok?
    decreases |groups|
  {
    if groups != [] {
      var init := groups[..|groups| - 1];
      FillOkIff(meds, days, init, quantity, start);
      assert forall g :: 0 <= g < |init| ==> init[g] == groups[g];
    }
  }

  /** With distinct group names, a medication's entry after the group pass is
      its group's simulated offset, or what the row pass left when it has no
      group. */
  lemma {:induction false} FillAt(meds: seq<Medication>, days: seq<int>, groups: seq<Group>,
                                  quantity: int, start: Weekday)
    requires |days| == |meds|
    requires forall a, b :: 0 <= a < b < |groups| ==> groups[a].name != groups[b].name
    requires Fill(meds, days, groups, quantity, start).Ok?
    ensures forall i, g :: 0 <= i < |meds| && 0 <= g < |groups| && groups[g].name == meds[i].name ==>
      GroupSupply(quantity, groups[g].days, start) == Ok(Fill(meds, days, groups, quantity, start).value[i])
    ensures forall i :: 0 <= i < |meds| && meds[i].name !in GroupNames(groups) ==>
      Fill(meds, days, groups, quantity, start).value[i] == days[i]
    decreases |groups|
  {
    if groups != [] {
      var init := groups[..|groups| - 1];
      var last := groups[|groups| - 1];
      FillLast(meds, days, groups, quantity, start);
      FillAt(meds, days, init, quantity, start);
      var before := Fill(meds, days, init, quantity, start).value;
      var n := GroupSupply(quantity, last.days, start).value;
      var after := Fill(meds, days, groups, quantity, start).value;
      assert after == SetDays(meds, before, last.name, n);
      forall i, g | 0 <= i < |meds| && 0 <= g < |groups| && groups[g].name == meds[i].name
        ensures GroupSupply(quantity, groups[g].days, start) == Ok(after[i])
      {
        if g < |init| {
          assert init[g] == groups[g];
        }
      }
      assert GroupNames(groups) == GroupNames(init) + [last.name];
      forall i | 0 <= i < |meds| && meds[i].name !in GroupNames(groups) ensures after[i] == days[i] {
        assert meds[i].name != last.name;
      }
    }
  }

  lemma FillLast(meds: seq<Medication>, days: seq<int>, groups: seq<Group>, quantity: int, start: Weekday)
    requires |days| == |meds| && groups != []
    requires Fill(meds, days, groups, quantity, start).Ok?
    ensures Fill(meds, days, groups[..|groups| - 1], quantity, start).Ok?
    ensures GroupSupply(quantity, groups[|groups| - 1].days, start).Ok?
    ensures Fill(meds, days, groups, quantity, start) ==
      FillGroup(meds, Fill(meds, days, groups[..|groups| - 1], quantity, start).value, groups[|groups| - 1], quantity, start)
  {
  }

  // ---------------------------------------------------------------------
  // The projection

  lemma ScanOfProjection(meds: seq<Medication>, rows: seq<Administer>, start: Weekday)
    requires Projection(meds, rows, start).Ok?
    ensures Scan(meds, rows).Ok?
    ensures Projection(meds, rows, start) == Fill(meds, Scan(meds, rows).value.days, Scan(meds, rows).value.groups,
                                                  Scan(meds, rows).value.lastQuantity, start)
  {
  }

  /** Group names are distinct, since they are `Distinct` of the row names. */
  lemma GroupNamesDistinct(meds: seq<Medication>, rows: seq<Administer>)
    requires Scan(meds, rows).Ok?
    ensures forall a, b :: 0 <= a < b < |Scan(meds, rows).value.groups| ==>
      Scan(meds, rows).value.groups[a].name != Scan(meds, rows).value.groups[b].name
  {
    var gs := Scan(meds, rows).value.groups;
    ScanGroups(meds, rows);
    forall a, b | 0 <= a < b < |gs| ensures gs[a].name != gs[b].name {
      assert GroupNames(gs)[a] == gs[a].name && GroupNames(gs)[b] == gs[b].name;
    }
  }

  /** A medication without weekday rules reports its quantity times the
      number of its daily rows: two daily rows give twice the quantity. */
  lemma ProjectionDailyOnly(meds: seq<Medication>, rows: seq<Administer>, start: Weekday, i: nat)
    requires Projection(meds, rows, start).Ok?
    requires i < |meds|
    requires forall j :: 0 <= j < |rows| && rows[j].name == meds[i].name ==> rows[j].repeat == "daily"
    ensures Projection(meds, rows, start).value[i] ==
      DailyCount(rows, meds[i].name) * CurrentQuantity(meds, meds[i].name).value
  {
    ScanOfProjection(meds, rows, start);
    var s := Scan(meds, rows).value;
    ScanDays(meds, rows);
    ScanGroups(meds, rows);
    GroupNamesDistinct(meds, rows);
    FillAt(meds, s.days, s.groups, s.lastQuantity, start);
    assert meds[i].name !in NondailyNames(rows);
  }

  lemma {:induction false} DailyCountUnnamed(rows: seq<Administer>, name: string)
    requires forall j :: 0 <= j < |rows| ==> rows[j].name != name
    ensures DailyCount(rows, name) == 0
  {
    if rows != [] {
      DailyCountUnnamed(rows[..|rows| - 1], name);
    }
  }

  /** Every medication starts at 0 days, so one no administer row names
      reports 0. */
  lemma ProjectionUnscheduled(meds: seq<Medication>, rows: seq<Administer>, start: Weekday, i: nat)
    requires Projection(meds, rows, start).Ok?
    requires i < |meds|
    requires forall j :: 0 <= j < |rows| ==> rows[j].name != meds[i].name
    ensures Projection(meds, rows, start).value[i] == 0
  {
    ProjectionDailyOnly(meds, rows, start, i);
    DailyCountUnnamed(rows, meds[i].name);
  }

  /** A medication with a weekday rule reports the simulation of all its
      weekday repeats, started from the quantity of the medication named by
      the LAST administer row; any daily contribution is overwritten. */
  lemma ProjectionWeekdayGroup(meds: seq<Medication>, rows: seq<Administer>, start: Weekday, i: nat, j: nat)
    requires Projection(meds, rows, start).Ok?
    requires i < |meds| && j < |rows|
    requires rows[j].name == meds[i].name && rows[j].repeat != "daily"
    ensures CurrentQuantity(meds, rows[|rows| - 1].name).Some?
    ensures GroupSupply(CurrentQuantity(meds, rows[|rows| - 1].name).value, Repeats(rows, meds[i].name), start)
            == Ok(Projection(meds, rows, start).value[i])
  {
    ScanOfProjection(meds, rows, start);
    var s := Scan(meds, rows).value;
    ScanGroups(meds, rows);
    GroupNamesDistinct(meds, rows);
    FillAt(meds, s.days, s.groups, s.lastQuantity, start);
    assert meds[i].name in GroupNames(s.groups);
    var g :| 0 <= g < |GroupNames(s.groups)| && GroupNames(s.groups)[g] == meds[i].name;
    assert s.groups[g].name == meds[i].name;
  }

  /** The projection fails exactly when a row names an unknown medication or
      a non-daily row's repeat is not a weekday name. */
  lemma ProjectionOkIff(meds: seq<Medication>, rows: seq<Administer>, start: Weekday)
    ensures Projection(meds, rows, start).Ok? <==>
      forall j :: 0 <= j < |rows| ==>
        CurrentQuantity(meds, rows[j].name).Some? && (rows[j].repeat == "daily" || DayIndex(rows[j].repeat).Some?)
  {
    ScanOkIff(meds, rows);
    if Scan(meds, rows).Ok? {
      var s := Scan(meds, rows).value;
      ScanGroups(meds, rows);
      FillOkIff(meds, s.days, s.groups, s.lastQuantity, start);
      if Projection(meds, rows, start).Ok? {
        forall j | 0 <= j < |rows| && rows[j].repeat != "daily"
          ensures DayIndex(rows[j].repeat).Some?
        {
          assert rows[j].name in GroupNames(s.groups);
          var g :| 0 <= g < |GroupNames(s.groups)| && GroupNames(s.groups)[g] == rows[j].name;
          assert rows[j].repeat in s.groups[g].days;
        }
      } else {
        var g :| 0 <= g < |s.groups| && GroupSupply(s.lastQuantity, s.groups[g].days, start).Err?;
        var t :| 0 <= t < |s.groups[g].days| && DayIndex(s.groups[g].days[t]).None?;
        assert s.groups[g].days[t] in Repeats(rows, s.groups[g].name);
      }
    }
  }

  /** The first row naming an unknown medication raises, before any
      simulation runs. */
  lemma ProjectionUnknownMedication(meds: seq<Medication>, rows: seq<Administer>, start: Weekday, j: nat)
    requires j < |rows|
    requires CurrentQuantity(meds, rows[j].name).None?
    requires forall t :: 0 <= t < j ==> CurrentQuantity(meds, rows[t].name).Some?
    ensures Projection(meds, rows, start) == Err(UnknownMedication(rows[j].name))
  {
    var pre := rows[..j + 1];
    assert pre[..j] == rows[..j];
    ScanOkIff(meds, rows[..j]);
    ScanErrorPersists(meds, rows, j + 1);
  }

  /** The first group whose simulation fails decides the group pass's
      error. */
  lemma FillFirstError(meds: seq<Medication>, days: seq<int>, groups: seq<Group>,
                       quantity: int, start: Weekday, g: nat)
    requires |days| == |meds| && g < |groups|
    requires GroupSupply(quantity, groups[g].days, start).Err?
    requires forall h :: 0 <= h < g ==> GroupSupply(quantity, groups[h].days, start).Ok?
    ensures Fill(meds, days, groups, quantity, start) == Err(GroupSupply(quantity, groups[g].days, start).error)
  {
    var pre := groups[..g];
    assert forall h :: 0 <= h < g ==> pre[h] == groups[h];
    FillOkIff(meds, days, pre, quantity, start);
    FillStep(meds, days, groups, quantity, start, g);
    FillErrorPersists(meds, days, groups, quantity, start, g + 1);
  }

  /** When every row names a known medication, the ValueError that escapes
      is for the first unknown repeat of the first group, in order of first
      appearance of the medications' non-daily rows, that has one. */
  lemma ProjectionUnknownWeekday(meds: seq<Medication>, rows: seq<Administer>, start: Weekday, g: nat, t: nat)
    requires forall j :: 0 <= j < |rows| ==> CurrentQuantity(meds, rows[j].name).Some?
    requires g < |Distinct(NondailyNames(rows))|
    requires t < |Repeats(rows, Distinct(NondailyNames(rows))[g])|
    requires DayIndex(Repeats(rows, Distinct(NondailyNames(rows))[g])[t]).None?
    requires forall u :: 0 <= u < t ==> DayIndex(Repeats(rows, Distinct(NondailyNames(rows))[g])[u]).Some?
    requires forall h, u :: 0 <= h < g && 0 <= u < |Repeats(rows, Distinct(NondailyNames(rows))[h])| ==>
      DayIndex(Repeats(rows, Distinct(NondailyNames(rows))[h])[u]).Some?
    ensures Projection(meds, rows, start) == Err(UnknownWeekday(Repeats(rows, Distinct(NondailyNames(rows))[g])[t]))
  {
    var names := Distinct(NondailyNames(rows));
    ScanOkIff(meds, rows);
    var s := Scan(meds, rows).value;
    ScanGroups(meds, rows);
    assert |s.groups| == |names|;
    forall h | 0 <= h < |s.groups| ensures s.groups[h].days == Repeats(rows, names[h]) {
      assert GroupNames(s.groups)[h] == s.groups[h].name;
    }
    var ds := s.groups[g].days;
    var r := GroupSupply(s.lastQuantity, ds, start);
    assert r.Err?;
    assert r.error == UnknownWeekday(ds[t]);
    FillFirstError(meds, s.days, s.groups, s.lastQuantity, start, g);
  }

  // ---------------------------------------------------------------------
  // One group's simulation

  /** The positions of `ds` whose rule takes a pill in a pass started at
      day `offset`. */
  function HitPositions(ds: seq<string>, start: Weekday, offset: nat): set<nat>
  {
    set j: nat | j < |ds| && Hit(ds[j], start, offset + j)
  }

  /** Growing the pass by one rule adds at most its own, new, position. */
  lemma {:induction false} HitPositionsSnoc(ds: seq<string>, start: Weekday, offset: nat)
    requires ds != []
    ensures |ds| - 1 !in HitPositions(ds[..|ds| - 1], start, offset)
    ensures HitPositions(ds, start, offset) == HitPositions(ds[..|ds| - 1], start, offset) +
      if Hit(ds[|ds| - 1], start, offset + |ds| - 1) then {|ds| - 1} else {}
  {
    var init := ds[..|ds| - 1];
    assert forall j :: 0 <= j < |init| ==> init[j] == ds[j];
  }

  /** A pass takes one pill for each position whose rule names the weekday of
      the day it is tested against, and no others. */
  lemma {:induction false} PassHitsCount(ds: seq<string>, start: Weekday, offset: nat)
    ensures PassHits(ds, start, offset) == |HitPositions(ds, start, offset)|
  {
    if ds != [] {
      PassHitsCount(ds[..|ds| - 1], start, offset);
      HitPositionsSnoc(ds, start, offset);
    }
  }

  /** The outer loop entered at iteration `i` (with every earlier iteration
      leaving at least one pill) runs until iteration `n`, the first after
      which fewer than one pill is left, or 1000. */
  lemma {:induction false} RunFrom(q: int, ds: seq<string>, start: Weekday, i: nat, offset: nat) returns (n: nat)
    requires |ds| > 0 && i < 1000 && offset == i * |ds|
    requires forall m :: 1 <= m <= i ==> q - Consumed(ds, start, m) >= 1
    ensures i < n <= 1000 && Run(q - Consumed(ds, start, i), ds, start, i, offset) == n * |ds|
    ensures q - Consumed(ds, start, n) < 1 || n == 1000
    ensures forall m :: 1 <= m < n ==> q - Consumed(ds, start, m) >= 1
    decreases 1000 - i
  {
    var left := q - Consumed(ds, start, i + 1);
    assert left == q - Consumed(ds, start, i) - PassHits(ds, start, offset);
    MulSucc(i, |ds|);
    if left < 1 || i + 1 == 1000 {
      n := i + 1;
    } else {
      n := RunFrom(q, ds, start, i + 1, offset + |ds|);
    }
  }

  /** The simulation of a group of k weekday rules runs n outer iterations,
      1 <= n <= 1000, and reports k*n days; n is the first iteration after
      which fewer than one pill is left, or 1000. */
  lemma GroupStopsAtFirstExhaustion(q: int, ds: seq<string>, start: Weekday) returns (n: nat)
    requires |ds| > 0
    requires GroupSupply(q, ds, start).Ok?
    ensures 1 <= n <= 1000 && GroupSupply(q, ds, start).value == n * |ds|
    ensures q - Consumed(ds, start, n) < 1 || n == 1000
    ensures forall m :: 1 <= m < n ==> q - Consumed(ds, start, m) >= 1
  {
    n := RunFrom(q, ds, start, 0, 0);
  }

  /** A group of k weekday rules reports a positive multiple of k, at most
      1000*k, whatever the starting pill count. */
  lemma GroupSupplyBounds(q: int, ds: seq<string>, start: Weekday) returns (n: nat)
    requires |ds| > 0
    requires GroupSupply(q, ds, start).Ok?
    ensures 1 <= n <= 1000 && GroupSupply(q, ds, start).value == n * |ds|
    ensures |ds| <= GroupSupply(q, ds, start).value <= 1000 * |ds|
  {
    n := GroupStopsAtFirstExhaustion(q, ds, start);
    MulBetween(n, |ds|);
  }

  lemma MulBetween(n: nat, k: nat)
    requires 1 <= n <= 1000
    ensures k <= n * k <= 1000 * k
  {
  }

  /** With fewer than one pill the loop body still runs once: the group
      reports its own size, not 0. */
  lemma GroupSupplyWithoutPills(q: int, ds: seq<string>, start: Weekday)
    requires q < 1
    requires forall j :: 0 <= j < |ds| ==> DayIndex(ds[j]).Some?
    ensures GroupSupply(q, ds, start) == Ok(|ds|)
  {
  }

  /** The number of days from a `start` weekday up to and including the
      next day with weekday `x` (1 when `x` is `start` itself). */
  function DaysThrough(start: Weekday, x: Weekday): nat
  {
    if start <= x then x - start + 1 else x - start + 8
  }

  /** Before the day `DaysThrough` counts to, the single rule's weekday has
      not come round yet; on that day it has. */
  lemma SingleRuleHit(r: string, x: Weekday, start: Weekday, i: nat)
    requires DayIndex(r) == Some(x)
    requires i < DaysThrough(start, x)
    ensures Hit(r, start, i) <==> i + 1 == DaysThrough(start, x)
  {
    var day := if start + i < 7 then start + i else start + i - 7;
    assert (start + i) % 7 == day;
  }

  /** One outer iteration of a single rule holding one pill. */
  lemma SingleRuleStep(r: string, start: Weekday, i: nat)
    requires i < 1000
    ensures Run(1, [r], start, i, i) == if Hit(r, start, i) then i + 1 else Run(1, [r], start, i + 1, i + 1)
  {
    assert [r][..0] == [];
  }

  lemma {:induction false} SingleRuleWaits(r: string, x: Weekday, start: Weekday, i: nat)
    requires DayIndex(r) == Some(x)
    requires i < DaysThrough(start, x)
    ensures Run(1, [r], start, i, i) == DaysThrough(start, x)
    decreases DaysThrough(start, x) - i
  {
    SingleRuleHit(r, x, start, i);
    SingleRuleStep(r, start, i);
    if i + 1 < DaysThrough(start, x) {
      SingleRuleWaits(r, x, start, i + 1);
    }
  }

  /** One pill and one weekday rule: the projection counts the days up to and
      including the next day with that weekday (1 when it is today). */
  lemma SingleRuleOnePill(r: string, start: Weekday)
    requires DayIndex(r).Some?
    ensures GroupSupply(1, [r], start) == Ok(DaysThrough(start, DayIndex(r).value))
  {
    SingleRuleWaits(r, DayIndex(r).value, start, 0);
  }

  // ---------------------------------------------------------------------
  // The dashboard's own sample data

  const Olanzapine := Medication("olanzapine", 30, 14, Date(2024, 11, 3))
  const Sertraline := Medication("sertraline", 40, 19, Date(2024, 12, 13))
  const SampleMedications := [Olanzapine, Sertraline]
  const SampleAdministers := [Administer("sertraline", "sunday", "morning"),
                              Administer("sertraline", "tuesday", "morning"),
                              Administer("olanzapine", "daily", "night")]

  /** The row pass over the two sertraline rows groups both repeats. */
  lemma SampleWeekdayRows()
    ensures Scan(SampleMedications, SampleAdministers[..2]) ==
      Ok(Scanned([0, 0], [Group("sertraline", ["sunday", "tuesday"])], 19))
  {
    var meds, rows := SampleMedications, SampleAdministers;
    var zero: seq<int> := seq(2, _ => 0);
    assert zero == [0, 0];
    assert rows[..0] == [];
    assert CurrentQuantity(meds, "sertraline") == Some(19);
    var g1 := [Group("sertraline", ["sunday"])];
    var g2 := [Group("sertraline", ["sunday", "tuesday"])];
    ScanStep(meds, rows, 0);
    assert Scan(meds, rows[..0]) == Ok(Scanned(zero, [], 0));
    assert rows[0].repeat != "daily";
    assert GroupNames([]) == [];
    assert AddRepeat([], "sertraline", "sunday") == g1;
    assert Scan(meds, rows[..1]) == Ok(Scanned(zero, g1, 19));
    ScanStep(meds, rows, 1);
    assert rows[1].repeat != "daily";
    assert GroupNames(g1) == ["sertraline"];
    var added := AddRepeat(g1, "sertraline", "tuesday");
    assert |added| == 1 && added[0] == g2[0];
    assert added == g2;
  }

  /** The daily olanzapine row then adds its 14 pills, and its quantity is
      the one the groups will start from. */
  lemma SampleRows()
    ensures Scan(SampleMedications, SampleAdministers) ==
      Ok(Scanned([14, 0], [Group("sertraline", ["sunday", "tuesday"])], 14))
  {
    var meds, rows := SampleMedications, SampleAdministers;
    SampleWeekdayRows();
    ScanStep(meds, rows, 2);
    assert CurrentQuantity(meds, "olanzapine") == Some(14);
    assert AddDays(meds, [0, 0], "olanzapine", 14) == [14, 0];
    assert rows[..3] == rows;
  }

  lemma SampleRepeatsKnown(q: int, start: Weekday)
    ensures GroupSupply(q, ["sunday", "tuesday"], start).Ok?
  {
    var ds := ["sunday", "tuesday"];
    assert DayIndex(ds[0]) == Some(6) && DayIndex(ds[1]) == Some(1);
  }

  /** On the sample data olanzapine reports its 14 pills, and sertraline is
      simulated from olanzapine's 14 (the last row's medication), not its
      own 19. */
  lemma SampleProjection(start: Weekday)
    ensures Projection(SampleMedications, SampleAdministers, start) ==
      Ok([14, GroupSupply(14, ["sunday", "tuesday"], start).value])
  {
    var meds := SampleMedications;
    var g2 := [Group("sertraline", ["sunday", "tuesday"])];
    SampleRows();
    var d := GroupSupply(14, ["sunday", "tuesday"], start);
    SampleRepeatsKnown(14, start);
    FillStep(meds, [14, 0], g2, 14, start, 0);
    assert g2[..0] == [] && g2[..1] == g2;
    assert SetDays(meds, [14, 0], "sertraline", d.value) == [14, d.value];
  }

  /** The repeats of the sample's sertraline group. */
  const SertralineRepeats: seq<string> := ["sunday", "tuesday"]

  /** Two rules, the first naming Sunday and the second Tuesday, as in the
      sample's sertraline group. */
  predicate SundayThenTuesday(ds: seq<string>)
  {
    |ds| == 2 && DayIndex(ds[0]) == Some(6) && DayIndex(ds[1]) == Some(1)
  }

  /** Starting on a Wednesday, the pass entered at iteration b + p, where
      `b` starts a week of passes, tests Sunday against day 2b + 2p and
      Tuesday against the day after: only passes 2 and 6 of each week take
      a pill. */
  lemma SundayTuesdayPass(ds: seq<string>, b: nat, p: nat)
    requires SundayThenTuesday(ds) && b % 7 == 0 && p < 7
    ensures PassHits(ds, 2, 2 * b + 2 * p) == if p == 2 || p == 6 then 1 else 0
  {
    WeekShift(2 * (b / 7), 2 + 2 * p);
    WeekShift(2 * (b / 7), 3 + 2 * p);
    assert ds[..1][..0] == [];
  }

  lemma WeekShift(k: nat, r: nat)
    ensures (7 * k + r) % 7 == r % 7
  {
  }

  /** From a Wednesday, the first n passes take two pills per full week of
      passes, plus one once pass 2 of the current week is done. */
  lemma {:induction false} SundayTuesdayConsumed(ds: seq<string>, n: nat)
    requires SundayThenTuesday(ds)
    ensures Consumed(ds, 2, n) == 2 * (n / 7) + if n % 7 >= 3 then 1 else 0
    decreases n
  {
    if n > 0 {
      SundayTuesdayConsumed(ds, n - 1);
      var k, p := (n - 1) / 7, (n - 1) % 7;
      SundayTuesdayPass(ds, 7 * k, p);
      assert (n - 1) * |ds| == 2 * (7 * k) + 2 * p;
      if p == 6 {
        assert n == 7 * (k + 1) + 0;
      } else {
        assert n == 7 * k + (p + 1);
      }
    }
  }

  /** No pass gives pills back. */
  lemma {:induction false} ConsumedGrows(ds: seq<string>, start: Weekday, n: nat)
    ensures forall m :: 0 <= m <= n ==> Consumed(ds, start, m) <= Consumed(ds, start, n)
    decreases n
  {
    if n > 0 {
      ConsumedGrows(ds, start, n - 1);
    }
  }

  /** A Sunday-then-Tuesday group simulated from a Wednesday with `q` pills,
      for every `q` the 1000-pass bound does not cut short: q pills last 7q
      days when q is even and 7q - 1 when it is odd, two pills a week with
      the first on the following Sunday. */
  lemma SundayTuesdayFromWednesday(q: int, ds: seq<string>)
    requires SundayThenTuesday(ds) && 1 <= q <= 284
    ensures GroupSupply(q, ds, 2) == Ok(if q % 2 == 0 then 7 * q else 7 * q - 1)
  {
    assert forall j :: 0 <= j < |ds| ==> DayIndex(ds[j]).Some?;
    var last := SundayTuesdayLastPass(q, ds);
    var n := GroupStopsAtFirstExhaustion(q, ds, 2);
    FirstExhaustionUnique(q, ds, 2, n, last);
  }

  /** From a Wednesday, the pass after which fewer than one of `q` pills is
      left, every earlier pass leaving at least one. */
  lemma SundayTuesdayLastPass(q: int, ds: seq<string>) returns (last: nat)
    requires SundayThenTuesday(ds) && 1 <= q <= 284
    ensures 2 * last == if q % 2 == 0 then 7 * q else 7 * q - 1
    ensures 1 <= last < 1000 && q - Consumed(ds, 2, last) < 1
    ensures forall m :: 0 <= m < last ==> q - Consumed(ds, 2, m) >= 1
  {
    var k := q / 2;
    last := if q == 2 * k then 7 * k else 7 * k + 3;
    SundayTuesdayConsumed(ds, last);
    SundayTuesdayConsumed(ds, last - 1);
    ConsumedGrows(ds, 2, last - 1);
  }

  /** The pass the simulation stops after is the first that leaves fewer
      than one pill. */
  lemma FirstExhaustionUnique(q: int, ds: seq<string>, start: Weekday, n: nat, last: nat)
    requires 1 <= n <= 1000 && 1 <= last < 1000
    requires q - Consumed(ds, start, n) < 1 || n == 1000
    requires forall m :: 1 <= m < n ==> q - Consumed(ds, start, m) >= 1
    requires q - Consumed(ds, start, last) < 1
    requires forall m :: 0 <= m < last ==> q - Consumed(ds, start, m) >= 1
    ensures n == last
  {
  }

  /** On a Wednesday the sample reports 98 days for sertraline, simulated
      from olanzapine's 14 pills; its own 19 pills would have given 132. */
  lemma SampleProjectionOnWednesday()
    ensures Projection(SampleMedications, SampleAdministers, 2) == Ok([14, 98])
    ensures GroupSupply(19, SertralineRepeats, 2) == Ok(132)
  {
    var ds := SertralineRepeats;
    assert DayIndex(ds[0]) == Some(6) && DayIndex(ds[1]) == Some(1);
    SampleProjection(2);
    SundayTuesdayFromWednesday(14, ds);
    SundayTuesdayFromWednesday(19, ds);
  }
}
