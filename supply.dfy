/** The "Current Supply" projection: for every medication, the number of
    days its pills are projected to last. It is computed in two passes over
    the administers table: the first adds the quantity of every daily rule
    to its medication and groups the other rules by medication; the second
    simulates each group day by day. The start date is a weekday and every
    later date an offset in days from it. */
module Supply {
  import opened Records

  /** The exceptions the projection lets escape. */
  datatype SupplyError =
    | UnknownMedication(name: string)  // an administer row names no medication (IndexError)
    | UnknownWeekday(repeat: string)   // a non-daily repeat is not a weekday name (ValueError)

  /** An entry of the non-daily administers list: a medication and the
      repeats of its non-daily rows, in row order. */
  datatype Group = Group(name: string, days: seq<string>)

  /** What the row pass leaves behind: the days column (aligned with the
      medications table), the non-daily groups, and the quantity looked up
      for the last row processed. */
  datatype Scanned = Scanned(days: seq<int>, groups: seq<Group>, lastQuantity: int)

  // ---------------------------------------------------------------------
  // Lookups and updates of the days column

  /** The current quantity of the first medication called `name`, or None
      where the lookup's `.values[0]` raises IndexError. */
  function CurrentQuantity(meds: seq<Medication>, name: string): (r: Option<int>)
    ensures r.None? <==> forall i :: 0 <= i < |meds| ==> meds[i].name != name
    ensures r.Some? ==> exists i :: 0 <= i < |meds| && meds[i].name == name && meds[i].currentQuantity == r.value
                                   && forall j :: 0 <= j < i ==> meds[j].name != name
  {
    if meds == [] then None
    else if meds[0].name == name then Some(meds[0].currentQuantity)
    else
      var r := CurrentQuantity(meds[1..], name);
      assert r.Some? ==> exists i :: 1 <= i < |meds| && meds[i].name == name && meds[i].currentQuantity == r.value
                                     && forall j :: 0 <= j < i ==> meds[j].name != name by {
        if r.Some? {
          var i :| 0 <= i < |meds[1..]| && meds[1..][i].name == name && meds[1..][i].currentQuantity == r.value
                   && forall j :: 0 <= j < i ==> meds[1..][j].name != name;
          assert forall j :: 0 <= j < i + 1 ==> meds[j].name != name by {
            forall j | 0 <= j < i + 1 ensures meds[j].name != name {
              if j > 0 { assert meds[j] == meds[1..][j - 1]; }
            }
          }
        }
      }
      r
  }

  /** `days.loc[name, 'days'] += q`: every row called `name` grows by `q`. */
  function AddDays(meds: seq<Medication>, days: seq<int>, name: string, q: int): seq<int>
    requires |days| == |meds|
  {
    seq(|days|, i requires 0 <= i < |days| => if meds[i].name == name then days[i] + q else days[i])
  }

  /** `days.loc[name, 'days'] = v`: every row called `name` becomes `v`. */
  function SetDays(meds: seq<Medication>, days: seq<int>, name: string, v: int): seq<int>
    requires |days| == |meds|
  {
    seq(|days|, i requires 0 <= i < |days| => if meds[i].name == name then v else days[i])
  }

  // ---------------------------------------------------------------------
  // Grouping the non-daily rules

  function GroupNames(groups: seq<Group>): seq<string>
  {
    seq(|groups|, j requires 0 <= j < |groups| => groups[j].name)
  }

  /** The grouping step for one non-daily row: append `repeat` to every
      group called `name`, or start a new group at the end when there is
      none. */
  function AddRepeat(groups: seq<Group>, name: string, repeat: string): seq<Group>
  {
    if name in GroupNames(groups) then
      seq(|groups|, j requires 0 <= j < |groups| =>
        if groups[j].name == name then Group(name, groups[j].days + [repeat]) else groups[j])
    else
      groups + [Group(name, [repeat])]
  }

  /** One iteration of the row loop: look up the row's medication, then add
      its quantity (daily rule) or group its repeat (any other rule). */
  function ScanRow(meds: seq<Medication>, s: Scanned, a: Administer): Result<Scanned, SupplyError>
    requires |s.days| == |meds|
  {
    match CurrentQuantity(meds, a.name)
    case None => Err(UnknownMedication(a.name))
    case Some(q) =>
      if a.repeat == "daily" then Ok(Scanned(AddDays(meds, s.days, a.name, q), s.groups, q))
      else Ok(Scanned(s.days, AddRepeat(s.groups, a.name, a.repeat), q))
  }

  /** The row pass over `rows`, as a fold over its prefixes. */
  function Scan(meds: seq<Medication>, rows: seq<Administer>): (r: Result<Scanned, SupplyError>)
    ensures r.Ok? ==> |r.value.days| == |meds|
    ensures r.Ok? ==> forall g :: 0 <= g < |r.value.groups| ==> |r.value.groups[g].days| > 0
    decreases |rows|
  {
    if rows == [] then Ok(Scanned(seq(|meds|, _ => 0), [], 0))
    else
      match Scan(meds, rows[..|rows| - 1])
      case Err(e) => Err(e)
      case Ok(s) => ScanRow(meds, s, rows[|rows| - 1])
  }

  // ---------------------------------------------------------------------
  // The day-by-day simulation of one group

  /** Whether the rule `repeat` takes a pill on the day `offset` days after a
      day whose weekday is `start`. */
  predicate Hit(repeat: string, start: Weekday, offset: nat)
  {
    DayIndex(repeat) == Some((start + offset) % 7)
  }

  /** Pills taken by one pass of the inner loop over `ds`, the rule at
      position j being tested against day `offset + j`. */
  function PassHits(ds: seq<string>, start: Weekday, offset: nat): (r: nat)
    ensures r <= |ds|
  {
    if ds == [] then 0
    else PassHits(ds[..|ds| - 1], start, offset) + (if Hit(ds[|ds| - 1], start, offset + |ds| - 1) then 1 else 0)
  }

  /** The date offset reached by the outer loop entered at iteration `i`,
      `offset` days after the start, with `pills` left: each iteration is
      one pass over `ds`, advancing the date one day per rule, and the loop
      stops after the pass that leaves fewer than one pill, or after
      iteration 999. */
  function Run(pills: int, ds: seq<string>, start: Weekday, i: nat, offset: nat): nat
    requires i <= 1000
    decreases 1000 - i
  {
    if i == 1000 then offset
    else
      var left := pills - PassHits(ds, start, offset);
      if left < 1 then offset + |ds| else Run(left, ds, start, i + 1, offset + |ds|)
  }

  /** The first repeat of `ds` that is not a weekday name. */
  function FirstUnknownWeekday(ds: seq<string>): (r: Option<string>)
    ensures r.None? <==> forall j :: 0 <= j < |ds| ==> DayIndex(ds[j]).Some?
    ensures r.Some? ==> exists j :: 0 <= j < |ds| && ds[j] == r.value && DayIndex(ds[j]).None?
                                   && forall t :: 0 <= t < j ==> DayIndex(ds[t]).Some?
  {
    if ds == [] then None
    else if DayIndex(ds[0]).None? then Some(ds[0])
    else
      var r := FirstUnknownWeekday(ds[1..]);
      assert r.Some? ==> exists j :: 1 <= j < |ds| && ds[j] == r.value && DayIndex(ds[j]).None?
                                     && forall t :: 0 <= t < j ==> DayIndex(ds[t]).Some? by {
        if r.Some? {
          var j :| 0 <= j < |ds[1..]| && ds[1..][j] == r.value && DayIndex(ds[1..][j]).None?
                   && forall t :: 0 <= t < j ==> DayIndex(ds[1..][t]).Some?;
          forall t | 0 <= t < j + 1 ensures DayIndex(ds[t]).Some? {
            if t > 0 { assert ds[t] == ds[1..][t - 1]; }
          }
        }
      }
      assert r.None? ==> forall j :: 0 <= j < |ds| ==> DayIndex(ds[j]).Some? by {
        if r.None? {
          forall j | 0 <= j < |ds| ensures DayIndex(ds[j]).Some? {
            if j > 0 { assert ds[j] == ds[1..][j - 1]; }
          }
        }
      }
      r
  }

  /** The projected days of a group whose simulation starts with `quantity`
      pills: a ValueError on the first repeat that is not a weekday (every
      repeat is looked up in the first pass), the simulated offset otherwise. */
  function GroupSupply(quantity: int, ds: seq<string>, start: Weekday): (r: Result<nat, SupplyError>)
    ensures r.Err? <==> exists j :: 0 <= j < |ds| && DayIndex(ds[j]).None?
    ensures r.Err? ==> exists j :: 0 <= j < |ds| && r.error == UnknownWeekday(ds[j]) && DayIndex(ds[j]).None?
                                   && forall t :: 0 <= t < j ==> DayIndex(ds[t]).Some?
  {
    match FirstUnknownWeekday(ds)
    case Some(repeat) => Err(UnknownWeekday(repeat))
    case None => Ok(Run(quantity, ds, start, 0, 0))
  }

  // ---------------------------------------------------------------------
  // The whole projection

  /** One iteration of the group loop: simulate the group, then overwrite
      the days of its medication. */
  function FillGroup(meds: seq<Medication>, days: seq<int>, g: Group, quantity: int, start: Weekday)
    : Result<seq<int>, SupplyError>
    requires |days| == |meds|
  {
    match GroupSupply(quantity, g.days, start)
    case Err(e) => Err(e)
    case Ok(n) => Ok(SetDays(meds, days, g.name, n))
  }

  /** The group pass: each group in turn overwrites the days of its
      medication with its simulated offset. */
  function Fill(meds: seq<Medication>, days: seq<int>, groups: seq<Group>, quantity: int, start: Weekday)
    : (r: Result<seq<int>, SupplyError>)
    requires |days| == |meds|
    ensures r.Ok? ==> |r.value| == |meds|
    ensures r.Err? ==> r.error.UnknownWeekday?
    decreases |groups|
  {
    if groups == [] then Ok(days)
    else
      match Fill(meds, days, groups[..|groups| - 1], quantity, start)
      case Err(e) => Err(e)
      case Ok(d) => FillGroup(meds, d, groups[|groups| - 1], quantity, start)
  }

  /** Days of supply per medication row, or the exception that escapes.
      Every weekday group starts from the quantity of the last row of the
      row pass, whichever medication that row names. */
  function Projection(meds: seq<Medication>, rows: seq<Administer>, start: Weekday): (r: Result<seq<int>, SupplyError>)
    ensures r.Ok? ==> |r.value| == |meds|
  {
    match Scan(meds, rows)
    case Err(e) => Err(e)
    case Ok(s) => Fill(meds, s.days, s.groups, s.lastQuantity, start)
  }

  // ---------------------------------------------------------------------
  // The imperative code

  /** The grouping step as the dashboard runs it: a membership test over the
      group names, then a loop appending to every matching group. */
  method AppendRepeat(groups: seq<Group>, name: string, repeat: string) returns (gs: seq<Group>)
    ensures gs == AddRepeat(groups, name, repeat)
  {
    if name in GroupNames(groups) {
      gs := groups;
      var j := 0;
      while j < |gs|
        invariant 0 <= j <= |gs| == |groups|
        invariant forall t :: 0 <= t < j ==>
          gs[t] == if groups[t].name == name then Group(name, groups[t].days + [repeat]) else groups[t]
        invariant forall t :: j <= t < |gs| ==> gs[t] == groups[t]
      {
        if gs[j].name == name {
          gs := gs[j := Group(name, gs[j].days + [repeat])];
        }
        j := j + 1;
      }
    } else {
      gs := groups + [Group(name, [repeat])];
    }
  }

  /** One iteration of the simulation's outer loop: the inner loop over the
      group's repeats, taking a pill whenever the date's weekday is the one
      the repeat names and advancing the date one day per repeat. It raises
      on the first repeat that is not a weekday name. */
  method TakePass(ds: seq<string>, start: Weekday, pills: int, offset: nat)
    returns (res: Result<(int, nat), SupplyError>)
    ensures res.Err? <==> FirstUnknownWeekday(ds).Some?
    ensures res.Err? ==> res.error == UnknownWeekday(FirstUnknownWeekday(ds).value)
    ensures res.Ok? ==> res.value == (pills - PassHits(ds, start, offset), offset + |ds|)
  {
    var left, date := pills, offset;
    var j := 0;
    while j < |ds|
      invariant 0 <= j <= |ds|
      invariant date == offset + j
      invariant left == pills - PassHits(ds[..j], start, offset)
      invariant forall t :: 0 <= t < j ==> DayIndex(ds[t]).Some?
    {
      var day := DayIndex(ds[j]);
      if day.None? {
        return Err(UnknownWeekday(ds[j]));
      }
      PassHitsStep(ds, start, offset, j);
      if (start + date) % 7 == day.value {
        left := left - 1;
      }
      date := date + 1;
      j := j + 1;
    }
    assert ds[..|ds|] == ds;
    res := Ok((left, date));
  }

  /** The nested simulation loops for one group, starting from `quantity`
      pills on a day whose weekday is `start`; the result is the number of
      days the simulated date advanced. */
  method SimulateGroup(quantity: int, ds: seq<string>, start: Weekday) returns (res: Result<nat, SupplyError>)
    ensures res == GroupSupply(quantity, ds, start)
  {
    var pills := quantity;
    var offset: nat := 0;
    var i := 0;
    while i < 1000
      invariant 0 <= i <= 1000
      invariant i > 0 ==> FirstUnknownWeekday(ds).None?
      invariant Run(pills, ds, start, i, offset) == Run(quantity, ds, start, 0, 0)
    {
      var pass := TakePass(ds, start, pills, offset);
      if pass.Err? {
        return Err(pass.error);
      }
      pills, offset := pass.value.0, pass.value.1;
      if pills < 1 {
        break;
      }
      i := i + 1;
    }
    res := Ok(offset);
  }

  /** The days-of-supply computation of the "Current Supply" card. */
  method MedicationSupply(meds: seq<Medication>, rows: seq<Administer>, start: Weekday)
    returns (res: Result<seq<int>, SupplyError>)
    ensures res == Projection(meds, rows, start)
  {
    var days: seq<int> := seq(|meds|, _ => 0);
    var groups: seq<Group> := [];
    var quantity := 0;
    var i := 0;
    while i < |rows|
      invariant 0 <= i <= |rows|
      invariant Scan(meds, rows[..i]) == Ok(Scanned(days, groups, quantity))
    {
      var a := rows[i];
      ScanStep(meds, rows, i);
      var found := CurrentQuantity(meds, a.name);
      if found.None? {
        ScanErrorPersists(meds, rows, i + 1);
        return Err(UnknownMedication(a.name));
      }
      quantity := found.value;
      if a.repeat == "daily" {
        days := AddDays(meds, days, a.name, quantity);
      } else {
        groups := AppendRepeat(groups, a.name, a.repeat);
      }
      i := i + 1;
    }
    assert rows[..|rows|] == rows;
    ghost var scanned := Scanned(days, groups, quantity);
    var g := 0;
    while g < |groups|
      invariant 0 <= g <= |groups|
      invariant |days| == |meds|
      invariant Fill(meds, scanned.days, groups[..g], quantity, start) == Ok(days)
    {
      FillStep(meds, scanned.days, groups, quantity, start, g);
      var n := SimulateGroup(quantity, groups[g].days, start);
      if n.Err? {
        FillErrorPersists(meds, scanned.days, groups, quantity, start, g + 1);
        return Err(n.error);
      }
      days := SetDays(meds, days, groups[g].name, n.value);
      g := g + 1;
    }
    assert groups[..|groups|] == groups;
    res := Ok(days);
  }

  // ---------------------------------------------------------------------
  // Helper lemmas: an exception ends the computation

  lemma ScanStep(meds: seq<Medication>, rows: seq<Administer>, i: nat)
    requires i < |rows|
    ensures Scan(meds, rows[..i]).Err? ==> Scan(meds, rows[..i + 1]) == Scan(meds, rows[..i])
    ensures Scan(meds, rows[..i]).Ok? ==>
      Scan(meds, rows[..i + 1]) == ScanRow(meds, Scan(meds, rows[..i]).value, rows[i])
  {
    assert rows[..i + 1][..i] == rows[..i];
  }

  lemma FillStep(meds: seq<Medication>, days: seq<int>, groups: seq<Group>, quantity: int, start: Weekday, g: nat)
    requires |days| == |meds| && g < |groups|
    ensures Fill(meds, days, groups[..g], quantity, start).Err? ==>
      Fill(meds, days, groups[..g + 1], quantity, start) == Fill(meds, days, groups[..g], quantity, start)
    ensures Fill(meds, days, groups[..g], quantity, start).Ok? ==>
      Fill(meds, days, groups[..g + 1], quantity, start) ==
        FillGroup(meds, Fill(meds, days, groups[..g], quantity, start).value, groups[g], quantity, start)
  {
    assert groups[..g + 1][..g] == groups[..g];
  }

  lemma PassHitsStep(ds: seq<string>, start: Weekday, offset: nat, j: nat)
    requires j < |ds|
    ensures PassHits(ds[..j + 1], start, offset) ==
      PassHits(ds[..j], start, offset) + if Hit(ds[j], start, offset + j) then 1 else 0
  {
    assert ds[..j + 1][..j] == ds[..j];
  }

  lemma {:induction false} ScanErrorPersists(meds: seq<Medication>, rows: seq<Administer>, n: nat)
    requires n <= |rows|
    requires Scan(meds, rows[..n]).Err?
    ensures Scan(meds, rows) == Scan(meds, rows[..n])
    decreases |rows|
  {
    if n == |rows| {
      assert rows[..n] == rows;
    } else {
      var init := rows[..|rows| - 1];
      assert init[..n] == rows[..n];
      ScanErrorPersists(meds, init, n);
    }
  }

  lemma {:induction false} FillErrorPersists(meds: seq<Medication>, days: seq<int>, groups: seq<Group>,
                                            quantity: int, start: Weekday, n: nat)
    requires |days| == |meds|
    requires n <= |groups|
    requires Fill(meds, days, groups[..n], quantity, start).Err?
    ensures Fill(meds, days, groups, quantity, start) == Fill(meds, days, groups[..n], quantity, start)
    decreases |groups|
  {
    if n == |groups| {
      assert groups[..n] == groups;
    } else {
      var init := groups[..|groups| - 1];
      assert init[..n] == groups[..n];
      FillErrorPersists(meds, days, init, quantity, start, n);
    }
  }
}
