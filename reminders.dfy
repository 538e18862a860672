/** The "Today's Medications" card: the administer rows due today, sorted
    into four sections by time of day, each section listing the medication
    names of its rows in row order. Today is given as a weekday. */
module Reminders {
  import opened Records

  /** The exception that escapes: a due row's time is not one of the four
      keys of the sections dictionary (KeyError). */
  datatype ReminderError = UnknownTime(time: string)

  /** A heading and the medication names listed under it. */
  datatype Section = Section(heading: string, names: seq<string>)

  /** The keys of the sections dictionary, in the order they are shown. */
  const TimeKeys: seq<string> := ["any", "morning", "mid-day", "night"]

  /** The heading shown for each key of `TimeKeys`. */
  const Headings: seq<string> := ["Any time", "Morning", "Mid-day", "Night"]

  /** The sections dictionary as it starts: every key with no rows. */
  const NoReminders: map<string, seq<Administer>> :=
    map["any" := [], "morning" := [], "mid-day" := [], "night" := []]

  /** A row is due today when it is daily or names today's weekday; a repeat
      that is not a weekday name is never due (its ValueError is caught). */
  predicate DueToday(a: Administer, today: Weekday)
  {
    a.repeat == "daily" || DayIndex(a.repeat) == Some(today)
  }

  /** The rows due today whose time is `key`, in row order. */
  function Bucket(rows: seq<Administer>, today: Weekday, key: string): (r: seq<Administer>)
    ensures forall a :: a in r <==> exists j :: 0 <= j < |rows| && rows[j] == a && DueToday(a, today) && a.time == key
  {
    if rows == [] then []
    else
      var init := rows[..|rows| - 1];
      var a := rows[|rows| - 1];
      assert forall j :: 0 <= j < |init| ==> init[j] == rows[j];
      Bucket(init, today, key) + (if DueToday(a, today) && a.time == key then [a] else [])
  }

  /** The first row loop: each due row is appended under its time, and the
      first due row with an unknown time raises. */
  function Collect(rows: seq<Administer>, today: Weekday): (r: Result<map<string, seq<Administer>>, ReminderError>)
    ensures r.Ok? ==> r.value.Keys == NoReminders.Keys
    decreases |rows|
  {
    if rows == [] then Ok(NoReminders)
    else
      match Collect(rows[..|rows| - 1], today)
      case Err(e) => Err(e)
      case Ok(m) => CollectRow(m, rows[|rows| - 1], today)
  }

  /** One iteration of the row loop. */
  function CollectRow(m: map<string, seq<Administer>>, a: Administer, today: Weekday)
    : Result<map<string, seq<Administer>>, ReminderError>
  {
    if !DueToday(a, today) then Ok(m)
    else if a.time !in m then Err(UnknownTime(a.time))
    else Ok(m[a.time := m[a.time] + [a]])
  }

  /** The medication names of `rows`, in order. */
  function Names(rows: seq<Administer>): (r: seq<string>)
    ensures |r| == |rows|
  {
    seq(|rows|, j requires 0 <= j < |rows| => rows[j].name)
  }

  /** The sections for the first `k` keys: one per key with rows, headed by
      the key's heading. */
  function SectionsUpTo(m: map<string, seq<Administer>>, k: nat): seq<Section>
    requires k <= |TimeKeys| && m.Keys == NoReminders.Keys
  {
    if k == 0 then []
    else
      var rows := m[TimeKeys[k - 1]];
      SectionsUpTo(m, k - 1) + (if rows == [] then [] else [Section(Headings[k - 1], Names(rows))])
  }

  /** What the card shows today, or the exception that escapes. */
  function TodaysReminders(rows: seq<Administer>, today: Weekday): Result<seq<Section>, ReminderError>
  {
    match Collect(rows, today)
    case Err(e) => Err(e)
    case Ok(m) => Ok(SectionsUpTo(m, |TimeKeys|))
  }

  /** The card's computation: a loop over the rows filling the sections
      dictionary, then the sections in key order, skipping empty ones. */
  method AdministerReminders(rows: seq<Administer>, today: Weekday) returns (res: Result<seq<Section>, ReminderError>)
    ensures res == TodaysReminders(rows, today)
  {
    var todays := NoReminders;
    var i := 0;
    while i < |rows|
      invariant 0 <= i <= |rows|
      invariant Collect(rows[..i], today) == Ok(todays)
    {
      var a := rows[i];
      CollectStep(rows, today, i);
      var due := false;
      if a.repeat == "daily" {
        due := true;
      } else {
        var day := DayIndex(a.repeat);
        due := day.Some? && day.value == today;
      }
      if due {
        if a.time !in todays {
          CollectErrorPersists(rows, today, i + 1);
          return Err(UnknownTime(a.time));
        }
        todays := todays[a.time := todays[a.time] + [a]];
      }
      i := i + 1;
    }
    assert rows[..|rows|] == rows;
    var sections: seq<Section> := [];
    var k := 0;
    while k < |TimeKeys|
      invariant 0 <= k <= |TimeKeys|
      invariant sections == SectionsUpTo(todays, k)
    {
      var bucket := todays[TimeKeys[k]];
      if bucket != [] {
        var names: seq<string> := [];
        var j := 0;
        while j < |bucket|
          invariant 0 <= j <= |bucket|
          invariant |names| == j
          invariant forall t :: 0 <= t < j ==> names[t] == bucket[t].name
        {
          names := names + [bucket[j].name];
          j := j + 1;
        }
        assert names == Names(bucket);
        sections := sections + [Section(Headings[k], names)];
      }
      k := k + 1;
    }
    res := Ok(sections);
  }

  // ---------------------------------------------------------------------
  // Helper lemmas for the row loop

  lemma CollectStep(rows: seq<Administer>, today: Weekday, i: nat)
    requires i < |rows|
    ensures Collect(rows[..i], today).Err? ==> Collect(rows[..i + 1], today) == Collect(rows[..i], today)
    ensures Collect(rows[..i], today).Ok? ==>
      Collect(rows[..i + 1], today) == CollectRow(Collect(rows[..i], today).value, rows[i], today)
  {
    assert rows[..i + 1][..i] == rows[..i];
  }

  lemma {:induction false} CollectErrorPersists(rows: seq<Administer>, today: Weekday, n: nat)
    requires n <= |rows|
    requires Collect(rows[..n], today).Err?
    ensures Collect(rows, today) == Collect(rows[..n], today)
    decreases |rows|
  {
    if n == |rows| {
      assert rows[..n] == rows;
    } else {
      var init := rows[..|rows| - 1];
      assert init[..n] == rows[..n];
      CollectErrorPersists(init, today, n);
    }
  }
}
