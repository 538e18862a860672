/** What today's reminders promise, proved about their specification
    functions (and so, through its postcondition, about the method). */
module ReminderLemmas {
  import opened Records
  import opened Reminders

  /** The rows of `rows` that are due today, in row order. */
  function DueRows(rows: seq<Administer>, today: Weekday): (r: seq<Administer>)
    ensures forall a :: a in r <==> a in rows && DueToday(a, today)
  {
    if rows == [] then []
    else
      var init := rows[..|rows| - 1];
      var a := rows[|rows| - 1];
      assert rows == init + [a];
      DueRows(init, today) + (if DueToday(a, today) then [a] else [])
  }

  /** The row loop succeeds exactly when every row due today has one of the
      four times; rows not due today are never looked up. */
  lemma {:induction false} CollectOkIff(rows: seq<Administer>, today: Weekday)
    ensures Collect(rows, today).Ok? <==>
      forall j :: 0 <= j < |rows| && DueToday(rows[j], today) ==> rows[j].time in TimeKeys
    decreases |rows|
  {
    if rows != [] {
      var init := rows[..|rows| - 1];
      CollectOkIff(init, today);
      assert forall j :: 0 <= j < |init| ==> init[j] == rows[j];
    }
  }

  /** The first due row with an unknown time is the one that raises. */
  lemma CollectFirstError(rows: seq<Administer>, today: Weekday, j: nat)
    requires j < |rows| && DueToday(rows[j], today) && rows[j].time !in TimeKeys
    requires forall t :: 0 <= t < j && DueToday(rows[t], today) ==> rows[t].time in TimeKeys
    ensures Collect(rows, today) == Err(UnknownTime(rows[j].time))
  {
    var pre := rows[..j];
    assert forall t :: 0 <= t < j ==> pre[t] == rows[t];
    CollectOkIff(pre, today);
    CollectStep(rows, today, j);
    CollectErrorPersists(rows, today, j + 1);
  }

  /** After the row loop, each time's list holds exactly the rows due today
      with that time, in row order. */
  lemma {:induction false} CollectBuckets(rows: seq<Administer>, today: Weekday)
    requires Collect(rows, today).Ok?
    ensures forall key :: key in TimeKeys ==> Collect(rows, today).value[key] == Bucket(rows, today, key)
    decreases |rows|
  {
    if rows != [] {
      var init := rows[..|rows| - 1];
      assert rows[..|rows| - 1] == init;
      CollectStep(rows, today, |rows| - 1);
      assert rows[..|rows|] == rows;
      CollectBuckets(init, today);
    }
  }

  /** The sections are those of the keys with rows, in key order, each
      headed by its key's heading and listing its rows' names; `ks` are
      the indices of those keys. */
  lemma {:induction false} SectionsOfKeys(m: map<string, seq<Administer>>, k: nat) returns (ks: seq<nat>)
    requires k <= |TimeKeys| && m.Keys == NoReminders.Keys
    ensures |ks| == |SectionsUpTo(m, k)|
    ensures forall a, b :: 0 <= a < b < |ks| ==> ks[a] < ks[b]
    ensures forall t: nat :: t in ks <==> t < k && m[TimeKeys[t]] != []
    ensures forall i :: 0 <= i < |ks| ==> ks[i] < k
    ensures forall i :: 0 <= i < |ks| ==>
      SectionsUpTo(m, k)[i] == Section(Headings[ks[i]], Names(m[TimeKeys[ks[i]]]))
  {
    if k == 0 {
      ks := [];
    } else {
      var before := SectionsOfKeys(m, k - 1);
      var rows := m[TimeKeys[k - 1]];
      var prev, now := SectionsUpTo(m, k - 1), SectionsUpTo(m, k);
      if rows == [] {
        assert now == prev;
        ks := before;
      } else {
        var last := Section(Headings[k - 1], Names(rows));
        assert now == prev + [last];
        ks := before + [k - 1];
        forall i | 0 <= i < |ks| ensures now[i] == Section(Headings[ks[i]], Names(m[TimeKeys[ks[i]]])) {
          if i < |before| {
            assert ks[i] == before[i] && now[i] == prev[i];
          } else {
            assert ks[i] == k - 1 && now[i] == last;
          }
        }
      }
    }
  }

  /** Today's card: one section per time that has rows due today, in the
      order any, morning, mid-day, night; the section of a time lists the
      names of exactly the rows due today with that time, in row order. */
  lemma TodaysSections(rows: seq<Administer>, today: Weekday) returns (ks: seq<nat>)
    requires TodaysReminders(rows, today).Ok?
    ensures |ks| == |TodaysReminders(rows, today).value|
    ensures forall a, b :: 0 <= a < b < |ks| ==> ks[a] < ks[b]
    ensures forall t: nat :: t in ks <==> t < |TimeKeys| && Bucket(rows, today, TimeKeys[t]) != []
    ensures forall i :: 0 <= i < |ks| ==> ks[i] < |TimeKeys|
    ensures forall i :: 0 <= i < |ks| ==>
      TodaysReminders(rows, today).value[i] == Section(Headings[ks[i]], Names(Bucket(rows, today, TimeKeys[ks[i]])))
  {
    var m := Collect(rows, today).value;
    CollectBuckets(rows, today);
    ks := SectionsOfKeys(m, |TimeKeys|);
    forall t | 0 <= t < |TimeKeys| ensures m[TimeKeys[t]] == Bucket(rows, today, TimeKeys[t]) {
      assert TimeKeys[t] in TimeKeys;
    }
  }

  /** Rows not due today (including those whose repeat names no weekday)
      change nothing: the card is the card of the due rows alone. */
  lemma {:induction false} OnlyDueRowsMatter(rows: seq<Administer>, today: Weekday)
    ensures Collect(rows, today) == Collect(DueRows(rows, today), today)
    ensures TodaysReminders(rows, today) == TodaysReminders(DueRows(rows, today), today)
    decreases |rows|
  {
    if rows != [] {
      var init := rows[..|rows| - 1];
      var a := rows[|rows| - 1];
      OnlyDueRowsMatter(init, today);
      assert rows == init + [a];
      CollectSnoc(init, a, today);
      var d := DueRows(init, today);
      if DueToday(a, today) {
        assert DueRows(rows, today) == d + [a];
        CollectSnoc(d, a, today);
      } else {
        assert DueRows(rows, today) == d;
      }
    }
  }

  /** The row loop over `xs` followed by one more row. */
  lemma CollectSnoc(xs: seq<Administer>, a: Administer, today: Weekday)
    ensures Collect(xs, today).Err? ==> Collect(xs + [a], today) == Collect(xs, today)
    ensures Collect(xs, today).Ok? ==> Collect(xs + [a], today) == CollectRow(Collect(xs, today).value, a, today)
  {
    assert (xs + [a])[..|xs|] == xs;
  }
}
