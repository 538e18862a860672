/** The text columns of the medications table can be read back: the
    quantity column gives back both quantities, and the "Taken" column
    gives back the list of a medication's rules. */
module TableLemmas {
  import opened Records
  import opened MedicationTable

  // ---------------------------------------------------------------------
  // Reading integers back

  predicate AllDigits(s: string)
  {
    forall i :: 0 <= i < |s| ==> IsDigit(s[i])
  }

  /** The value of a string of decimal digits. */
  function ParseNat(s: string): nat
    requires AllDigits(s)
  {
    if s == [] then 0 else ParseNat(s[..|s| - 1]) * 10 + (s[|s| - 1] as int - '0' as int)
  }

  /** The value of the text of an integer, or None when it is not one. */
  function ParseInt(s: string): Option<int>
  {
    if |s| > 1 && s[0] == '-' && AllDigits(s[1..]) then Some(0 - ParseNat(s[1..]) as int)
    else if |s| > 0 && AllDigits(s) then Some(ParseNat(s))
    else None
  }

  lemma {:induction false} ParseNatText(n: nat)
    ensures ParseNat(NatText(n)) == n
    decreases n
  {
    var s := NatText(n);
    if n >= 10 {
      assert s[..|s| - 1] == NatText(n / 10);
      ParseNatText(n / 10);
    }
  }

  /** The text of an integer reads back as that integer. */
  lemma {:induction false} ParseIntText(i: int)
    ensures ParseInt(IntText(i)) == Some(i)
  {
    if i < 0 {
      assert IntText(i)[1..] == NatText(-i);
      ParseNatText(-i);
    } else {
      ParseNatText(i);
    }
  }

  // ---------------------------------------------------------------------
  // Finding a separator

  /** The position of the first `c` in `s`. */
  function FirstIndex(s: string, c: char): (r: Option<nat>)
    ensures r.None? <==> c !in s
    ensures r.Some? ==> r.value < |s| && s[r.value] == c && c !in s[..r.value]
  {
    if s == [] then None
    else if s[0] == c then Some(0)
    else
      match FirstIndex(s[1..], c)
      case None => None
      case Some(k) =>
        assert s[..k + 1] == [s[0]] + s[1..][..k];
        Some(k + 1)
  }

  lemma {:induction false} FirstIndexOfJoin(a: string, c: char, b: string)
    requires c !in a
    ensures FirstIndex(a + [c] + b, c) == Some(|a|)
  {
    var s := a + [c] + b;
    assert s[|a|] == c;
    assert forall t :: 0 <= t < |a| ==> s[t] == a[t];
  }

  // ---------------------------------------------------------------------
  // The quantity column

  /** The two integers of a "current/start" text. */
  function ParseQuantity(s: string): Option<(int, int)>
  {
    match FirstIndex(s, '/')
    case None => None
    case Some(k) =>
      match (ParseInt(s[..k]), ParseInt(s[k + 1..]))
      case (Some(current), Some(start)) => Some((current, start))
      case _ => None
  }

  lemma {:induction false} IntTextHasNoSlash(i: int)
    ensures '/' !in IntText(i)
  {
    var s := IntText(i);
    forall k | 0 <= k < |s| ensures s[k] != '/' {
      if i < 0 && k > 0 {
        assert s[k] == NatText(-i)[k - 1];
      }
    }
  }

  /** The quantity column gives back the current and the start quantity. */
  lemma {:induction false} QuantityRoundTrip(current: int, start: int)
    ensures ParseQuantity(QuantityText(current, start)) == Some((current, start))
  {
    var a, b := IntText(current), IntText(start);
    IntTextHasNoSlash(current);
    FirstIndexOfJoin(a, '/', b);
    assert QuantityText(current, start) == a + ['/'] + b;
    assert (a + ['/'] + b)[..|a|] == a;
    assert (a + ['/'] + b)[|a| + 1..] == b;
    ParseIntText(current);
    ParseIntText(start);
  }

  // ---------------------------------------------------------------------
  // The "Taken" column

  /** The pieces of `s` between the ", " separators. */
  function SplitEntries(s: string): seq<string>
    decreases |s|
  {
    match FirstIndex(s, ',')
    case None => [s]
    case Some(k) => [s[..k]] + SplitEntries(if k + 2 <= |s| then s[k + 2..] else [])
  }

  /** Joining entries without commas and splitting the result gives them
      back. */
  lemma {:induction false} SplitJoin(xs: seq<string>)
    requires |xs| > 0
    requires forall i :: 0 <= i < |xs| ==> ',' !in xs[i]
    ensures SplitEntries(Join(xs)) == xs
    decreases |xs|
  {
    if |xs| > 1 {
      SplitFirst(xs[0], Join(xs[1..]));
      SplitJoin(xs[1..]);
      assert xs == [xs[0]] + xs[1..];
    }
  }

  /** Splitting stops at the first separator. */
  lemma {:induction false} SplitFirst(a: string, rest: string)
    requires ',' !in a
    ensures SplitEntries(a + ", " + rest) == [a] + SplitEntries(rest)
  {
    var s := a + [','] + (" " + rest);
    assert a + ", " + rest == s;
    FirstIndexOfJoin(a, ',', " " + rest);
    assert s[..|a|] == a;
    assert s[|a| + 2..] == rest;
  }

  lemma {:induction false} EntryHasNoComma(p: (string, string))
    requires ',' !in p.0 && ',' !in p.1
    ensures ',' !in Entry(p)
  {
    var e := Entry(p);
    forall k | 0 <= k < |e| ensures e[k] != ',' {
      if k < |p.0| {
        assert e[k] == p.0[k];
      } else if |p.0| + 2 <= k < |p.0| + 2 + |p.1| {
        assert e[k] == p.1[k - |p.0| - 2];
      }
    }
  }

  lemma {:induction false} JoinEmptyIff(xs: seq<string>)
    requires forall i :: 0 <= i < |xs| ==> xs[i] != ""
    ensures Join(xs) == "" <==> xs == []
  {
    if |xs| > 1 {
      assert |Join(xs)| >= |xs[0]|;
    }
  }

  lemma {:induction false} ScheduleEmptyIff(rows: seq<Administer>, name: string)
    ensures Schedule(rows, name) == [] <==> forall j :: 0 <= j < |rows| ==> rows[j].name != name
  {
    var ps := Schedule(rows, name);
    if ps != [] {
      assert ps[0] in ps;
    }
    forall j | 0 <= j < |rows| && rows[j].name == name ensures ps != [] {
      assert (rows[j].repeat, rows[j].time) in ps;
    }
  }

  /** The "Taken" column of a medication is empty exactly when no rule names
      it; otherwise, when no repeat or time of its rules holds a comma, it
      splits back into one "repeat (time)" entry per rule, in row order. */
  lemma {:induction false} TakenColumn(m: Medication, rows: seq<Administer>)
    requires forall j :: 0 <= j < |rows| && rows[j].name == m.name ==> ',' !in rows[j].repeat && ',' !in rows[j].time
    ensures TableRow(m, rows).taken == "" <==> forall j :: 0 <= j < |rows| ==> rows[j].name != m.name
    ensures TableRow(m, rows).taken != "" ==> SplitEntries(TableRow(m, rows).taken) == Entries(Schedule(rows, m.name))
  {
    var ps := Schedule(rows, m.name);
    var es := Entries(ps);
    assert TableRow(m, rows).taken == Join(es);
    forall i | 0 <= i < |es| ensures es[i] != "" && ',' !in es[i] {
      assert ps[i] in ps;
      assert |es[i]| >= 3;
      EntryHasNoComma(ps[i]);
    }
    JoinEmptyIff(es);
    ScheduleEmptyIff(rows, m.name);
    if es != [] {
      SplitJoin(es);
    }
  }
}
