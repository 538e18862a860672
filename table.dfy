/** The rows of the "Medications" table: for every medication its name,
    its quantity as "current/start", the list of its administer rules as
    "repeat (time)" joined with ", ", and its expiration date. */
module MedicationTable {
  import opened Records

  /** One row of the table. */
  datatype Row = Row(medication: string, quantity: string, taken: string, expires: Date)

  // ---------------------------------------------------------------------
  // Integers as Python's f-string writes them

  predicate IsDigit(c: char)
  {
    '0' <= c <= '9'
  }

  function DigitChar(d: nat): (c: char)
    requires d < 10
    ensures IsDigit(c) && c as int - '0' as int == d
  {
    ('0' as int + d) as char
  }

  /** The decimal digits of `n`, without leading zeros. */
  function NatText(n: nat): (s: string)
    ensures |s| > 0 && forall i :: 0 <= i < |s| ==> IsDigit(s[i])
    decreases n
  {
    if n < 10 then [DigitChar(n)] else NatText(n / 10) + [DigitChar(n % 10)]
  }

  /** The decimal text of `i`, with a leading '-' when it is negative. */
  function IntText(i: int): string
  {
    if i < 0 then "-" + NatText(-i) else NatText(i)
  }

  /** The quantity column: current quantity, '/', start quantity. */
  function QuantityText(current: int, start: int): string
  {
    IntText(current) + "/" + IntText(start)
  }

  // ---------------------------------------------------------------------
  // The "Taken" column

  /** The (repeat, time) pairs of the rows for medication `name`, in row
      order. */
  function Schedule(rows: seq<Administer>, name: string): (r: seq<(string, string)>)
    ensures |r| <= |rows|
    ensures forall p :: p in r <==> exists j :: 0 <= j < |rows| && rows[j].name == name && p == (rows[j].repeat, rows[j].time)
  {
    if rows == [] then []
    else
      var init := rows[..|rows| - 1];
      var a := rows[|rows| - 1];
      assert forall j :: 0 <= j < |init| ==> init[j] == rows[j];
      Schedule(init, name) + (if a.name == name then [(a.repeat, a.time)] else [])
  }

  /** One entry of the column: `repeat (time)`. */
  function Entry(p: (string, string)): string
  {
    p.0 + " (" + p.1 + ")"
  }

  function Entries(ps: seq<(string, string)>): (r: seq<string>)
    ensures |r| == |ps|
  {
    seq(|ps|, i requires 0 <= i < |ps| => Entry(ps[i]))
  }

  /** `', '.join(xs)`. */
  function Join(xs: seq<string>): string
  {
    if |xs| == 0 then "" else if |xs| == 1 then xs[0] else xs[0] + ", " + Join(xs[1..])
  }

  // ---------------------------------------------------------------------
  // The table

  /** The row of medication `m`. */
  function TableRow(m: Medication, rows: seq<Administer>): Row
  {
    Row(m.name, QuantityText(m.currentQuantity, m.startQuantity), Join(Entries(Schedule(rows, m.name))), m.expiration)
  }

  /** The inner loop of the table: a pass over all the administer rows
      collecting the (repeat, time) pairs of medication `name`. */
  method CollectSchedule(rows: seq<Administer>, name: string) returns (taken: seq<(string, string)>)
    ensures taken == Schedule(rows, name)
  {
    taken := [];
    var j := 0;
    while j < |rows|
      invariant 0 <= j <= |rows|
      invariant taken == Schedule(rows[..j], name)
    {
      assert rows[..j + 1][..j] == rows[..j];
      if rows[j].name == name {
        taken := taken + [(rows[j].repeat, rows[j].time)];
      }
      j := j + 1;
    }
    assert rows[..|rows|] == rows;
  }

  /** The table-building loop: for each medication, its schedule, then its
      row. */
  method MedicationsTable(meds: seq<Medication>, rows: seq<Administer>) returns (table: seq<Row>)
    ensures |table| == |meds|
    ensures forall i :: 0 <= i < |meds| ==> table[i] == TableRow(meds[i], rows)
  {
    table := [];
    var i := 0;
    while i < |meds|
      invariant 0 <= i <= |meds|
      invariant |table| == i
      invariant forall k :: 0 <= k < i ==> table[k] == TableRow(meds[k], rows)
    {
      var m := meds[i];
      var taken := CollectSchedule(rows, m.name);
      var row := Row(m.name, QuantityText(m.currentQuantity, m.startQuantity), Join(Entries(taken)), m.expiration);
      RowsSnoc(table, meds, rows, row);
      table := table + [row];
      i := i + 1;
    }
  }

  lemma RowsSnoc(table: seq<Row>, meds: seq<Medication>, rows: seq<Administer>, row: Row)
    requires |table| < |meds|
    requires forall k :: 0 <= k < |table| ==> table[k] == TableRow(meds[k], rows)
    requires row == TableRow(meds[|table|], rows)
    ensures forall k :: 0 <= k <= |table| ==> (table + [row])[k] == TableRow(meds[k], rows)
  {
  }
}
