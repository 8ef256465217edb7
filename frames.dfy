/**
 * The flattened table the script works on: what `pd.json_normalize` returns
 * for the fetched records, given here as an ordered column list and one
 * string-keyed map per row. A key missing from a row reads as NaN.
 */
module Frames {
  import opened Common
  import opened Dates

  /** A cell: NaN, a JSON scalar, a nested list of (already flat) sub-records, or a parsed date. */
  datatype Value =
    | Missing
    | Str(s: string)
    | Num(x: real)
    | Bool(b: bool)
    | Records(items: seq<map<string, Value>>)
    | Day(d: Date)

  type Row = map<string, Value>

  /** `row[column]`, with NaN where the record lacked the key. */
  function CellOf(row: Row, column: string): Value {
    if column in row then row[column] else Missing
  }

  /** A date cell as the groupby reads it: NaT is no date. */
  function DateOf(v: Value): Option<Date> {
    if v.Day? then Some(v.d) else None
  }

  /** The cell written for an optional date: the date, or NaT. */
  function DateCell(d: Option<Date>): (v: Value)
    ensures DateOf(v) == d
  {
    if d.Some? then Day(d.value) else Missing
  }

  /** `pd.to_datetime(v, errors='coerce').date()` with the parser `toDate`: NaN always becomes NaT. */
  function ParseCell(toDate: Value -> Option<Date>, v: Value): (d: Option<Date>)
    ensures v.Missing? ==> d.None?
    ensures !v.Missing? ==> d == toDate(v)
  {
    if v.Missing? then None else toDate(v)
  }

  predicate Distinct(columns: seq<string>) {
    forall i, j :: 0 <= i < j < |columns| ==> columns[i] != columns[j]
  }

  /** The column list after assigning `name`: unchanged if present, else `name` appended. */
  function WithColumn(columns: seq<string>, name: string): (r: seq<string>)
    ensures name in r && (forall c :: c in columns ==> c in r)
    ensures |columns| <= |r| && r[..|columns|] == columns
    ensures forall c :: c in r ==> c in columns || c == name
    ensures Distinct(columns) ==> Distinct(r)
  {
    if name in columns then columns else columns + [name]
  }

  /** A pandas DataFrame, reduced to its column order and its rows. */
  class DataFrame {
    var columns: seq<string>
    var rows: seq<Row>

    /** Column labels are distinct and every key of every row is a column. */
    ghost predicate Valid()
      reads this
    {
      Distinct(columns) && forall i, k :: 0 <= i < |rows| && k in rows[i] ==> k in columns
    }

    constructor (columns: seq<string>, rows: seq<Row>)
      requires Distinct(columns)
      requires forall i, k :: 0 <= i < |rows| && k in rows[i] ==> k in columns
      ensures Valid() && this.columns == columns && this.rows == rows
    {
      this.columns := columns;
      this.rows := rows;
    }

    /** `df[name] = values`: the column is replaced, or appended at the end if it is new. */
    method SetColumn(name: string, values: seq<Value>)
      requires Valid() && |values| == |rows|
      modifies this
      ensures Valid()
      ensures columns == WithColumn(old(columns), name)
      ensures |rows| == |old(rows)|
      ensures forall i :: 0 <= i < |rows| ==> rows[i] == old(rows[i])[name := values[i]]
    {
      var before := rows;
      columns := WithColumn(columns, name);
      rows := seq(|before|, i requires 0 <= i < |before| => before[i][name := values[i]]);
      assert forall i, k :: 0 <= i < |rows| && k in rows[i] ==> k == name || k in before[i];
    }
  }
}
