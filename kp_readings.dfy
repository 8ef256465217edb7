/**
 * The GST path's `df.explode('allKpIndex')` followed by `pd.json_normalize`
 * of the exploded column: one row per Kp sub-reading. A record whose
 * `allKpIndex` is an empty list, NaN or a scalar explodes to one NaN, which
 * normalises to an empty row.
 */
module KpReadings {
  import opened Frames

  const KP_COLUMN := "allKpIndex"

  /** The rows one record contributes. */
  function SubReadings(row: Row): (r: seq<Row>)
    ensures |r| >= 1
  {
    var cell := CellOf(row, KP_COLUMN);
    if cell.Records? && cell.items != [] then cell.items else [map[]]
  }

  /** All records' sub-readings, record by record, each record's in list order. */
  function Explode(rows: seq<Row>): (r: seq<Row>)
    ensures |r| >= |rows|
    decreases |rows|
  {
    if rows == [] then [] else Explode(rows[..|rows| - 1]) + SubReadings(rows[|rows| - 1])
  }

  /** The explode-and-normalise pass, building the reading table record by record. */
  method ExplodeReadings(rows: seq<Row>) returns (readings: seq<Row>)
    ensures readings == Explode(rows)
  {
    readings := [];
    var i := 0;
    while i < |rows|
      invariant 0 <= i <= |rows|
      invariant readings == Explode(rows[..i])
    {
      assert rows[..i + 1][..i] == rows[..i];
      readings := readings + SubReadings(rows[i]);
      i := i + 1;
    }
    assert rows[..|rows|] == rows;
  }

  /** Exploding a concatenation explodes each part in turn: order across records is kept. */
  lemma {:induction false} ExplodeAppend(a: seq<Row>, b: seq<Row>)
    ensures Explode(a + b) == Explode(a) + Explode(b)
    decreases |b|
  {
    if b == [] {
      assert a + b == a;
    } else {
      var b' := b[..|b| - 1];
      var last := b[|b| - 1];
      assert (a + b)[..|a + b| - 1] == a + b';
      assert (a + b)[|a + b| - 1] == last;
      assert b[..|b| - 1] == b';
      calc {
        Explode(a + b);
        Explode(a + b') + SubReadings(last);
        { ExplodeAppend(a, b'); }
        Explode(a) + Explode(b') + SubReadings(last);
        Explode(a) + (Explode(b') + SubReadings(last));
        Explode(a) + Explode(b);
      }
    }
  }

  /** A single record yields exactly its own sub-readings, in list order. */
  lemma OneRecord(row: Row)
    ensures Explode([row]) == SubReadings(row)
  {
    assert [row][..0] == [];
  }

  /** Only the `allKpIndex` column matters: every other top-level field, `startTime` included, is dropped. */
  lemma {:induction false} ExplodeReadsOnlyKpColumn(rows: seq<Row>, others: seq<Row>)
    requires |rows| == |others|
    requires forall i :: 0 <= i < |rows| ==> CellOf(rows[i], KP_COLUMN) == CellOf(others[i], KP_COLUMN)
    ensures Explode(rows) == Explode(others)
    decreases |rows|
  {
    if rows != [] {
      var n := |rows| - 1;
      ExplodeReadsOnlyKpColumn(rows[..n], others[..n]);
    }
  }
}
