/**
 * Date-column resolution: the kind's mapped field if the table has that
 * column, else the first column whose lower-cased name contains "date" or
 * "time" (with a warning), else an all-NaT column (with an error). The chosen
 * column is parsed into a new `date` column of the DataFrame.
 */
module DateColumn {
  import opened Common
  import opened Dates
  import opened EventKinds
  import opened Frames

  /** A message shown with `st.warning` or `st.error`. */
  datatype Notice = Warning(text: string) | Error(text: string)

  const NO_DATE_FIELD_MESSAGE := "No suitable date field found in the data."

  /** Lower-casing of ASCII letters (`str.lower` on the column labels DONKI uses). */
  function Lower(s: string): (r: string)
    ensures |r| == |s|
  {
    if s == [] then []
    else [if 'A' <= s[0] <= 'Z' then (s[0] as int + 32) as char else s[0]] + Lower(s[1..])
  }

  /** Python's `sub in s`. */
  predicate Contains(s: string, sub: string)
    decreases |s|
  {
    |sub| <= |s| && (s[..|sub|] == sub || Contains(s[1..], sub))
  }

  /** An occurrence at any position makes `sub in s` true. */
  lemma {:induction false} ContainsAt(s: string, sub: string, i: nat)
    requires i + |sub| <= |s| && s[i..i + |sub|] == sub
    ensures Contains(s, sub)
    decreases i
  {
    if i > 0 {
      assert s[1..][i - 1..i - 1 + |sub|] == s[i..i + |sub|];
      ContainsAt(s[1..], sub, i - 1);
    }
  }

  /** If no position that leaves room for `sub` holds its first character, `sub in s` is false. */
  lemma {:induction false} NotContainsWithoutFirstChar(s: string, sub: string)
    requires sub != []
    requires forall i :: 0 <= i && i + |sub| <= |s| ==> s[i] != sub[0]
    ensures !Contains(s, sub)
    decreases |s|
  {
    if |sub| <= |s| {
      assert s[..|sub|][0] != sub[0];
      NotContainsWithoutFirstChar(s[1..], sub);
    }
  }

  /** `'date' in col.lower() or 'time' in col.lower()`. */
  predicate IsDateLike(column: string) {
    Contains(Lower(column), "date") || Contains(Lower(column), "time")
  }

  /** The position of `possible_keys[0]`: the first date-like column, if any. */
  function FindDateColumn(columns: seq<string>): (r: Option<nat>)
    ensures r.Some? ==> r.value < |columns| && IsDateLike(columns[r.value])
    ensures r.Some? ==> forall j :: 0 <= j < r.value ==> !IsDateLike(columns[j])
    ensures r.None? <==> forall j :: 0 <= j < |columns| ==> !IsDateLike(columns[j])
  {
    if columns == [] then None
    else if IsDateLike(columns[0]) then Some(0)
    else match FindDateColumn(columns[1..])
      case None => None
      case Some(i) => Some(i + 1)
  }

  /** Which column the dates come from, and by which rule. */
  datatype Resolution = Mapped(field: string) | Heuristic(field: string) | Unresolved

  /** `date_field and date_field in df.columns`. */
  predicate MappedFieldPresent(kind: string, columns: seq<string>) {
    DateField(kind).Some? && DateField(kind).value != "" && DateField(kind).value in columns
  }

  function ResolveDateField(kind: string, columns: seq<string>): (r: Resolution)
    ensures r.Mapped? <==> MappedFieldPresent(kind, columns)
    ensures r.Mapped? ==> Some(r.field) == DateField(kind)
    ensures r.Heuristic? ==> exists i :: 0 <= i < |columns| && columns[i] == r.field
                                      && IsDateLike(columns[i])
                                      && forall j :: 0 <= j < i ==> !IsDateLike(columns[j])
    ensures r.Unresolved? <==> !MappedFieldPresent(kind, columns)
                               && forall j :: 0 <= j < |columns| ==> !IsDateLike(columns[j])
  {
    if MappedFieldPresent(kind, columns) then Mapped(DateField(kind).value)
    else match FindDateColumn(columns)
      case Some(i) => Heuristic(columns[i])
      case None => Unresolved
  }

  /** Whenever the mapped field is a column, it is the one used. */
  lemma MappedWhenPresent(kind: string, columns: seq<string>)
    requires MappedFieldPresent(kind, columns)
    ensures ResolveDateField(kind, columns) == Mapped(DateField(kind).value)
  {
  }

  /** What the resolution shows: nothing, a warning naming the field, or an error. */
  function DateNotices(res: Resolution): (ns: seq<Notice>)
    ensures |ns| <= 1
    ensures ns == [] <==> res.Mapped?
    ensures ns != [] ==> (ns[0].Error? <==> res.Unresolved?)
  {
    match res
    case Mapped(_) => []
    case Heuristic(f) => [Warning("Using '" + f + "' as the date field.")]
    case Unresolved => [Error(NO_DATE_FIELD_MESSAGE)]
  }

  /** The value of the new `date` column, row by row. */
  function ResolvedDates(kind: string, columns: seq<string>, rows: seq<Row>, toDate: Value -> Option<Date>): (ds: seq<Option<Date>>)
    ensures |ds| == |rows|
    ensures ResolveDateField(kind, columns).Unresolved? ==> forall i :: 0 <= i < |ds| ==> ds[i] == None
    ensures !ResolveDateField(kind, columns).Unresolved? ==>
      forall i :: 0 <= i < |ds| ==> ds[i] == ParseCell(toDate, CellOf(rows[i], ResolveDateField(kind, columns).field))
  {
    match ResolveDateField(kind, columns)
    case Mapped(f) => seq(|rows|, i requires 0 <= i < |rows| => ParseCell(toDate, CellOf(rows[i], f)))
    case Heuristic(f) => seq(|rows|, i requires 0 <= i < |rows| => ParseCell(toDate, CellOf(rows[i], f)))
    case Unresolved => seq(|rows|, i requires 0 <= i < |rows| => None)
  }

  /** The rows after `df['date'] = dates`. */
  function WithDates(rows: seq<Row>, dates: seq<Option<Date>>): (r: seq<Row>)
    requires |dates| == |rows|
    ensures |r| == |rows|
    ensures forall i :: 0 <= i < |r| ==> DateOf(CellOf(r[i], "date")) == dates[i]
    ensures forall i, k :: 0 <= i < |r| && k != "date" ==> CellOf(r[i], k) == CellOf(rows[i], k)
  {
    seq(|rows|, i requires 0 <= i < |rows| => rows[i]["date" := DateCell(dates[i])])
  }

  /** The three-branch `date` assignment; returns what it showed. */
  method AssignDateColumn(df: DataFrame, kind: string, toDate: Value -> Option<Date>) returns (notices: seq<Notice>)
    requires df.Valid()
    modifies df
    ensures df.Valid()
    ensures notices == DateNotices(ResolveDateField(kind, old(df.columns)))
    ensures df.columns == WithColumn(old(df.columns), "date")
    ensures df.rows == WithDates(old(df.rows), ResolvedDates(kind, old(df.columns), old(df.rows), toDate))
  {
    var rows := df.rows;
    var field := DateField(kind);
    if field.Some? && field.value != "" && field.value in df.columns {
      notices := [];
      df.SetColumn("date", seq(|rows|, i requires 0 <= i < |rows| => DateCell(ParseCell(toDate, CellOf(rows[i], field.value)))));
    } else {
      var found := FindDateColumn(df.columns);
      if found.Some? {
        var f := df.columns[found.value];
        notices := [Warning("Using '" + f + "' as the date field.")];
        df.SetColumn("date", seq(|rows|, i requires 0 <= i < |rows| => DateCell(ParseCell(toDate, CellOf(rows[i], f)))));
      } else {
        notices := [Error(NO_DATE_FIELD_MESSAGE)];
        df.SetColumn("date", seq(|rows|, i requires 0 <= i < |rows| => Missing));
      }
    }
  }

  /** An unmapped kind never takes the mapped branch: it always goes to the column scan. */
  lemma UnmappedKindUsesHeuristic(kind: string, columns: seq<string>)
    requires kind !in KINDS
    ensures !ResolveDateField(kind, columns).Mapped?
  {
  }

  /** The mapped field is used without a message; a scanned field is named in a warning; no field gives an error. */
  lemma ResolutionNotices(kind: string, columns: seq<string>)
    ensures var r := ResolveDateField(kind, columns);
      && (r.Mapped? ==> DateNotices(r) == [])
      && (r.Heuristic? ==> DateNotices(r) == [Warning("Using '" + r.field + "' as the date field.")])
      && (r.Unresolved? ==> DateNotices(r) == [Error("No suitable date field found in the data.")])
  {
  }

  /** With no usable column every row's date is NaT. */
  lemma UnresolvedMeansNoDates(kind: string, columns: seq<string>, rows: seq<Row>, toDate: Value -> Option<Date>)
    requires ResolveDateField(kind, columns).Unresolved?
    ensures forall i :: 0 <= i < |rows| ==> ResolvedDates(kind, columns, rows, toDate)[i] == None
  {
  }

  /** Any solar flare table without `beginTime` whose first date-like column is `eventTime` uses it, with a warning naming it. */
  lemma EventTimeFallback(columns: seq<string>, i: nat)
    requires "beginTime" !in columns
    requires i < |columns| && columns[i] == "eventTime"
    requires forall j :: 0 <= j < i ==> !IsDateLike(columns[j])
    ensures ResolveDateField("FLR", columns) == Heuristic("eventTime")
    ensures DateNotices(ResolveDateField("FLR", columns)) == [Warning("Using 'eventTime' as the date field.")]
  {
    EventTimeIsDateLike();
    assert !MappedFieldPresent("FLR", columns) by {
      assert DateField("FLR") == Some("beginTime");
    }
    var r := ResolveDateField("FLR", columns);
    assert r.Heuristic?;
    var k :| 0 <= k < |columns| && columns[k] == r.field && IsDateLike(columns[k])
             && forall j :: 0 <= j < k ==> !IsDateLike(columns[j]);
    assert k == i;
    EventTimeWarning();
  }

  lemma EventTimeWarning()
    ensures DateNotices(Heuristic("eventTime")) == [Warning("Using 'eventTime' as the date field.")]
  {
    var text := "Using '" + "eventTime" + "' as the date field.";
    var want := "Using 'eventTime' as the date field.";
    assert |text| == |want|;
    forall k | 0 <= k < |want| ensures text[k] == want[k] {
    }
    assert text == want;
    assert DateNotices(Heuristic("eventTime")) == [Warning(text)];
  }

  /** The flare table `flrID, eventTime, classType` takes its dates from `eventTime`. */
  lemma FlareTableUsesEventTime()
    ensures ResolveDateField("FLR", ["flrID", "eventTime", "classType"]) == Heuristic("eventTime")
  {
    FirstDateLikeIsEventTime();
    BeginTimeAbsent();
  }

  lemma BeginTimeAbsent()
    ensures !MappedFieldPresent("FLR", ["flrID", "eventTime", "classType"])
  {
    assert DateField("FLR") == Some("beginTime");
    var cols := ["flrID", "eventTime", "classType"];
    assert cols[0][0] != 'b' && cols[1][0] != 'b' && cols[2][0] != 'b';
  }

  lemma FirstDateLikeIsEventTime()
    ensures FindDateColumn(["flrID", "eventTime", "classType"]) == Some(1)
  {
    FlrIdIsNotDateLike();
    EventTimeIsDateLike();
    assert ["flrID", "eventTime", "classType"][1..] == ["eventTime", "classType"];
  }

  lemma FlrIdIsNotDateLike()
    ensures !IsDateLike("flrID")
  {
    assert Lower("flrID") == "flrid";
    NotContainsWithoutFirstChar("flrid", "date");
    NotContainsWithoutFirstChar("flrid", "time");
  }

  lemma EventTimeIsDateLike()
    ensures IsDateLike("eventTime")
  {
    assert Lower("eventTime") == "eventtime";
    assert "eventtime"[5..9] == "time";
    ContainsAt("eventtime", "time", 5);
  }
}
