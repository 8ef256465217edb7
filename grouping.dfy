/**
 * `groupby('date')` with pandas' defaults: NaT keys are dropped and the
 * groups come out in ascending date order, each holding its members in input
 * order. On top of it, the two reductions the script uses: the group size
 * (`.size()`) and the NaN-skipping mean (`.agg({'kpIndex': 'mean'})`).
 */
module Grouping {
  import opened Common
  import opened Dates

  datatype Group<V> = Group(date: Date, members: seq<V>)

  /** The values of the items dated `d`, in input order. */
  function On<V>(items: seq<(Option<Date>, V)>, d: Date): seq<V>
    decreases |items|
  {
    if items == [] then []
    else
      var last := items[|items| - 1];
      On(items[..|items| - 1], d) + (if last.0 == Some(d) then [last.1] else [])
  }

  /** How many items carry a date at all. */
  function CountDated<V>(items: seq<(Option<Date>, V)>): nat
    decreases |items|
  {
    if items == [] then 0
    else CountDated(items[..|items| - 1]) + (if items[|items| - 1].0.Some? then 1 else 0)
  }

  /** Adds `v` to the group for `d`, creating it in date order if it is new. */
  function Insert<V>(gs: seq<Group<V>>, d: Date, v: V): seq<Group<V>>
    decreases |gs|
  {
    if gs == [] then [Group(d, [v])]
    else if gs[0].date == d then [Group(d, gs[0].members + [v])] + gs[1..]
    else if Before(d, gs[0].date) then [Group(d, [v])] + gs
    else [gs[0]] + Insert(gs[1..], d, v)
  }

  /** `groupby('date')` over (date, value) pairs, taken in input order. */
  function GroupByDate<V>(items: seq<(Option<Date>, V)>): seq<Group<V>>
    decreases |items|
  {
    if items == [] then []
    else
      var rest := GroupByDate(items[..|items| - 1]);
      var last := items[|items| - 1];
      if last.0.Some? then Insert(rest, last.0.value, last.1) else rest
  }

  /** The members of the group for `d`, or none. */
  function Lookup<V>(gs: seq<Group<V>>, d: Date): seq<V>
    decreases |gs|
  {
    if gs == [] then [] else if gs[0].date == d then gs[0].members else Lookup(gs[1..], d)
  }

  ghost predicate Ascending<V>(gs: seq<Group<V>>) {
    forall i, j :: 0 <= i < j < |gs| ==> Before(gs[i].date, gs[j].date)
  }

  ghost predicate NonEmptyGroups<V>(gs: seq<Group<V>>) {
    forall i :: 0 <= i < |gs| ==> gs[i].members != []
  }

  function TotalSize<V>(gs: seq<Group<V>>): nat
    decreases |gs|
  {
    if gs == [] then 0 else |gs[0].members| + TotalSize(gs[1..])
  }

  lemma {:induction false} LookupBeforeFirst<V>(gs: seq<Group<V>>, d: Date)
    requires Ascending(gs)
    requires gs == [] || Before(d, gs[0].date)
    ensures Lookup(gs, d) == []
    decreases |gs|
  {
    if gs != [] {
      if |gs| > 1 {
        assert Before(gs[0].date, gs[1].date);
      }
      LookupBeforeFirst(gs[1..], d);
    }
  }

  lemma {:induction false} InsertCorrect<V>(gs: seq<Group<V>>, d: Date, v: V)
    requires Ascending(gs) && NonEmptyGroups(gs)
    ensures var r := Insert(gs, d, v);
      && Ascending(r) && NonEmptyGroups(r)
      && r != [] && r[0].date == (if gs != [] && Before(gs[0].date, d) then gs[0].date else d)
      && (forall e :: Lookup(r, e) == Lookup(gs, e) + (if e == d then [v] else []))
      && TotalSize(r) == TotalSize(gs) + 1
    decreases |gs|
  {
    if gs == [] {
    } else if gs[0].date == d {
      InsertIntoFirst(gs, d, v);
    } else if Before(d, gs[0].date) {
      InsertAtFront(gs, d, v);
    } else {
      InsertCorrect(gs[1..], d, v);
      InsertLater(gs, d, v);
    }
  }

  lemma InsertIntoFirst<V>(gs: seq<Group<V>>, d: Date, v: V)
    requires Ascending(gs) && NonEmptyGroups(gs)
    requires gs != [] && gs[0].date == d
    ensures var r := Insert(gs, d, v);
      && Ascending(r) && NonEmptyGroups(r)
      && r != [] && r[0].date == d
      && (forall e :: Lookup(r, e) == Lookup(gs, e) + (if e == d then [v] else []))
      && TotalSize(r) == TotalSize(gs) + 1
  {
    var r := Insert(gs, d, v);
    assert r[1..] == gs[1..];
  }

  lemma InsertAtFront<V>(gs: seq<Group<V>>, d: Date, v: V)
    requires Ascending(gs) && NonEmptyGroups(gs)
    requires gs != [] && Before(d, gs[0].date)
    ensures var r := Insert(gs, d, v);
      && Ascending(r) && NonEmptyGroups(r)
      && r != [] && r[0].date == d
      && (forall e :: Lookup(r, e) == Lookup(gs, e) + (if e == d then [v] else []))
      && TotalSize(r) == TotalSize(gs) + 1
  {
    var r := Insert(gs, d, v);
    assert r == [Group(d, [v])] + gs && r[1..] == gs;
    forall e ensures Lookup(r, e) == Lookup(gs, e) + (if e == d then [v] else []) {
      if e == d { LookupBeforeFirst(gs, d); }
    }
  }

  lemma InsertLater<V>(gs: seq<Group<V>>, d: Date, v: V)
    requires Ascending(gs) && NonEmptyGroups(gs)
    requires gs != [] && gs[0].date != d && !Before(d, gs[0].date)
    requires var t := Insert(gs[1..], d, v);
      && Ascending(t) && NonEmptyGroups(t)
      && t != [] && t[0].date == (if gs[1..] != [] && Before(gs[1].date, d) then gs[1].date else d)
      && (forall e :: Lookup(t, e) == Lookup(gs[1..], e) + (if e == d then [v] else []))
      && TotalSize(t) == TotalSize(gs[1..]) + 1
    ensures var r := Insert(gs, d, v);
      && Ascending(r) && NonEmptyGroups(r)
      && r != [] && r[0].date == gs[0].date
      && (forall e :: Lookup(r, e) == Lookup(gs, e) + (if e == d then [v] else []))
      && TotalSize(r) == TotalSize(gs) + 1
  {
    var r := Insert(gs, d, v);
    var t := Insert(gs[1..], d, v);
    assert r == [gs[0]] + t && r[1..] == t;
    if |gs| > 1 {
      assert Before(gs[0].date, gs[1].date);
    }
    assert Before(gs[0].date, t[0].date);
    forall i, j | 0 <= i < j < |r| ensures Before(r[i].date, r[j].date) {
      if i > 0 {
        assert r[i] == t[i - 1] && r[j] == t[j - 1];
      } else if j > 1 {
        assert Before(t[0].date, t[j - 1].date);
      }
    }
  }

  /** In ascending groups, each group's members are what `Lookup` finds for its date. */
  lemma {:induction false} LookupAt<V>(gs: seq<Group<V>>, i: nat)
    requires Ascending(gs) && i < |gs|
    ensures Lookup(gs, gs[i].date) == gs[i].members
    decreases i
  {
    if i > 0 {
      assert Before(gs[0].date, gs[i].date);
      assert gs[1..][i - 1] == gs[i];
      LookupAt(gs[1..], i - 1);
    }
  }

  /** A date `Lookup` finds something for is the date of one of the groups. */
  lemma {:induction false} LookupFound<V>(gs: seq<Group<V>>, d: Date)
    requires Lookup(gs, d) != []
    ensures exists i :: 0 <= i < |gs| && gs[i].date == d
    decreases |gs|
  {
    if gs[0].date != d {
      LookupFound(gs[1..], d);
      var i :| 0 <= i < |gs[1..]| && gs[1..][i].date == d;
      assert gs[i + 1].date == d;
    }
  }

  lemma {:induction false} GroupByDateInvariant<V>(items: seq<(Option<Date>, V)>)
    ensures var gs := GroupByDate(items);
      && Ascending(gs) && NonEmptyGroups(gs)
      && (forall e :: Lookup(gs, e) == On(items, e))
      && TotalSize(gs) == CountDated(items)
    decreases |items|
  {
    if items != [] {
      var prefix := items[..|items| - 1];
      var last := items[|items| - 1];
      GroupByDateInvariant(prefix);
      if last.0.Some? {
        InsertCorrect(GroupByDate(prefix), last.0.value, last.1);
      }
    }
  }

  /**
   * The groups are in strictly ascending date order (so each date occurs
   * once), each group holds exactly the items of its date and at least one,
   * every dated item's date has a group, and the group sizes add up to the
   * number of dated items: undated items are dropped.
   */
  lemma {:induction false} GroupByDateCorrect<V>(items: seq<(Option<Date>, V)>)
    ensures var gs := GroupByDate(items);
      && (forall i, j :: 0 <= i < j < |gs| ==> Before(gs[i].date, gs[j].date))
      && (forall i :: 0 <= i < |gs| ==> gs[i].members == On(items, gs[i].date) && |gs[i].members| >= 1)
      && (forall d :: On(items, d) != [] ==> exists i :: 0 <= i < |gs| && gs[i].date == d)
      && TotalSize(gs) == CountDated(items)
  {
    var gs := GroupByDate(items);
    GroupByDateInvariant(items);
    forall i | 0 <= i < |gs| ensures gs[i].members == On(items, gs[i].date) {
      LookupAt(gs, i);
    }
    forall d | On(items, d) != [] ensures exists i :: 0 <= i < |gs| && gs[i].date == d {
      LookupFound(gs, d);
    }
  }

  /** The present values: pandas' mean skips NaN. */
  function Present(xs: seq<Option<real>>): (r: seq<real>)
    ensures |r| <= |xs|
    decreases |xs|
  {
    if xs == [] then []
    else Present(xs[..|xs| - 1]) + (if xs[|xs| - 1].Some? then [xs[|xs| - 1].value] else [])
  }

  function Sum(xs: seq<real>): real
    decreases |xs|
  {
    if xs == [] then 0.0 else xs[0] + Sum(xs[1..])
  }

  function Min(xs: seq<real>): (m: real)
    requires xs != []
    ensures m in xs && forall i :: 0 <= i < |xs| ==> m <= xs[i]
    decreases |xs|
  {
    if |xs| == 1 then xs[0]
    else var m := Min(xs[1..]); if xs[0] <= m then xs[0] else m
  }

  function Max(xs: seq<real>): (m: real)
    requires xs != []
    ensures m in xs && forall i :: 0 <= i < |xs| ==> xs[i] <= m
    decreases |xs|
  {
    if |xs| == 1 then xs[0]
    else var m := Max(xs[1..]); if xs[0] >= m then xs[0] else m
  }

  /** The arithmetic mean of the present values; NaN (None) when there are none. */
  function Mean(xs: seq<Option<real>>): (m: Option<real>)
    ensures m.None? <==> Present(xs) == []
    ensures m.Some? ==> Min(Present(xs)) <= m.value <= Max(Present(xs))
  {
    var p := Present(xs);
    if p == [] then None
    else
      MeanWithin(p, Min(p), Max(p));
      Some(Sum(p) / (|p| as real))
  }

  lemma {:induction false} SumBetween(xs: seq<real>, lo: real, hi: real)
    requires forall i :: 0 <= i < |xs| ==> lo <= xs[i] <= hi
    ensures lo * (|xs| as real) <= Sum(xs) <= hi * (|xs| as real)
    decreases |xs|
  {
    if xs != [] {
      SumBetween(xs[1..], lo, hi);
    }
  }

  lemma DivideBounds(s: real, n: real, lo: real, hi: real)
    requires n > 0.0 && lo * n <= s <= hi * n
    ensures lo <= s / n <= hi
  {
    assert (s / n) * n == s;
  }

  /** A mean of values that all lie in `[lo, hi]` lies in `[lo, hi]`. */
  lemma MeanWithin(p: seq<real>, lo: real, hi: real)
    requires p != []
    requires forall i :: 0 <= i < |p| ==> lo <= p[i] <= hi
    ensures lo <= Sum(p) / (|p| as real) <= hi
  {
    SumBetween(p, lo, hi);
    DivideBounds(Sum(p), |p| as real, lo, hi);
  }

  /** The mean of a group lies between the group's least and greatest value. */
  lemma MeanBounded(xs: seq<Option<real>>)
    requires Mean(xs).Some?
    ensures var p := Present(xs);
      p != [] && Min(p) <= Mean(xs).value <= Max(p)
  {
    var p := Present(xs);
    var lo, hi := Min(p), Max(p);
    MeanWithin(p, lo, hi);
  }
}
