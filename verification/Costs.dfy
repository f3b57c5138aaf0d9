/** The cost series: each invoice beside a reference, the mean of up to six earlier ones, and a flag
    when it is too far above it. Amounts are whole cents, as the NUMERIC(12, 2) column holds them. */
module Costs {
  import opened Decimals
  import opened Text

  const WINDOW: nat := 6
  const MIN_HISTORY: nat := 3

  /** Ids are UUIDs, whose texts sort as their numbers do. */
  datatype Row = Row(id: nat, when: nat, total: nat)

  datatype Point = Point(id: nat, when: nat, total: nat, reference: Option<Decimal>, flagged: bool)

  // ---------- the rules ----------

  /** Python's `sum`, which adds one amount after the other. */
  function Sum(totals: seq<nat>): Decimal
    decreases |totals|
  {
    if totals == [] then Decimal(0, 0)
    else Plus(Sum(totals[..|totals| - 1]), Decimal(totals[|totals| - 1], 2))
  }

  function Window<T>(previous: seq<T>): seq<T> {
    if |previous| > WINDOW then previous[|previous| - WINDOW..] else previous
  }

  function Reference(previous: seq<nat>, expected: Option<nat>): Option<Decimal> {
    var window := Window(previous);
    if |window| >= MIN_HISTORY then Some(Quantize2(Divide(Sum(window), |window|)))
    else if expected.Some? then Some(Decimal(expected.value, 2))
    else None
  }

  predicate IsFlagged(total: nat, reference: Option<Decimal>, pct: nat) {
    reference.Some?
    && Above(Decimal(total, 2), Times(reference.value, Plus(Decimal(1, 0), Divide(Decimal(pct, 0), 100))))
  }

  function Totals(rows: seq<Row>): seq<nat> {
    seq(|rows|, i requires 0 <= i < |rows| => rows[i].total)
  }

  function PointAt(ordered: seq<Row>, i: nat, expected: Option<nat>, pct: nat): Point
    requires i < |ordered|
  {
    var row := ordered[i];
    var reference := Reference(Totals(ordered[..i]), expected);
    Point(row.id, row.when, row.total, reference, IsFlagged(row.total, reference, pct))
  }

  function SeriesOf(ordered: seq<Row>, expected: Option<nat>, pct: nat): seq<Point> {
    seq(|ordered|, i requires 0 <= i < |ordered| => PointAt(ordered, i, expected, pct))
  }

  predicate NotAfter(a: Row, b: Row) {
    a.when < b.when || (a.when == b.when && a.id <= b.id)
  }

  predicate Ordered(rows: seq<Row>) {
    forall i, j :: 0 <= i < j < |rows| ==> NotAfter(rows[i], rows[j])
  }

  /** A stable sort by date, then id. */
  function Sorted(rows: seq<Row>): (r: seq<Row>)
    ensures Ordered(r) && multiset(r) == multiset(rows)
    decreases |rows|
  {
    if rows == [] then []
    else
      var n := |rows| - 1;
      assert rows == rows[..n] + [rows[n]];
      Inserted(Sorted(rows[..n]), rows[n])
  }

  lemma NoneAfter(r: seq<Row>, rows: seq<Row>, x: Row, last: Row)
    requires multiset(r) == multiset(rows) + multiset{x}
    requires NotAfter(x, last) && forall y :: y in rows ==> NotAfter(y, last)
    ensures forall y :: y in r ==> NotAfter(y, last)
  {
    forall y | y in r ensures NotAfter(y, last) {
      assert y in multiset(r);
    }
  }

  function Inserted(rows: seq<Row>, x: Row): (r: seq<Row>)
    requires Ordered(rows)
    ensures Ordered(r) && multiset(r) == multiset(rows) + multiset{x}
    decreases |rows|
  {
    if rows == [] then [x]
    else
      var n := |rows| - 1;
      assert rows == rows[..n] + [rows[n]];
      if NotAfter(rows[n], x) then rows + [x]
      else
        var r := Inserted(rows[..n], x);
        NoneAfter(r, rows[..n], x, rows[n]);
        r + [rows[n]]
  }

  method Series(invoices: seq<Row>, expected: Option<nat>, pct: nat) returns (points: seq<Point>)
    ensures points == SeriesOf(Sorted(invoices), expected, pct)
  {
    hide Reference, IsFlagged, Sorted, Ordered;
    var ordered := Sorted(invoices);
    points := [];
    for i := 0 to |ordered|
      invariant points == SeriesOf(ordered, expected, pct)[..i]
    {
      var row := ordered[i];
      var reference := Reference(Totals(ordered[..i]), expected);
      var point := Point(row.id, row.when, row.total, reference, IsFlagged(row.total, reference, pct));
      assert point == SeriesOf(ordered, expected, pct)[i];
      points := points + [point];
    }
  }

  // ---------- the series depends on the set of invoices only ----------

  ghost predicate DistinctIds(rows: seq<Row>) {
    forall i, j :: 0 <= i < j < |rows| ==> rows[i].id != rows[j].id
  }

  lemma InEither(a: seq<Row>, b: seq<Row>, x: Row)
    requires multiset(a) == multiset(b) && x in a
    ensures x in b
  {
    assert x in multiset(a);
  }

  lemma SameLast(a: seq<Row>, b: seq<Row>)
    requires Ordered(a) && Ordered(b) && multiset(a) == multiset(b) && DistinctIds(a) && a != [] && b != []
    ensures a[|a| - 1] == b[|b| - 1]
  {
    var x, y := a[|a| - 1], b[|b| - 1];
    InEither(a, b, x);
    InEither(b, a, y);
    assert NotAfter(x, y) && NotAfter(y, x);
  }

  lemma WithoutLast(a: seq<Row>)
    requires a != []
    ensures multiset(a[..|a| - 1]) == multiset(a) - multiset{a[|a| - 1]}
  {
    assert a == a[..|a| - 1] + [a[|a| - 1]];
  }

  lemma {:induction false} OnlyOneOrder(a: seq<Row>, b: seq<Row>)
    requires Ordered(a) && Ordered(b) && multiset(a) == multiset(b) && DistinctIds(a)
    ensures a == b
    decreases |a|
  {
    assert |multiset(a)| == |a| && |multiset(b)| == |b|;
    if a != [] {
      var n := |a| - 1;
      SameLast(a, b);
      FrontsMatch(a, b);
      hide NotAfter;
      OnlyOneOrder(a[..n], b[..n]);
      assert a == a[..n] + [a[n]] && b == b[..n] + [b[n]];
    }
  }

  lemma FrontsMatch(a: seq<Row>, b: seq<Row>)
    requires multiset(a) == multiset(b) && a != [] && |a| == |b| && a[|a| - 1] == b[|b| - 1]
    ensures multiset(a[..|a| - 1]) == multiset(b[..|b| - 1])
  {
    WithoutLast(a);
    WithoutLast(b);
  }

  /** Two listings of the same invoices, in whatever order, give the same series. */
  lemma SameInvoicesSameSeries(a: seq<Row>, b: seq<Row>, expected: Option<nat>, pct: nat)
    requires multiset(a) == multiset(b) && DistinctIds(a)
    ensures SeriesOf(Sorted(a), expected, pct) == SeriesOf(Sorted(b), expected, pct)
  {
    StillDistinct(a, Sorted(a));
    OnlyOneOrder(Sorted(a), Sorted(b));
  }

  lemma {:induction false} StillDistinct(a: seq<Row>, b: seq<Row>)
    requires multiset(a) == multiset(b) && DistinctIds(a)
    ensures DistinctIds(b)
  {
    forall i, j | 0 <= i < j < |b| ensures b[i].id != b[j].id {
      InEither(b, a, b[i]);
      InEither(b, a, b[j]);
      if b[i] == b[j] {
        Twice(b, i, j);
        OnlyOnce(a, b[i]);
      }
    }
  }

  lemma Twice(b: seq<Row>, i: nat, j: nat)
    requires i < j < |b| && b[i] == b[j]
    ensures multiset(b)[b[i]] >= 2
  {
    assert b == b[..j] + b[j..];
    assert b[i] in b[..j] && b[j..][0] == b[i];
    assert b[i] in multiset(b[..j]) && b[i] in multiset(b[j..]);
  }

  lemma {:induction false} OnlyOnce(a: seq<Row>, x: Row)
    requires DistinctIds(a)
    ensures multiset(a)[x] <= 1
    decreases |a|
  {
    if a != [] {
      var n := |a| - 1;
      assert a == a[..n] + [a[n]];
      OnlyOnce(a[..n], x);
      if a[n] == x && x in multiset(a[..n]) {
        assert false;
      }
    }
  }

  // ---------- what one more invoice changes ----------

  lemma LastIsSortedLast(a: seq<Row>, x: Row)
    requires forall y :: y in a ==> NotAfter(y, x)
    ensures Sorted(a + [x]) == Sorted(a) + [x]
  {
    var s := Sorted(a);
    assert (a + [x])[..|a|] == a;
    if s != [] {
      InEither(s, a, s[|s| - 1]);
    }
  }

  lemma LaterPoint(s: seq<Row>, x: Row, expected: Option<nat>, pct: nat)
    ensures var before, after := SeriesOf(s, expected, pct), SeriesOf(s + [x], expected, pct);
      |after| == |before| + 1 && after[..|before|] == before && after[|before|].id == x.id
  {
    hide Reference, IsFlagged;
    forall i | 0 <= i < |s| ensures PointAt(s + [x], i, expected, pct) == PointAt(s, i, expected, pct) {
      assert (s + [x])[..i] == s[..i];
    }
  }

  /** One that comes last in (date, id) order adds its point and changes no other. */
  lemma LaterChangesNothing(a: seq<Row>, b: seq<Row>, x: Row, expected: Option<nat>, pct: nat)
    requires multiset(b) == multiset(a) + multiset{x} && DistinctIds(b)
    requires forall y :: y in a ==> NotAfter(y, x)
    ensures var before, after := SeriesOf(Sorted(a), expected, pct), SeriesOf(Sorted(b), expected, pct);
      |after| == |before| + 1 && after[..|before|] == before && after[|before|].id == x.id
  {
    hide PointAt, Sorted;
    assert multiset(a + [x]) == multiset(b);
    SameInvoicesSameSeries(b, a + [x], expected, pct);
    LastIsSortedLast(a, x);
    LaterPoint(Sorted(a), x, expected, pct);
  }

  /** One that comes in the middle changes nothing before it and nothing from the sixth place after
      it on. */
  lemma MiddleChangesSix(s: seq<Row>, k: nat, x: Row, i: nat, expected: Option<nat>, pct: nat)
    requires k <= |s| && i < |s| && (i < k || i >= k + WINDOW)
    ensures var longer := s[..k] + [x] + s[k..];
      PointAt(s, i, expected, pct) == PointAt(longer, if i < k then i else i + 1, expected, pct)
  {
    hide Reference, IsFlagged;
    var longer := s[..k] + [x] + s[k..];
    if i < k {
      assert longer[..i] == s[..i];
    } else {
      assert longer[i + 1] == s[i];
      assert Window(Totals(longer[..i + 1])) == Window(Totals(s[..i]));
      SameWindow(Totals(longer[..i + 1]), Totals(s[..i]), expected);
    }
  }

  lemma SameWindow(a: seq<nat>, b: seq<nat>, expected: Option<nat>)
    requires Window(a) == Window(b)
    ensures Reference(a, expected) == Reference(b, expected)
  {
  }

  // ---------- what a point says ----------

  function Exact(totals: seq<nat>): nat
    decreases |totals|
  {
    if totals == [] then 0 else Exact(totals[..|totals| - 1]) + totals[|totals| - 1]
  }

  /** The column's limit. */
  const LIMIT: nat := 1_000_000_000_000

  lemma {:induction false} SumIsExact(totals: seq<nat>)
    requires 0 < |totals| <= WINDOW && forall i :: 0 <= i < |totals| ==> totals[i] < LIMIT
    ensures Sum(totals) == Decimal(Exact(totals), 2) && Exact(totals) < |totals| * LIMIT
    decreases |totals|
  {
    hide Fix;
    var n := |totals| - 1;
    assert Pow10(0) == 1 && Pow10(2) == 100;
    if n > 0 {
      SumIsExact(totals[..n]);
    }
    LimitFits();
    assert Exact(totals) == Exact(totals[..n]) + totals[n] < 10 * LIMIT;
    FixIsExact(Decimal(Exact(totals), 2));
  }

  lemma LimitFits()
    ensures 10 * LIMIT <= Pow10(PRECISION - 4) <= Pow10(PRECISION - 1) <= Pow10(PRECISION)
  {
    assert Pow10(13) == 10 * LIMIT;
    Pow10Grows(13, PRECISION - 4);
    Pow10Grows(PRECISION - 4, PRECISION - 1);
    Pow10Grows(PRECISION - 1, PRECISION);
  }

  /** With three or more earlier invoices the reference is the mean of the last six at most, to the
      nearest cent, a tie to the even one; it is off by no more than half a cent. */
  lemma ReferenceIsMean(previous: seq<nat>, expected: Option<nat>)
    requires |previous| >= 3 && forall i :: 0 <= i < |previous| ==> previous[i] < LIMIT
    ensures var n := if |previous| < 6 then |previous| else 6;
      var last := previous[|previous| - n..];
      && Reference(previous, expected) == Some(Decimal(HalfEven(Exact(last), n), 2))
      && 2 * Exact(last) - n <= 2 * n * HalfEven(Exact(last), n) <= 2 * Exact(last) + n
      && HalfEven(Exact(last), n) <= LIMIT
  {
    hide HalfEven, Divide, Quantize2, Pow10;
    var window := Window(previous);
    var n := if |previous| < 6 then |previous| else 6;
    assert previous[|previous| - n..] == window;
    SumIsExact(window);
    LimitFits();
    Monotone(LIMIT, |window|, 10);
    MeanInCents(Exact(window), |window|);
    HalfEvenNear(Exact(window), |window|);
  }

  /** Each point: its reference is known from the earlier totals, or is the expected cost; and it is
      flagged exactly when a hundred times its total is above the reference times (100 + pct). */
  lemma PointIsExact(ordered: seq<Row>, i: nat, expected: Option<nat>, pct: nat)
    requires i < |ordered| && pct <= 1000
    requires forall j :: 0 <= j < |ordered| ==> ordered[j].total < LIMIT
    requires expected.Some? ==> expected.value < LIMIT
    ensures var p := PointAt(ordered, i, expected, pct);
      var cents := if i >= 3
                   then var n := if i < 6 then i else 6; Some(HalfEven(Exact(Totals(ordered[i - n..i])), n))
                   else expected;
      && p.id == ordered[i].id && p.when == ordered[i].when && p.total == ordered[i].total
      && p.reference == (match cents case None => None case Some(c) => Some(Decimal(c, 2)))
      && (p.flagged <==> cents.Some? && 100 * p.total > cents.value * (100 + pct))
  {
    hide HalfEven, Reference, IsFlagged, Exact, Pow10;
    var previous := Totals(ordered[..i]);
    LimitFits();
    if i >= 3 {
      ReferenceIsMean(previous, expected);
      var n := if i < 6 then i else 6;
      assert previous[i - n..] == Totals(ordered[i - n..i]);
      FlaggedIff(ordered[i].total, HalfEven(Exact(Totals(ordered[i - n..i])), n), pct);
    } else {
      FewEarlier(previous, expected);
      if expected.Some? {
        FlaggedIff(ordered[i].total, expected.value, pct);
      } else {
        NotFlagged(ordered[i].total, pct);
      }
    }
  }

  lemma FlaggedIff(total: nat, cents: nat, pct: nat)
    requires total < LIMIT && cents <= LIMIT && pct <= 1000
    ensures IsFlagged(total, Some(Decimal(cents, 2)), pct) <==> 100 * total > cents * (100 + pct)
  {
    hide Plus, Divide, Times, Above, Pow10;
    LimitFits();
    AboveByPercent(total, cents, pct);
  }

  lemma NotFlagged(total: nat, pct: nat)
    ensures !IsFlagged(total, None, pct)
  {
    hide Plus, Divide, Times, Above;
  }

  lemma FewEarlier(previous: seq<nat>, expected: Option<nat>)
    requires |previous| < 3
    ensures Reference(previous, expected) == match expected case None => None case Some(c) => Some(Decimal(c, 2))
  {
  }

  /** The series as a whole: one point for each invoice, by date and then id, each with its reference and
      flag as the invoices before it say. */
  lemma SeriesIsExact(invoices: seq<Row>, expected: Option<nat>, pct: nat)
    requires pct <= 1000 && (expected.Some? ==> expected.value < LIMIT)
    requires forall j :: 0 <= j < |invoices| ==> invoices[j].total < LIMIT
    ensures var ordered, points := Sorted(invoices), SeriesOf(Sorted(invoices), expected, pct);
      && multiset(ordered) == multiset(invoices) && |points| == |ordered| == |invoices|
      && (forall i, j :: 0 <= i < j < |ordered| ==>
            ordered[i].when < ordered[j].when || (ordered[i].when == ordered[j].when && ordered[i].id <= ordered[j].id))
      && (forall i :: 0 <= i < |points| ==>
            var n := if i < 6 then i else 6;
            var cents := if i >= 3 then Some(HalfEven(Exact(Totals(ordered[i - n..i])), n)) else expected;
            && points[i].id == ordered[i].id && points[i].when == ordered[i].when && points[i].total == ordered[i].total
            && points[i].reference == (match cents case None => None case Some(c) => Some(Decimal(c, 2)))
            && (points[i].flagged <==> cents.Some? && 100 * ordered[i].total > cents.value * (100 + pct)))
  {
    hide HalfEven, PointAt, Exact, Sorted;
    var ordered := Sorted(invoices);
    assert |multiset(ordered)| == |ordered| && |multiset(invoices)| == |invoices|;
    forall j | 0 <= j < |ordered| ensures ordered[j].total < LIMIT {
      InEither(ordered, invoices, ordered[j]);
    }
    forall i | 0 <= i < |ordered| {
      PointIsExact(ordered, i, expected, pct);
    }
  }
}
