/**
 * The pure arithmetic of the ads client: the credential gate, date windows,
 * row aggregation, derived rates and period-over-period change.
 */
module AdsMetrics {
  import opened Wrappers
  import opened Credentials

  // ---------------------------------------------------------------- credentials

  /** Python's `a and b` on strings: `a` when it is empty (falsy), else `b`. */
  function PyAnd(a: string, b: string): string
  {
    if a == "" then a else b
  }

  /**
   * The value the client stores as `has_credentials`: the `and` chain of the five
   * strings. It is truthy exactly when all five are set, and it is then the
   * refresh token itself, not a boolean.
   */
  function CredentialGate(c: CredentialSet): (r: string)
    ensures r != "" <==> (c.clientId != "" && c.clientSecret != "" && c.developerToken != ""
                          && c.loginCustomerId != "" && c.refreshToken != "")
    ensures r != "" ==> r == c.refreshToken
  {
    PyAnd(PyAnd(PyAnd(PyAnd(c.clientId, c.clientSecret), c.developerToken), c.loginCustomerId), c.refreshToken)
  }

  // ---------------------------------------------------------------- dates

  /** An inclusive range of day numbers. */
  datatype DateRange = DateRange(start: int, end: int)

  /** The inclusive day count `end - start + 1` the client computes. */
  function Days(r: DateRange): int
  {
    r.end - r.start + 1
  }

  predicate Contains(r: DateRange, day: int)
  {
    r.start <= day <= r.end
  }

  /** `get_default_date_range`: the 31 days ending yesterday. */
  function DefaultDateRange(today: int): (r: DateRange)
    ensures r.end == today - 1 && Days(r) == 31
    ensures !Contains(r, today)
    ensures forall d :: Contains(r, d) <==> today - 31 <= d < today
  {
    var end := today - 1;
    DateRange(end - 30, end)
  }

  /** The range a getter queries: the given one, or the default when either date is missing. */
  function EffectiveRange(start: Option<int>, end: Option<int>, today: int): (r: DateRange)
    ensures start.Some? && end.Some? ==> r == DateRange(start.value, end.value)
    ensures start.None? || end.None? ==> r == DefaultDateRange(today)
  {
    if start.None? || end.None? then DefaultDateRange(today) else DateRange(start.value, end.value)
  }

  /**
   * The period compared against: it ends the day before `start`, has the same
   * inclusive day count, and shares no day with the current range.
   */
  function PreviousPeriod(r: DateRange): (p: DateRange)
    ensures p.end == r.start - 1
    ensures Days(p) == Days(r)
    ensures forall d :: !(Contains(p, d) && Contains(r, d))
  {
    var days := r.end - r.start + 1;
    var prevEnd := r.start - 1;
    DateRange(prevEnd - (days - 1), prevEnd)
  }

  /** The previous period is exactly the `Days(r)` days right before `r.start`. */
  lemma PreviousPeriodPrecedes(r: DateRange, d: int)
    ensures Contains(PreviousPeriod(r), d) <==> r.start - Days(r) <= d < r.start
  {
  }

  /** For a non-empty range the two periods together form one contiguous range. */
  lemma PreviousPeriodAdjacent(r: DateRange, d: int)
    requires Days(r) >= 1
    ensures Contains(DateRange(PreviousPeriod(r).start, r.end), d)
            <==> Contains(PreviousPeriod(r), d) || Contains(r, d)
  {
  }

  // ---------------------------------------------------------------- aggregation

  /** The four metrics of one response row, and also their totals. */
  datatype Metrics = Metrics(impressions: int, clicks: int, costMicros: int, conversions: real)

  const Zero := Metrics(0, 0, 0, 0.0)

  function Plus(a: Metrics, b: Metrics): Metrics
  {
    Metrics(a.impressions + b.impressions, a.clicks + b.clicks,
            a.costMicros + b.costMicros, a.conversions + b.conversions)
  }

  /** Field-wise sum of all rows: no rows sum to zero, and one row sums to itself. */
  function Total(rows: seq<Metrics>): (t: Metrics)
    ensures rows == [] ==> t == Zero
    ensures |rows| == 1 ==> t == rows[0]
  {
    if rows == [] then Zero else Plus(Total(rows[..|rows| - 1]), rows[|rows| - 1])
  }

  /** The accumulator loop over a response: the result is the field-wise total of its rows. */
  method AggregateRows(rows: seq<Metrics>) returns (totals: Metrics)
    ensures totals == Total(rows)
  {
    var impressions, clicks, costMicros, conversions := 0, 0, 0, 0.0;
    for i := 0 to |rows|
      invariant Metrics(impressions, clicks, costMicros, conversions) == Total(rows[..i])
    {
      assert rows[..i + 1][..i] == rows[..i];
      var row := rows[i];
      impressions := impressions + row.impressions;
      clicks := clicks + row.clicks;
      costMicros := costMicros + row.costMicros;
      conversions := conversions + row.conversions;
    }
    assert rows[..|rows|] == rows;
    totals := Metrics(impressions, clicks, costMicros, conversions);
  }

  /** Totals of two consecutive batches of rows add up. */
  lemma {:induction false} TotalAppend(a: seq<Metrics>, b: seq<Metrics>)
    ensures Total(a + b) == Plus(Total(a), Total(b))
  {
    if b == [] {
      assert a + b == a;
    } else {
      var b', x := b[..|b| - 1], b[|b| - 1];
      assert (a + b)[..|a + b| - 1] == a + b';
      assert (a + b)[|a + b| - 1] == x;
      TotalAppend(a, b');
      assert Total(a + b) == Plus(Total(a + b'), x);
    }
  }

  /** Swapping two batches of rows does not change the totals. */
  lemma TotalSwapBatches(a: seq<Metrics>, b: seq<Metrics>)
    ensures Total(a + b) == Total(b + a)
  {
    TotalAppend(a, b);
    TotalAppend(b, a);
  }

  /** Removing the row at `j` takes exactly that row out of the total. */
  lemma TotalWithout(b: seq<Metrics>, j: nat)
    requires j < |b|
    ensures Total(b) == Plus(Total(b[..j] + b[j + 1..]), b[j])
  {
    var left, x, right := b[..j], b[j], b[j + 1..];
    assert b[..j + 1] == left + [x];
    assert b == b[..j + 1] + right;
    TotalAppend(b[..j + 1], right);
    TotalAppend(left, [x]);
    TotalAppend(left, right);
    PlusRearranged(Total(left), x, Total(right));
  }

  lemma PlusRearranged(l: Metrics, x: Metrics, r: Metrics)
    ensures Plus(Plus(l, x), r) == Plus(Plus(l, r), x)
  {
  }

  lemma MultisetWithout(b: seq<Metrics>, j: nat)
    requires j < |b|
    ensures multiset(b[..j] + b[j + 1..]) == multiset(b) - multiset{b[j]}
  {
    assert b == b[..j] + [b[j]] + b[j + 1..];
  }

  /** The totals do not depend on the order in which the rows arrive: any permutation gives the same totals. */
  lemma {:induction false} TotalPermutation(a: seq<Metrics>, b: seq<Metrics>)
    requires multiset(a) == multiset(b)
    ensures Total(a) == Total(b)
    decreases |a|
  {
    if a == [] {
      assert |b| == |multiset(b)| == 0;
    } else {
      var n := |a| - 1;
      assert a == a[..n] + [a[n]];
      assert multiset(a[..n]) == multiset(a) - multiset{a[n]};
      assert a[n] in multiset(b);
      var j :| 0 <= j < |b| && b[j] == a[n];
      MultisetWithout(b, j);
      TotalPermutation(a[..n], b[..j] + b[j + 1..]);
      TotalWithout(b, j);
    }
  }

  predicate NonNegative(m: Metrics)
  {
    m.impressions >= 0 && m.clicks >= 0 && m.costMicros >= 0 && m.conversions >= 0.0
  }

  /** Rows that report no negative metric give totals that have none either. */
  lemma {:induction false} TotalNonNegative(rows: seq<Metrics>)
    requires forall i :: 0 <= i < |rows| ==> NonNegative(rows[i])
    ensures NonNegative(Total(rows))
  {
    if rows != [] {
      TotalNonNegative(rows[..|rows| - 1]);
    }
  }

  // ---------------------------------------------------------------- derived metrics

  /** `micros / 1000000 if micros else 0`: the guard changes nothing, the result is always micros / 10^6. */
  function MicrosToDollars(micros: int): (r: real)
    ensures r * 1000000.0 == micros as real
  {
    if micros == 0 then 0.0 else micros as real / 1000000.0
  }

  /** `part / whole * 100 if whole else 0`. */
  function Percent(part: real, whole: real): (r: real)
    ensures whole != 0.0 ==> r * whole == part * 100.0
    ensures whole == 0.0 ==> r == 0.0
  {
    if whole == 0.0 then 0.0 else part / whole * 100.0
  }

  /** Click-through rate in percent: 100 times clicks over impressions, 0 without impressions. */
  function Ctr(m: Metrics): (r: real)
    ensures m.impressions != 0 ==> r * m.impressions as real == m.clicks as real * 100.0
    ensures m.impressions == 0 ==> r == 0.0
  {
    Percent(m.clicks as real, m.impressions as real)
  }

  /** Conversion rate in percent: 100 times conversions over clicks, 0 without clicks. */
  function ConversionRate(m: Metrics): (r: real)
    ensures m.clicks != 0 ==> r * m.clicks as real == m.conversions * 100.0
    ensures m.clicks == 0 ==> r == 0.0
  {
    Percent(m.conversions, m.clicks as real)
  }

  /** Cost per conversion in dollars, 0 without conversions. */
  function CostPerConversion(m: Metrics): (r: real)
    ensures m.conversions != 0.0 ==> r * m.conversions == MicrosToDollars(m.costMicros)
    ensures m.conversions == 0.0 ==> r == 0.0
  {
    var dollars := MicrosToDollars(m.costMicros);
    if m.conversions == 0.0 then 0.0 else dollars / m.conversions
  }

  /** A click-through rate is a percentage whenever no row reports more clicks than impressions. */
  lemma CtrBounded(m: Metrics)
    requires 0 <= m.clicks <= m.impressions
    ensures 0.0 <= Ctr(m) <= 100.0
  {
    if m.impressions != 0 {
      var q := m.clicks as real / m.impressions as real;
      assert q * m.impressions as real == m.clicks as real;
      assert 0.0 <= q <= 1.0;
    }
  }

  /** Nothing in the code keeps clicks below impressions, and then the rate exceeds 100. */
  lemma CtrAbove100Example()
    ensures Ctr(Metrics(1, 2, 0, 0.0)) == 200.0
  {
  }

  /** Python's `int(x)` on a float: truncation toward zero. */
  function Trunc(x: real): (r: int)
    ensures x >= 0.0 ==> r as real <= x < r as real + 1.0
    ensures x < 0.0 ==> r as real - 1.0 < x <= r as real
  {
    if x >= 0.0 then x.Floor else -((-x).Floor)
  }

  // ---------------------------------------------------------------- change

  /** `change` is the percentage by which `prev` grows into `cur`, or 0 when `prev` is 0. */
  predicate IsRelativeChange(change: real, cur: real, prev: real)
  {
    (prev != 0.0 ==> prev + prev * change / 100.0 == cur) && (prev == 0.0 ==> change == 0.0)
  }

  /** `(cur - prev) / prev * 100 if prev else 0`: applying the change to `prev` gives back `cur`. */
  function RelativeChange(cur: real, prev: real): (r: real)
    ensures IsRelativeChange(r, cur, prev)
  {
    if prev == 0.0 then 0.0 else (cur - prev) / prev * 100.0
  }

  /** Over a positive baseline the change is positive, zero or negative as the metric grew, stayed or fell. */
  lemma RelativeChangeSign(cur: real, prev: real)
    requires prev > 0.0
    ensures RelativeChange(cur, prev) > 0.0 <==> cur > prev
    ensures RelativeChange(cur, prev) == 0.0 <==> cur == prev
  {
    var r := RelativeChange(cur, prev);
    assert prev * r / 100.0 == cur - prev;
  }

  /** The change of a cost does not depend on measuring it in micros or in dollars. */
  lemma RelativeChangeOfMicros(cur: int, prev: int)
    ensures RelativeChange(cur as real, prev as real)
            == RelativeChange(MicrosToDollars(cur), MicrosToDollars(prev))
  {
    if prev != 0 {
      var c, p := cur as real, prev as real;
      var cd, pd := MicrosToDollars(cur), MicrosToDollars(prev);
      assert cd == c / 1000000.0 && pd == p / 1000000.0;
      assert (cd - pd) / pd == (c - p) / p;
    }
  }

  /** What the dashboard shows for one metric before formatting. */
  datatype MetricValue = Count(n: int) | Money(dollars: real) | Rate(percent: real)

  datatype MetricPoint = MetricPoint(value: MetricValue, change: real)

  /** The seven metric points of the performance endpoint. */
  datatype Performance = Performance(
    impressions: MetricPoint,
    clicks: MetricPoint,
    conversions: MetricPoint,
    cost: MetricPoint,
    conversionRate: MetricPoint,
    clickThroughRate: MetricPoint,
    costPerConversion: MetricPoint)

  /**
   * The performance payload from current and previous totals. Counts, cost and cost
   * per conversion change relatively; the two rates change by their point difference.
   */
  function Report(cur: Metrics, prev: Metrics): (r: Performance)
    ensures r.impressions.value == Count(cur.impressions) && r.clicks.value == Count(cur.clicks)
    ensures r.conversions.value == Count(Trunc(cur.conversions))
    ensures r.cost.value.Money? && r.cost.value.dollars * 1000000.0 == cur.costMicros as real
    ensures r.clickThroughRate.value == Rate(Ctr(cur)) && r.conversionRate.value == Rate(ConversionRate(cur))
    ensures r.costPerConversion.value == Money(CostPerConversion(cur))
    ensures IsRelativeChange(r.impressions.change, cur.impressions as real, prev.impressions as real)
    ensures IsRelativeChange(r.clicks.change, cur.clicks as real, prev.clicks as real)
    ensures IsRelativeChange(r.conversions.change, cur.conversions, prev.conversions)
    ensures IsRelativeChange(r.cost.change, cur.costMicros as real, prev.costMicros as real)
    ensures IsRelativeChange(r.costPerConversion.change, CostPerConversion(cur), CostPerConversion(prev))
    ensures r.clickThroughRate.change == Ctr(cur) - Ctr(prev)
    ensures r.conversionRate.change == ConversionRate(cur) - ConversionRate(prev)
  {
    Performance(
      MetricPoint(Count(cur.impressions),
                  RelativeChange(cur.impressions as real, prev.impressions as real)),
      MetricPoint(Count(cur.clicks), RelativeChange(cur.clicks as real, prev.clicks as real)),
      MetricPoint(Count(Trunc(cur.conversions)), RelativeChange(cur.conversions, prev.conversions)),
      MetricPoint(Money(MicrosToDollars(cur.costMicros)),
                  RelativeChange(cur.costMicros as real, prev.costMicros as real)),
      MetricPoint(Rate(ConversionRate(cur)), ConversionRate(cur) - ConversionRate(prev)),
      MetricPoint(Rate(Ctr(cur)), Ctr(cur) - Ctr(prev)),
      MetricPoint(Money(CostPerConversion(cur)),
                  RelativeChange(CostPerConversion(cur), CostPerConversion(prev))))
  }

  /** All seven changes of a report. */
  function Changes(p: Performance): seq<real>
  {
    [p.impressions.change, p.clicks.change, p.conversions.change, p.cost.change,
     p.conversionRate.change, p.clickThroughRate.change, p.costPerConversion.change]
  }

  /** A period that performed exactly like the previous one reports no change at all. */
  lemma SteadyReport(m: Metrics)
    ensures forall i :: 0 <= i < 7 ==> Changes(Report(m, m))[i] == 0.0
  {
  }

  /**
   * Without any previous activity every relative change is 0, while the two rates
   * report their full current value as change (the point-difference asymmetry).
   */
  lemma NoHistoryReport(m: Metrics)
    ensures var p := Report(m, Zero);
      p.impressions.change == 0.0 && p.clicks.change == 0.0 && p.conversions.change == 0.0
      && p.cost.change == 0.0 && p.costPerConversion.change == 0.0
      && p.clickThroughRate.change == Ctr(m) && p.conversionRate.change == ConversionRate(m)
  {
  }

  /** The reported cost is the total in dollars and its change may be read in dollars as well. */
  lemma ReportCostInDollars(cur: Metrics, prev: Metrics)
    ensures Report(cur, prev).cost.value.dollars * 1000000.0 == cur.costMicros as real
    ensures Report(cur, prev).cost.change
            == RelativeChange(MicrosToDollars(cur.costMicros), MicrosToDollars(prev.costMicros))
  {
    RelativeChangeOfMicros(cur.costMicros, prev.costMicros);
  }

  /** The dictionary keys of the performance payload. */
  const MetricKeys: set<string> := {"impressions", "clicks", "conversions", "cost",
                                    "conversionRate", "clickThroughRate", "costPerConversion"}

  /** The payload as the key-to-point dictionary the endpoint serialises. */
  function AsTable(p: Performance): (t: map<string, MetricPoint>)
    ensures t.Keys == MetricKeys
    ensures t["impressions"] == p.impressions && t["clicks"] == p.clicks
    ensures t["conversions"] == p.conversions && t["cost"] == p.cost
    ensures t["conversionRate"] == p.conversionRate && t["clickThroughRate"] == p.clickThroughRate
    ensures t["costPerConversion"] == p.costPerConversion
  {
    map["impressions" := p.impressions, "clicks" := p.clicks, "conversions" := p.conversions,
        "cost" := p.cost, "conversionRate" := p.conversionRate,
        "clickThroughRate" := p.clickThroughRate, "costPerConversion" := p.costPerConversion]
  }

  // ---------------------------------------------------------------- querying

  /** What one vendor search yields: its rows, or the message of the exception it raised. */
  datatype Query<T> = Rows(rows: seq<T>) | Raised(message: string)

  /**
   * The live path of `get_performance_data`: query the range, then its previous
   * period, and report; the first exception ends it with its message.
   */
  function FetchPerformance(customerId: string, range: DateRange,
                            search: (string, DateRange) -> Query<Metrics>): (r: Result<Performance>)
    ensures search(customerId, range).Raised? ==> r == Failure(search(customerId, range).message)
    ensures search(customerId, range).Rows? && search(customerId, PreviousPeriod(range)).Raised? ==>
              r == Failure(search(customerId, PreviousPeriod(range)).message)
    ensures search(customerId, range).Rows? && search(customerId, PreviousPeriod(range)).Rows? ==>
              r == Success(Report(Total(search(customerId, range).rows),
                                  Total(search(customerId, PreviousPeriod(range)).rows)))
  {
    match search(customerId, range)
    case Raised(msg) => Failure(msg)
    case Rows(current) =>
      match search(customerId, PreviousPeriod(range))
      case Raised(msg) => Failure(msg)
      case Rows(previous) => Success(Report(Total(current), Total(previous)))
  }
}
