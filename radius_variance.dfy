/**
 * The feature assembler of the radius-variance model (`RadiusVariance.create_ml_dataset`).
 * For every day from `first + radiusDays` to `last - radiusDays` it records the number of
 * arrivals that day, a 43-slot encoding of the month and the day of the month, and the
 * population variance of the daily counts within `radiusDays` days of it; the counts form the
 * sequence input, windowed by `seqSize`, and the target of each window is the following day's
 * count and variance.
 */
module RadiusVarianceModel {
  import opened Wrappers
  import opened Seqs
  import opened Sorting
  import opened Grouping
  import opened Calendar
  import opened Statistics
  import opened NdArrays
  import opened Dataset

  /** Width of the date encoding: 12 month slots and 31 day slots (`12 + 31`). */
  const DateWidth: nat := 43

  function DateOf(): DataPoint -> int
  {
    FieldOf(DateReceived)
  }

  /** The records in the order `order_by('date_received')` leaves them. */
  function ByDate(s: seq<DataPoint>): seq<DataPoint>
  {
    SortBy(s, DateOf(), false)
  }

  /** The dictionary `aggregate_on('date_received', lambda dr: str(dr.date()))` returns. */
  function DailyGroups(s: seq<DataPoint>): map<Date, seq<DataPoint>>
  {
    Aggregate(ByDate(s), Compose(DateOf(), FromOrdinal))
  }

  /** `len(date_aggregation[key]) if key in date_aggregation else 0` for the key of day `d`. */
  function Count(groups: map<Date, seq<DataPoint>>, d: int): nat
  {
    var key := FromOrdinal(d);
    if key in groups then |groups[key]| else 0
  }

  /** The number of records received on day `d`: the reference the counts are checked against. */
  function Arrivals(s: seq<DataPoint>, d: int): nat
  {
    |Members(s, DateOf(), d)|
  }

  /** Every day from `lo` to `hi`, as `_date_range` yields them. */
  function DaysBetween(lo: int, hi: int): (r: seq<int>)
    ensures |r| == if hi >= lo then hi - lo + 1 else 0
  {
    if hi >= lo then seq(hi - lo + 1, n => lo + n) else []
  }

  /** The days listed from the ends of the sorted store are the eligible days. */
  lemma RangeOfSorted(s: seq<DataPoint>, sorted: seq<DataPoint>, radius: nat, dates: seq<int>)
    requires s != [] && sorted == ByDate(s)
    requires var lo, hi := sorted[0].dateReceived + radius, sorted[|sorted| - 1].dateReceived - radius;
      && |dates| == (if hi >= lo then hi - lo + 1 else 0)
      && forall n :: 0 <= n < |dates| ==> dates[n] == lo + n
    ensures dates == EligibleDays(s, radius)
  {
    SortedEnds(s);
    DaysBetweenIs(dates, MinDay(s) + radius, MaxDay(s) - radius);
  }

  /** A list of consecutive days from `lo` of the right length is `DaysBetween(lo, hi)`. */
  lemma DaysBetweenIs(dates: seq<int>, lo: int, hi: int)
    requires |dates| == if hi >= lo then hi - lo + 1 else 0
    requires forall n :: 0 <= n < |dates| ==> dates[n] == lo + n
    ensures dates == DaysBetween(lo, hi)
  {
  }

  /**
   * The days that get a row: every day at least `radius` days after the earliest arrival and
   * at least `radius` days before the latest; none for an empty store.
   */
  function EligibleDays(s: seq<DataPoint>, radius: nat): seq<int>
  {
    if s == [] then [] else DaysBetween(MinDay(s) + radius, MaxDay(s) - radius)
  }

  /** `radius_vals`: the counts of the `2 * radius + 1` days centred on `d`. */
  function RadiusValues(groups: map<Date, seq<DataPoint>>, d: int, radius: nat): (r: seq<int>)
    ensures |r| == 2 * radius + 1
  {
    seq(2 * radius + 1, j => Count(groups, d - radius + j))
  }

  /** A row of `n` zeros with ones at positions `a` and `b`. */
  function Indicator(n: nat, a: int, b: int): (r: seq<real>)
    ensures |r| == n
  {
    seq(n, k => if k == a || k == b then 1.0 else 0.0)
  }

  /** `one_hot_date`: slot `month` and slot `11 + day` are set. */
  function OneHot(d: Date): seq<real>
  {
    Indicator(DateWidth, d.month, 11 + d.day)
  }

  /** The number of entries equal to one. */
  function Ones(v: seq<real>): nat
  {
    if v == [] then 0 else Ones(v[..|v| - 1]) + (if Last(v) == 1.0 then 1 else 0)
  }

  /** Row `i` of `x[0]`: the day's count. */
  function CountRow(groups: map<Date, seq<DataPoint>>, d: int): seq<real>
  {
    [Count(groups, d) as real]
  }

  /** Row `i` of `y[0]`: the day's count and the variance of the counts around it. */
  function TargetRow(groups: map<Date, seq<DataPoint>>, d: int, radius: nat): seq<real>
  {
    [Count(groups, d) as real, PopVariance(RadiusValues(groups, d, radius))]
  }

  /** `x[0]`: one count per day. */
  function CountRows(groups: map<Date, seq<DataPoint>>, days: seq<int>): (r: seq<seq<real>>)
    ensures |r| == |days|
  {
    seq(|days|, i requires 0 <= i < |days| => CountRow(groups, days[i]))
  }

  /** `x[1]`: one date encoding per day. */
  function DateRows(days: seq<int>): (r: seq<seq<real>>)
    ensures |r| == |days|
  {
    seq(|days|, i requires 0 <= i < |days| => OneHot(FromOrdinal(days[i])))
  }

  /** `y[0]`: the count and the radius variance of each day. */
  function TargetRows(groups: map<Date, seq<DataPoint>>, days: seq<int>, radius: nat): (r: seq<seq<real>>)
    ensures |r| == |days|
  {
    seq(|days|, i requires 0 <= i < |days| => TargetRow(groups, days[i], radius))
  }

  class RadiusVariance {
    const seqSize: nat
    const radiusDays: nat

    constructor(seqSize: nat, radiusDays: nat)
      ensures this.seqSize == seqSize && this.radiusDays == radiusDays
    {
      this.seqSize := seqSize;
      this.radiusDays := radiusDays;
    }

    /** `list(self._date_range(minDate, maxDate))`: consecutive days, none when `maxDate < minDate`. */
    method DateRange(minDate: int, maxDate: int) returns (dates: seq<int>)
      ensures |dates| == if maxDate >= minDate then maxDate - minDate + 1 else 0
      ensures forall n :: 0 <= n < |dates| ==> dates[n] == minDate + n
    {
      dates := [];
      var count := maxDate - minDate + 1;
      var n := 0;
      while n < count
        invariant 0 <= n && (n <= count || n == 0)
        invariant |dates| == n
        invariant forall k :: 0 <= k < n ==> dates[k] == minDate + k
      {
        dates := dates + [minDate + n];
        n := n + 1;
      }
    }

    /** The inner loop over `range(-radiusDays, radiusDays + 1)`. */
    method RadiusCounts(groups: map<Date, seq<DataPoint>>, date: int) returns (radiusVals: seq<int>)
      ensures radiusVals == RadiusValues(groups, date, radiusDays)
    {
      radiusVals := [];
      var j: int := -(radiusDays as int);
      while j <= radiusDays
        invariant -(radiusDays as int) <= j <= radiusDays + 1
        invariant |radiusVals| == j + radiusDays
        invariant forall t :: 0 <= t < |radiusVals| ==> radiusVals[t] == Count(groups, date - radiusDays + t)
      {
        var jKey := FromOrdinal(date + j);
        radiusVals := radiusVals + [if jKey in groups then |groups[jKey]| else 0];
        j := j + 1;
      }
    }

    /** Fills `one_hot_date` for `date`. */
    method EncodeDate(date: Date) returns (oneHot: seq<real>)
      requires Valid(date)
      ensures oneHot == OneHot(date)
    {
      MonthTable(date.year, date.month);
      var a := new real[DateWidth](_ => 0.0);
      a[date.month] := 1.0;
      a[11 + date.day] := 1.0;
      oneHot := a[..];
    }

    /**
     * `dataset.order_by('date_received')`, then the first and last day of the range: the
     * first record's day plus `radiusDays` and the last record's day minus `radiusDays`.
     */
    method SortedBounds(dataset: DataSet) returns (minDate: int, maxDate: int)
      requires dataset.data != []
      modifies dataset
      ensures dataset.data == ByDate(old(dataset.data)) && |dataset.data| > 0
      ensures minDate == dataset.data[0].dateReceived + radiusDays
      ensures maxDate == dataset.data[|dataset.data| - 1].dateReceived - radiusDays
    {
      ParseDateReceived();
      var _ := dataset.OrderBy("date_received", false);
      var first := dataset.GetItem(0).value;
      var last := dataset.GetItem(-1).value;
      minDate := first.dateReceived + radiusDays;
      maxDate := last.dateReceived - radiusDays;
    }

    /**
     * The first half of `create_ml_dataset`: for a non-empty store, sorts it by day
     * received, aggregates it by day and lists the days from `first + radiusDays` to
     * `last - radiusDays`; for an empty store there are no days.
     */
    method PrepareDays(dataset: DataSet) returns (dateRange: seq<int>, dateAggregation: map<Date, seq<DataPoint>>)
      modifies dataset
      ensures dataset.data == ByDate(old(dataset.data))
      ensures dateRange == EligibleDays(old(dataset.data), radiusDays)
      ensures old(dataset.data) != [] ==> dateAggregation == DailyGroups(old(dataset.data))
    {
      dateRange := [];
      dateAggregation := map[];
      if dataset.Len() > 0 {
        dateRange, dateAggregation := PrepareStore(dataset);
      }
    }

    /** `PrepareDays` on a store with at least one record. */
    method PrepareStore(dataset: DataSet) returns (dateRange: seq<int>, dateAggregation: map<Date, seq<DataPoint>>)
      requires dataset.data != []
      modifies dataset
      ensures dataset.data == ByDate(old(dataset.data))
      ensures dateRange == EligibleDays(old(dataset.data), radiusDays)
      ensures dateAggregation == DailyGroups(old(dataset.data))
    {
      ghost var original := dataset.data;
      var minDate, maxDate := SortedBounds(dataset);
      ghost var sorted := dataset.data;
      ParseDateReceived();
      var aggregated := dataset.AggregateOn("date_received", FromOrdinal);
      dateAggregation := aggregated.value;
      assert dateAggregation == Aggregate(SortBy(sorted, DateOf(), false), Compose(DateOf(), FromOrdinal));
      SortBySorted(sorted, DateOf(), false);
      assert dateAggregation == DailyGroups(original);
      dateRange := DateRange(minDate, maxDate);
      RangeOfSorted(original, sorted, radiusDays, dateRange);
    }

    /** One pass of the loop body: the three rows of day `date`. */
    method DayRows(groups: map<Date, seq<DataPoint>>, date: int)
      returns (count: seq<real>, dateCode: seq<real>, target: seq<real>)
      ensures count == CountRow(groups, date)
      ensures dateCode == OneHot(FromOrdinal(date))
      ensures target == TargetRow(groups, date, radiusDays)
    {
      var dateKey := FromOrdinal(date);
      var val := if dateKey in groups then |groups[dateKey]| else 0;
      var radiusVals := RadiusCounts(groups, date);
      var variance := PopVariance(radiusVals);
      dateCode := EncodeDate(dateKey);
      count := [val as real];
      target := [val as real, variance];
    }

    /** The loop of `create_ml_dataset` over the days, filling preallocated rows. */
    method FillRows(groups: map<Date, seq<DataPoint>>, dateRange: seq<int>)
      returns (counts: seq<seq<real>>, dateCodes: seq<seq<real>>, targets: seq<seq<real>>)
      ensures counts == CountRows(groups, dateRange)
      ensures dateCodes == DateRows(dateRange)
      ensures targets == TargetRows(groups, dateRange, radiusDays)
    {
      ghost var rows0, rows1, rows2 :=
        CountRows(groups, dateRange), DateRows(dateRange), TargetRows(groups, dateRange, radiusDays);
      var n := |dateRange|;
      var x0 := new seq<real>[n](_ => [0.0]);
      var x1 := new seq<real>[n](_ => seq(DateWidth, _ => 0.0));
      var y0 := new seq<real>[n](_ => [0.0, 0.0]);
      for i := 0 to n
        modifies x0, x1, y0
        invariant forall k :: 0 <= k < i ==> x0[k] == rows0[k] && x1[k] == rows1[k] && y0[k] == rows2[k]
      {
        var count, dateCode, target := DayRows(groups, dateRange[i]);
        x0[i], x1[i], y0[i] := count, dateCode, target;
      }
      counts, dateCodes, targets := x0[..], x1[..], y0[..];
    }

    /**
     * `create_ml_dataset`: sorts the caller's store by day received and builds the training
     * arrays from the eligible days.
     */
    method CreateMlDataset(dataset: DataSet) returns (ml: MLDataSet)
      modifies dataset
      ensures dataset.data == ByDate(old(dataset.data))
      ensures fresh(ml) && ml.seqSize == seqSize
      ensures var days := EligibleDays(old(dataset.data), radiusDays);
        var groups := DailyGroups(old(dataset.data));
        && ml.inputs == [Windows(Matrix(CountRows(groups, days), 1), seqSize),
                         DropRows(Matrix(DateRows(days), DateWidth), seqSize)]
        && ml.outputs == [DropRows(Matrix(TargetRows(groups, days, radiusDays), 2), seqSize)]
    {
      ghost var groups := DailyGroups(dataset.data);
      var dateRange, dateAggregation := PrepareDays(dataset);
      var x0, x1, y0 := FillRows(dateAggregation, dateRange);
      if dateRange == [] {
        RowsWithoutDays(dateAggregation, groups, radiusDays);
      }
      var counts, dateCodes, targets := Matrix(x0, 1), Matrix(x1, DateWidth), Matrix(y0, 2);
      ml := new MLDataSet([counts], [dateCodes], [targets], seqSize);
      SingleArray(counts, dateCodes, targets, seqSize);
    }
  }

  /** With no days, every dictionary gives the same (empty) rows. */
  lemma RowsWithoutDays(g: map<Date, seq<DataPoint>>, h: map<Date, seq<DataPoint>>, radius: nat)
    ensures CountRows(g, []) == CountRows(h, [])
    ensures TargetRows(g, [], radius) == TargetRows(h, [], radius)
  {
  }

  /** The constructor's comprehensions over the one-element input and output lists. */
  lemma SingleArray(counts: NdArray, dateCodes: NdArray, targets: NdArray, size: nat)
    ensures WindowAll([counts], size) + DropAll([dateCodes], size)
         == [Windows(counts, size), DropRows(dateCodes, size)]
    ensures DropAll([targets], size) == [DropRows(targets, size)]
  {
  }

  /** `'date_received'` names the third field. */
  lemma ParseDateReceived()
    ensures ParseAttribute("date_received") == Ok(DateReceived)
  {
    assert Attrs[2] == "date_received";
  }

  /** The earliest day any record was received. */
  function MinDay(s: seq<DataPoint>): int
    requires s != []
  {
    if |s| == 1 then s[0].dateReceived
    else
      var rest := MinDay(s[1..]);
      if s[0].dateReceived <= rest then s[0].dateReceived else rest
  }

  /** The latest day any record was received. */
  function MaxDay(s: seq<DataPoint>): int
    requires s != []
  {
    if |s| == 1 then s[0].dateReceived
    else
      var rest := MaxDay(s[1..]);
      if s[0].dateReceived >= rest then s[0].dateReceived else rest
  }

  /** `MinDay` is a lower bound of the days received, and is one of them. */
  lemma {:induction false} MinDayFacts(s: seq<DataPoint>)
    requires s != []
    ensures forall i :: 0 <= i < |s| ==> MinDay(s) <= s[i].dateReceived
    ensures exists i :: 0 <= i < |s| && s[i].dateReceived == MinDay(s)
  {
    if |s| == 1 {
      assert s[0].dateReceived == MinDay(s);
    } else {
      var tail := s[1..];
      MinDayFacts(tail);
      assert forall i :: 1 <= i < |s| ==> s[i] == tail[i - 1];
      var j :| 0 <= j < |tail| && tail[j].dateReceived == MinDay(tail);
      if s[0].dateReceived <= MinDay(tail) {
        assert s[0].dateReceived == MinDay(s);
      } else {
        assert s[j + 1].dateReceived == MinDay(s);
      }
    }
  }

  /** `MaxDay` is an upper bound of the days received, and is one of them. */
  lemma {:induction false} MaxDayFacts(s: seq<DataPoint>)
    requires s != []
    ensures forall i :: 0 <= i < |s| ==> s[i].dateReceived <= MaxDay(s)
    ensures exists i :: 0 <= i < |s| && s[i].dateReceived == MaxDay(s)
  {
    if |s| == 1 {
      assert s[0].dateReceived == MaxDay(s);
    } else {
      var tail := s[1..];
      MaxDayFacts(tail);
      assert forall i :: 1 <= i < |s| ==> s[i] == tail[i - 1];
      var j :| 0 <= j < |tail| && tail[j].dateReceived == MaxDay(tail);
      if s[0].dateReceived >= MaxDay(tail) {
        assert s[0].dateReceived == MaxDay(s);
      } else {
        assert s[j + 1].dateReceived == MaxDay(s);
      }
    }
  }

  /** After `order_by('date_received')` the first record has the earliest day and the last the latest. */
  lemma SortedEnds(s: seq<DataPoint>)
    requires s != []
    ensures |ByDate(s)| == |s|
    ensures ByDate(s)[0].dateReceived == MinDay(s)
    ensures Last(ByDate(s)).dateReceived == MaxDay(s)
  {
    FirstOfSorted(s, ByDate(s));
    LastOfSorted(s, ByDate(s));
  }

  /** A sorted copy of the records starts on the earliest day. */
  lemma FirstOfSorted(s: seq<DataPoint>, sorted: seq<DataPoint>)
    requires s != [] && SortedOn(sorted, DateOf(), false) && multiset(sorted) == multiset(s)
    ensures |sorted| == |s| && sorted[0].dateReceived == MinDay(s)
  {
    assert |sorted| == |multiset(sorted)| == |s|;
    MinDayFacts(s);
    assert sorted[0] in multiset(s);
    var lo :| 0 <= lo < |s| && s[lo].dateReceived == MinDay(s);
    assert s[lo] in multiset(sorted);
    var j :| 0 <= j < |sorted| && sorted[j] == s[lo];
    assert j == 0 || InOrder(DateOf()(sorted[0]), DateOf()(sorted[j]), false);
  }

  /** A sorted copy of the records ends on the latest day. */
  lemma LastOfSorted(s: seq<DataPoint>, sorted: seq<DataPoint>)
    requires s != [] && SortedOn(sorted, DateOf(), false) && multiset(sorted) == multiset(s)
    ensures |sorted| == |s| && Last(sorted).dateReceived == MaxDay(s)
  {
    assert |sorted| == |multiset(sorted)| == |s|;
    var n := |sorted|;
    MaxDayFacts(s);
    assert sorted[n - 1] in multiset(s);
    var hi :| 0 <= hi < |s| && s[hi].dateReceived == MaxDay(s);
    assert s[hi] in multiset(sorted);
    var j :| 0 <= j < n && sorted[j] == s[hi];
    assert j == n - 1 || InOrder(DateOf()(sorted[j]), DateOf()(sorted[n - 1]), false);
  }

  /**
   * There are `MaxDay - MinDay - 2 * radius + 1` eligible days, or none when that is not
   * positive; they are consecutive and each lies at least `radius` days inside the span of
   * the arrivals.
   */
  lemma EligibleCount(s: seq<DataPoint>, radius: nat)
    requires s != []
    ensures var days, span := EligibleDays(s, radius), MaxDay(s) - MinDay(s) - 2 * radius + 1;
      && |days| == (if span > 0 then span else 0)
      && forall n :: 0 <= n < |days| ==> days[n] == MinDay(s) + radius + n && days[n] + radius <= MaxDay(s)
  {
    DaysBetweenFacts(EligibleDays(s, radius), MinDay(s) + radius, MaxDay(s) - radius);
  }

  /** The length and the entries of `DaysBetween(lo, hi)`. */
  lemma DaysBetweenFacts(days: seq<int>, lo: int, hi: int)
    requires days == DaysBetween(lo, hi)
    ensures |days| == if hi >= lo then hi - lo + 1 else 0
    ensures forall n :: 0 <= n < |days| ==> days[n] == lo + n <= hi
  {
  }

  /**
   * The count the assembler looks up for a day is the number of records received that day,
   * and 0 for a day without records.
   */
  lemma CountIsArrivals(s: seq<DataPoint>, d: int)
    ensures Count(DailyGroups(s), d) == Arrivals(s, d)
  {
    forall x, y | FromOrdinal(x) == FromOrdinal(y) ensures x == y {
      KeyInjective(x, y);
    }
    AggregateByValue(s, DateReceived, FromOrdinal, d);
  }

  /** Entry `j` of the radius window of day `d` is the number of arrivals on day `d - radius + j`. */
  lemma RadiusArrivals(s: seq<DataPoint>, d: int, radius: nat)
    ensures |RadiusValues(DailyGroups(s), d, radius)| == 2 * radius + 1
    ensures forall j :: 0 <= j < 2 * radius + 1 ==>
      RadiusValues(DailyGroups(s), d, radius)[j] == Arrivals(s, d - radius + j)
  {
    CountsAreArrivals(s);
    RadiusOfCounts(DailyGroups(s), s, d, radius);
  }

  /** `RadiusArrivals` for any dictionary whose counts are the arrivals of `s`. */
  lemma RadiusOfCounts(groups: map<Date, seq<DataPoint>>, s: seq<DataPoint>, d: int, radius: nat)
    requires forall e :: Count(groups, e) == Arrivals(s, e)
    ensures forall j :: 0 <= j < 2 * radius + 1 ==> RadiusValues(groups, d, radius)[j] == Arrivals(s, d - radius + j)
  {
  }

  /** `CountIsArrivals` for every day at once. */
  lemma CountsAreArrivals(s: seq<DataPoint>)
    ensures forall d :: Count(DailyGroups(s), d) == Arrivals(s, d)
  {
    forall d ensures Count(DailyGroups(s), d) == Arrivals(s, d) {
      CountIsArrivals(s, d);
    }
  }

  /**
   * Every target row repeats the day's count and carries a variance that is never negative
   * and is zero exactly when all counts in the radius are equal.
   */
  lemma TargetFacts(groups: map<Date, seq<DataPoint>>, days: seq<int>, radius: nat)
    ensures forall i :: 0 <= i < |days| ==>
      var row := TargetRows(groups, days, radius)[i];
      var vals := RadiusValues(groups, days[i], radius);
      && |row| == 2
      && [row[0]] == CountRows(groups, days)[i]
      && row[1] >= 0.0
      && (row[1] == 0.0 <==> AllEqual(vals))
  {
    forall i | 0 <= i < |days|
      ensures var vals := RadiusValues(groups, days[i], radius);
        PopVariance(vals) >= 0.0 && (PopVariance(vals) == 0.0 <==> AllEqual(vals))
    {
      VarianceNonNegative(RadiusValues(groups, days[i], radius));
      VarianceZero(RadiusValues(groups, days[i], radius));
    }
  }

  /** An indicator row has one 1 per distinct in-range position. */
  lemma {:induction false} IndicatorOnes(n: nat, a: int, b: int)
    ensures Ones(Indicator(n, a, b)) == (if 0 <= a < n then 1 else 0) + (if 0 <= b < n && b != a then 1 else 0)
  {
    if n > 0 {
      var v := Indicator(n, a, b);
      assert v[..n - 1] == Indicator(n - 1, a, b);
      IndicatorOnes(n - 1, a, b);
    }
  }

  /**
   * The date encoding has 43 slots; slot 0 is never set; exactly slot `month` and slot
   * `11 + day` are one.  The two coincide on 1 December (slot 12), which then has a single one.
   */
  lemma OneHotSlots(d: Date)
    requires Valid(d)
    ensures |OneHot(d)| == DateWidth && OneHot(d)[0] == 0.0
    ensures forall k :: 0 <= k < DateWidth ==> (OneHot(d)[k] == 1.0 <==> k == d.month || k == 11 + d.day)
    ensures forall k :: 0 <= k < DateWidth ==> OneHot(d)[k] == 0.0 || OneHot(d)[k] == 1.0
    ensures 1 <= d.month <= 12 && 12 <= 11 + d.day <= 42
    ensures Ones(OneHot(d)) == if d.month == 12 && d.day == 1 then 1 else 2
  {
    MonthTable(d.year, d.month);
    IndicatorOnes(DateWidth, d.month, 11 + d.day);
  }

  /**
   * Window `k` of the sequence input holds the counts of days `k .. k + size - 1`, and the
   * target row it is trained on is that of day `k + size`, the next day.
   */
  lemma NextDayAlignment(groups: map<Date, seq<DataPoint>>, days: seq<int>, radius: nat, size: nat)
    ensures var windows := Windows(Matrix(CountRows(groups, days), 1), size);
      var targets := DropRows(Matrix(TargetRows(groups, days, radius), 2), size);
      && Length(windows) == Length(targets) == WindowCount(|days|, size)
      && forall k :: 0 <= k < Length(windows) ==>
        && k + size < |days|
        && |windows.rows[k].parts| == size
        && (forall t :: 0 <= t < size ==> windows.rows[k].parts[t] == Vector(CountRow(groups, days[k + t])))
        && targets.rows[k] == Vector(TargetRow(groups, days[k + size], radius))
  {
    WindowDays(groups, days, size);
    TargetDays(groups, days, radius, size);
  }

  /** The count half of `NextDayAlignment`. */
  lemma WindowDays(groups: map<Date, seq<DataPoint>>, days: seq<int>, size: nat)
    ensures var windows := Windows(Matrix(CountRows(groups, days), 1), size);
      && Length(windows) == WindowCount(|days|, size)
      && forall k :: 0 <= k < Length(windows) ==>
        && k + size < |days|
        && |windows.rows[k].parts| == size
        && (forall t :: 0 <= t < size ==> windows.rows[k].parts[t] == Vector(CountRow(groups, days[k + t])))
  {
    var counts := Matrix(CountRows(groups, days), 1);
    WindowsContent(counts, size);
    forall k | 0 <= k < Length(Windows(counts, size))
      ensures forall t :: 0 <= t < size ==> Windows(counts, size).rows[k].parts[t] == counts.rows[k + t]
    {
      assert Windows(counts, size).rows[k].parts == counts.rows[k..k + size];
    }
  }

  /** The target half of `NextDayAlignment`. */
  lemma TargetDays(groups: map<Date, seq<DataPoint>>, days: seq<int>, radius: nat, size: nat)
    ensures var targets := DropRows(Matrix(TargetRows(groups, days, radius), 2), size);
      && Length(targets) == WindowCount(|days|, size)
      && forall k :: 0 <= k < Length(targets) ==>
        k + size < |days| && targets.rows[k] == Vector(TargetRow(groups, days[k + size], radius))
  {
    DropLength(Matrix(TargetRows(groups, days, radius), 2), size);
  }

  /** Part `t` of window `k` of the count input is the number of arrivals on eligible day `k + t`. */
  lemma WindowArrivals(s: seq<DataPoint>, radius: nat, size: nat)
    ensures var days := EligibleDays(s, radius);
      var windows := Windows(Matrix(CountRows(DailyGroups(s), days), 1), size);
      forall k, t :: 0 <= k < Length(windows) && 0 <= t < size ==>
        && k + t < |days|
        && windows.rows[k].parts[t] == Vector([Arrivals(s, days[k + t]) as real])
  {
    var days := EligibleDays(s, radius);
    NextDayAlignment(DailyGroups(s), days, radius, size);
    forall n | 0 <= n < |days| ensures Count(DailyGroups(s), days[n]) == Arrivals(s, days[n]) {
      CountIsArrivals(s, days[n]);
    }
  }

  /**
   * With no eligible day (an empty store, or a span shorter than the radius allows) the
   * sequence input is `np.array([])` and the other arrays have shapes `(0, 43)` and `(0, 2)`.
   */
  lemma NoDays(groups: map<Date, seq<DataPoint>>, radius: nat, size: nat)
    ensures Windows(Matrix(CountRows(groups, []), 1), size) == NdArray([], [])
    ensures Shape(DropRows(Matrix(DateRows([]), DateWidth), size)) == [0, 43]
    ensures Shape(DropRows(Matrix(TargetRows(groups, [], radius), 2), size)) == [0, 2]
  {
  }
}
