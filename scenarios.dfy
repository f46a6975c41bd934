/**
 * The behaviour the repository's tests describe, derived from the model on their inputs:
 * ordering five records by clinic, grouping records of one clinic, the daily groups of the
 * two-week sample store, and the arrays the assembler builds from it and from an empty store;
 * and the three-day example of the assembler's design (one arrival a day, radius 1).
 */
module Scenarios {
  import opened Seqs
  import opened Sorting
  import opened Grouping
  import opened Calendar
  import opened Statistics
  import opened NdArrays
  import opened Dataset
  import opened RadiusVarianceModel

  /** `[(i, 1, 2) for i in range(5)]`. */
  function FiveClinics(): seq<DataPoint>
  {
    seq(5, i => DataPoint(i, 1, 2))
  }

  /** The same records by descending clinic. */
  function Countdown(): seq<DataPoint>
  {
    seq(5, i => DataPoint(4 - i, 1, 2))
  }

  lemma CountdownSorted()
    ensures SortedOn(Countdown(), FieldOf(ClinicId), true) && UniqueKeys(Countdown(), FieldOf(ClinicId))
  {
  }

  lemma CountdownSameRecords()
    ensures multiset(Countdown()) == multiset(FiveClinics())
  {
    ReverseFacts(FiveClinics());
    assert Countdown() == Reverse(FiveClinics());
  }

  /** `order_by('clinic_id', descending=True)` leaves clinic `4 - i` at position `i`. */
  lemma OrderByDescendingExample()
    ensures SortBy(FiveClinics(), FieldOf(ClinicId), true) == Countdown()
  {
    CountdownSorted();
    CountdownSameRecords();
    SortedUnique(SortBy(FiveClinics(), FieldOf(ClinicId), true), Countdown(), FieldOf(ClinicId), true);
  }

  /** `[(1, 2, i) for i in range(5)]`. */
  function OneClinic(): seq<DataPoint>
  {
    seq(5, i => DataPoint(1, 2, i))
  }

  /** `aggregate_on('clinic_id', key=lambda x: x)` is `{1: data}`, the records in their original order. */
  lemma AggregateOneClinicExample()
    ensures Aggregate(SortBy(OneClinic(), FieldOf(ClinicId), false), Compose(FieldOf(ClinicId), (x: int) => x))
         == map[1 := OneClinic()]
  {
    var key := FieldOf(ClinicId);
    var sorted := SortBy(OneClinic(), key, false);
    OneClinicSorted(sorted);
    MembersAll(sorted, key, 1);
    MembersAll(OneClinic(), key, 1);
    SortByStable(OneClinic(), key, false, 1);
    AggregateSingleKey(sorted, Compose(key, (x: int) => x), 1);
  }

  lemma OneClinicSorted(sorted: seq<DataPoint>)
    requires multiset(sorted) == multiset(OneClinic())
    ensures forall i :: 0 <= i < |sorted| ==> sorted[i].clinicId == 1
  {
    forall i | 0 <= i < |sorted| ensures sorted[i].clinicId == 1 {
      assert sorted[i] in multiset(OneClinic());
    }
  }

  /** The ordinal of 1 January 2020. */
  const Jan1: int := 737425

  /** A record received on day `d`; its clinic and severity play no part in the counts. */
  function Arrival(d: int): DataPoint
  {
    DataPoint(1, 1, d)
  }

  function Block(d: int, n: nat): seq<DataPoint>
  {
    seq(n, _ => Arrival(d))
  }

  /**
   * A store with the daily arrivals the tests assert: one on 1 January 2020, two on the 3rd,
   * one on the 4th, one on the 5th, four on the 7th and two on the 11th.
   */
  function SampleStore(): seq<DataPoint>
  {
    Block(Jan1, 1) + Block(Jan1 + 2, 2) + Block(Jan1 + 3, 1) + Block(Jan1 + 4, 1) + Block(Jan1 + 6, 4) + Block(Jan1 + 10, 2)
  }

  /** The arrivals of the sample store on day `Jan1 + k`. */
  function SampleCount(k: int): nat
  {
    if k == 0 then 1 else if k == 2 then 2 else if k == 3 then 1 else if k == 4 then 1
    else if k == 6 then 4 else if k == 10 then 2 else 0
  }

  lemma ArrivalsBlock(d: int, n: nat, k: int)
    ensures Arrivals(Block(d, n), k) == if k == d then n else 0
  {
    if k == d {
      MembersAll(Block(d, n), DateOf(), k);
    } else {
      MembersEmpty(Block(d, n), DateOf(), k);
    }
  }

  lemma ArrivalsConcat(a: seq<DataPoint>, b: seq<DataPoint>, k: int)
    ensures Arrivals(a + b, k) == Arrivals(a, k) + Arrivals(b, k)
  {
    MembersConcat(a, b, DateOf(), k);
  }

  lemma SampleArrivals(k: int)
    ensures Arrivals(SampleStore(), Jan1 + k) == SampleCount(k)
  {
    var d := Jan1 + k;
    var b0, b2, b3, b4, b6, b10 := Block(Jan1, 1), Block(Jan1 + 2, 2), Block(Jan1 + 3, 1), Block(Jan1 + 4, 1), Block(Jan1 + 6, 4), Block(Jan1 + 10, 2);
    ArrivalsConcat(b0 + b2 + b3 + b4 + b6, b10, d);
    ArrivalsConcat(b0 + b2 + b3 + b4, b6, d);
    ArrivalsConcat(b0 + b2 + b3, b4, d);
    ArrivalsConcat(b0 + b2, b3, d);
    ArrivalsConcat(b0, b2, d);
    ArrivalsBlock(Jan1, 1, d);
    ArrivalsBlock(Jan1 + 2, 2, d);
    ArrivalsBlock(Jan1 + 3, 1, d);
    ArrivalsBlock(Jan1 + 4, 1, d);
    ArrivalsBlock(Jan1 + 6, 4, d);
    ArrivalsBlock(Jan1 + 10, 2, d);
  }

  /** The sample store spans 1 to 11 January 2020. */
  lemma SampleSpan()
    ensures MinDay(SampleStore()) == Jan1 && MaxDay(SampleStore()) == Jan1 + 10
  {
    var s := SampleStore();
    assert forall i :: 0 <= i < |s| ==> Jan1 <= s[i].dateReceived <= Jan1 + 10;
    assert s[0].dateReceived == Jan1 && s[|s| - 1].dateReceived == Jan1 + 10;
    MinDayFacts(s);
    MaxDayFacts(s);
  }

  /** Day `n` of January 2020 has ordinal `Jan1 + n - 1`, so its key is the date itself. */
  lemma JanuaryKey(n: int)
    requires 1 <= n <= 31
    ensures Valid(Date(2020, 1, n)) && ToOrdinal(Date(2020, 1, n)) == Jan1 + n - 1
    ensures FromOrdinal(Jan1 + n - 1) == Date(2020, 1, n)
  {
    assert DaysBeforeYear(2020) == 737424;
    DateRoundTrip(Date(2020, 1, n));
  }

  /** What the tests rely on about their store: its span and its daily arrivals. */
  ghost predicate LikeSample(s: seq<DataPoint>)
  {
    && s != [] && MinDay(s) == Jan1 && MaxDay(s) == Jan1 + 10
    && forall d :: Arrivals(s, d) == SampleCount(d - Jan1)
  }

  lemma SampleIsLikeSample()
    ensures LikeSample(SampleStore())
  {
    SampleSpan();
    forall d ensures Arrivals(SampleStore(), d) == SampleCount(d - Jan1) {
      SampleArrivals(d - Jan1);
    }
  }

  /** The group of day `n` of January holds the arrivals of that day; days without arrivals have none. */
  lemma SampleGroup(s: seq<DataPoint>, n: int)
    requires LikeSample(s) && 1 <= n <= 31
    ensures var g, key := DailyGroups(s), Date(2020, 1, n);
      && Count(g, Jan1 + n - 1) == SampleCount(n - 1)
      && (SampleCount(n - 1) > 0 ==> key in g && |g[key]| == SampleCount(n - 1))
  {
    JanuaryKey(n);
    CountIsArrivals(s, Jan1 + n - 1);
    assert Arrivals(s, Jan1 + n - 1) == SampleCount(n - 1);
  }

  /** `len(agg['2020-01-01']) == 1`, `len(agg['2020-01-03']) == 2`, and so on for the sample store. */
  lemma DailyGroupsExample()
    ensures var g := DailyGroups(SampleStore());
      && Date(2020, 1, 1) in g && |g[Date(2020, 1, 1)]| == 1
      && Date(2020, 1, 3) in g && |g[Date(2020, 1, 3)]| == 2
      && Date(2020, 1, 4) in g && |g[Date(2020, 1, 4)]| == 1
      && Date(2020, 1, 5) in g && |g[Date(2020, 1, 5)]| == 1
      && Date(2020, 1, 7) in g && |g[Date(2020, 1, 7)]| == 4
      && Date(2020, 1, 11) in g && |g[Date(2020, 1, 11)]| == 2
  {
    var s := SampleStore();
    SampleIsLikeSample();
    SampleGroup(s, 1);
    SampleGroup(s, 3);
    SampleGroup(s, 4);
    SampleGroup(s, 5);
    SampleGroup(s, 7);
    SampleGroup(s, 11);
  }

  /** The count input the assembler builds from store `s`. */
  function CountInput(s: seq<DataPoint>, radius: nat): NdArray
  {
    Matrix(CountRows(DailyGroups(s), EligibleDays(s, radius)), 1)
  }

  /**
   * With radius 1 there are nine eligible days (2 to 10 January) and so eight windows of one
   * day; with radius 3 there are five (4 to 8 January) and so two windows of three days.
   */
  lemma WindowCountExamples()
    ensures Length(Windows(CountInput(SampleStore(), 1), 1)) == 8
    ensures Length(Windows(CountInput(SampleStore(), 3), 3)) == 2
  {
    var s := SampleStore();
    var g := DailyGroups(s);
    SampleIsLikeSample();
    EligibleCount(s, 1);
    EligibleCount(s, 3);
    NextDayAlignment(g, EligibleDays(s, 1), 1, 1);
    NextDayAlignment(g, EligibleDays(s, 3), 3, 3);
  }

  /** A window of two one-count rows. */
  function Pair(a: real, b: real): Tensor
  {
    Stack([Vector([a]), Vector([b])])
  }

  /** Window `k` of two days with radius 3 holds the counts of 4 + k and 5 + k January. */
  lemma SampleWindow(s: seq<DataPoint>, k: nat)
    requires LikeSample(s) && k < 3
    ensures Length(Windows(CountInput(s, 3), 2)) == 3
    ensures Windows(CountInput(s, 3), 2).rows[k] == Pair(SampleCount(3 + k) as real, SampleCount(4 + k) as real)
  {
    var days := EligibleDays(s, 3);
    EligibleCount(s, 3);
    WindowsContent(CountInput(s, 3), 2);
    WindowArrivals(s, 3, 2);
    var w := Windows(CountInput(s, 3), 2).rows[k];
    assert Arrivals(s, days[k]) == SampleCount(3 + k) && Arrivals(s, days[k + 1]) == SampleCount(4 + k);
    assert w.parts == [Vector([SampleCount(3 + k) as real]), Vector([SampleCount(4 + k) as real])];
  }

  lemma SampleWindows(s: seq<DataPoint>)
    requires LikeSample(s)
    ensures Windows(CountInput(s, 3), 2).rows == [Pair(1.0, 1.0), Pair(1.0, 0.0), Pair(0.0, 4.0)]
  {
    var rows := Windows(CountInput(s, 3), 2).rows;
    forall k | 0 <= k < 3 ensures |rows| == 3 && rows[k] == Pair(SampleCount(3 + k) as real, SampleCount(4 + k) as real) {
      SampleWindow(s, k);
    }
  }

  /** `inputs[0] == [[[1], [1]], [[1], [0]], [[0], [4]]]` for sequence size 2 and radius 3. */
  lemma SequenceInputExample()
    ensures Windows(CountInput(SampleStore(), 3), 2).rows == [Pair(1.0, 1.0), Pair(1.0, 0.0), Pair(0.0, 4.0)]
  {
    SampleIsLikeSample();
    SampleWindows(SampleStore());
  }

  /** An empty store gives `np.array([])`, `np.empty((0, 43))` and `np.empty((0, 2))`. */
  lemma EmptyStoreExample()
    ensures var g, days := DailyGroups([]), EligibleDays([], 2);
      && Windows(Matrix(CountRows(g, days), 1), 3) == NdArray([], [])
      && Shape(DropRows(Matrix(DateRows(days), DateWidth), 3)) == [0, 43]
      && Shape(DropRows(Matrix(TargetRows(g, days, 2), 2), 3)) == [0, 2]
  {
    NoDays(DailyGroups([]), 2, 3);
  }

  /** One record on each of 1, 2 and 3 January 2020. */
  function ThreeDays(): seq<DataPoint>
  {
    Block(Jan1, 1) + Block(Jan1 + 1, 1) + Block(Jan1 + 2, 1)
  }

  lemma ThreeDaysArrivals(d: int)
    ensures Arrivals(ThreeDays(), d) == if Jan1 <= d <= Jan1 + 2 then 1 else 0
  {
    ArrivalsConcat(Block(Jan1, 1) + Block(Jan1 + 1, 1), Block(Jan1 + 2, 1), d);
    ArrivalsConcat(Block(Jan1, 1), Block(Jan1 + 1, 1), d);
    ArrivalsBlock(Jan1, 1, d);
    ArrivalsBlock(Jan1 + 1, 1, d);
    ArrivalsBlock(Jan1 + 2, 1, d);
  }

  lemma ThreeDaysSpan()
    ensures MinDay(ThreeDays()) == Jan1 && MaxDay(ThreeDays()) == Jan1 + 2
  {
    var s := ThreeDays();
    assert forall i :: 0 <= i < |s| ==> Jan1 <= s[i].dateReceived <= Jan1 + 2;
    assert s[0].dateReceived == Jan1 && s[|s| - 1].dateReceived == Jan1 + 2;
    MinDayFacts(s);
    MaxDayFacts(s);
  }

  /**
   * With radius 1, a store that spans days `d - 1` to `d + 1` with one arrival on each has
   * the single eligible day `d`, whose count is 1, whose radius values are `[1, 1, 1]` and
   * whose variance is 0.
   */
  lemma OneEachDay(s: seq<DataPoint>, d: int)
    requires s != [] && MinDay(s) == d - 1 && MaxDay(s) == d + 1
    requires Arrivals(s, d - 1) == 1 && Arrivals(s, d) == 1 && Arrivals(s, d + 1) == 1
    ensures EligibleDays(s, 1) == [d]
    ensures RadiusValues(DailyGroups(s), d, 1) == [1, 1, 1]
    ensures CountRows(DailyGroups(s), [d]) == [[1.0]]
    ensures TargetRows(DailyGroups(s), [d], 1) == [[1.0, 0.0]]
  {
    CountIsArrivals(s, d - 1);
    CountIsArrivals(s, d);
    CountIsArrivals(s, d + 1);
    OneEachRows(DailyGroups(s), d);
  }

  lemma OneEachRows(groups: map<Date, seq<DataPoint>>, d: int)
    requires Count(groups, d - 1) == 1 && Count(groups, d) == 1 && Count(groups, d + 1) == 1
    ensures RadiusValues(groups, d, 1) == [1, 1, 1]
    ensures CountRows(groups, [d]) == [[1.0]]
    ensures TargetRows(groups, [d], 1) == [[1.0, 0.0]]
  {
    assert RadiusValues(groups, d, 1) == [1, 1, 1];
    VarianceExamples();
  }

  /** Three consecutive days of one arrival each, radius 1: the one example is 2 January, `[1, 0]`. */
  lemma ThreeDaysExample()
    ensures EligibleDays(ThreeDays(), 1) == [Jan1 + 1]
    ensures CountRows(DailyGroups(ThreeDays()), [Jan1 + 1]) == [[1.0]]
    ensures TargetRows(DailyGroups(ThreeDays()), [Jan1 + 1], 1) == [[1.0, 0.0]]
  {
    ThreeDaysSpan();
    ThreeDaysArrivals(Jan1);
    ThreeDaysArrivals(Jan1 + 1);
    ThreeDaysArrivals(Jan1 + 2);
    OneEachDay(ThreeDays(), Jan1 + 1);
  }
}
