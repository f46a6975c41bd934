/**
 * The record store and the window builder of the current pipeline: a `DataSet` of
 * three-field arrival records with fluent filtering and ordering, the one-pass grouping of
 * `aggregate_on`, and the `MLDataSet` that turns aligned series into training arrays.
 */
module Dataset {
  import opened Wrappers
  import opened Seqs
  import opened Lookup
  import opened Sorting
  import opened Grouping
  import opened NdArrays

  /** The schema `_ATTRS`: the field names, in tuple order. */
  const Attrs: seq<string> := ["clinic_id", "severity", "date_received"]

  /** One arrival: the clinic, the triage severity and the day received (a day ordinal). */
  datatype DataPoint = DataPoint(clinicId: int, severity: int, dateReceived: int)

  datatype Attribute = ClinicId | Severity | DateReceived

  /** The position of an attribute in the schema. */
  function Position(a: Attribute): nat
  {
    match a
    case ClinicId => 0
    case Severity => 1
    case DateReceived => 2
  }

  /** `_ATTRS.index(name)`, as the attribute at that position. */
  function ParseAttribute(name: string): (r: Result<Attribute>)
    ensures r.Ok? <==> name in Attrs
    ensures r.Ok? ==> Attrs[Position(r.value)] == name
    ensures r.Err? ==> r.error == NotInList
  {
    match IndexOf(Attrs, name)
    case Err(e) => Err(e)
    case Ok(i) => Ok(if i == 0 then ClinicId else if i == 1 then Severity else DateReceived)
  }

  /** `data_point[attr_idx]`. */
  function Field(p: DataPoint, a: Attribute): int
  {
    match a
    case ClinicId => p.clinicId
    case Severity => p.severity
    case DateReceived => p.dateReceived
  }

  function FieldOf(a: Attribute): DataPoint -> int
  {
    (p: DataPoint) => Field(p, a)
  }

  /** The filter condition `lambda data_point: predicate(data_point[attr_idx])`, with `test` for `predicate`. */
  function Satisfies(a: Attribute, test: int -> bool): DataPoint -> bool
  {
    (p: DataPoint) => test(Field(p, a))
  }

  /** The record as the tuple `DataPoint` is: its fields in schema order. */
  function AsTuple(p: DataPoint): seq<int>
  {
    [p.clinicId, p.severity, p.dateReceived]
  }

  /** `[DataPoint(*item) for item in data]`: a tuple of any other length raises `TypeError`. */
  function MakePoints(tuples: seq<seq<int>>): (r: Result<seq<DataPoint>>)
    ensures r.Ok? <==> forall i :: 0 <= i < |tuples| ==> |tuples[i]| == |Attrs|
    ensures r.Err? ==> r.error == ArityMismatch
    ensures r.Ok? ==> |r.value| == |tuples| && forall i :: 0 <= i < |tuples| ==> AsTuple(r.value[i]) == tuples[i]
  {
    if tuples == [] then Ok([])
    else
      var t := tuples[0];
      if |t| != |Attrs| then Err(ArityMismatch)
      else
        match MakePoints(tuples[1..])
        case Err(e) => Err(e)
        case Ok(rest) =>
          assert forall i :: 1 <= i < |tuples| ==> tuples[i] == tuples[1..][i - 1];
          Ok([DataPoint(t[0], t[1], t[2])] + rest)
  }

  /**
   * The constructor's effect on its argument: only the first tuple's length is checked
   * (`ValueError`); an empty list is accepted.
   */
  function Construct(tuples: seq<seq<int>>): (r: Result<seq<DataPoint>>)
    ensures |tuples| > 0 && |tuples[0]| != |Attrs| ==> r == Err(InvalidData)
    ensures (|tuples| == 0 || |tuples[0]| == |Attrs|) ==> r == MakePoints(tuples)
  {
    if |tuples| > 0 && |tuples[0]| != |Attrs| then Err(InvalidData)
    else MakePoints(tuples)
  }

  /** Construction succeeds exactly on lists of 3-tuples, and keeps every tuple in order. */
  lemma ConstructOutcome(tuples: seq<seq<int>>)
    ensures Construct(tuples).Ok? <==> forall i :: 0 <= i < |tuples| ==> |tuples[i]| == 3
    ensures Construct(tuples).Ok? ==>
      |Construct(tuples).value| == |tuples| &&
      forall i :: 0 <= i < |tuples| ==> AsTuple(Construct(tuples).value[i]) == tuples[i]
    ensures Construct(tuples).Err? ==>
      Construct(tuples).error == if |tuples[0]| != 3 then InvalidData else ArityMismatch
  {
  }

  /** Distinct attribute values have distinct keys. */
  ghost predicate Injective<K>(key: int -> K)
  {
    forall x, y :: key(x) == key(y) ==> x == y
  }

  /**
   * Sorting by an attribute makes each key class of an injective key contiguous, and the
   * class of `key(v)` is the records with value `v`, in store order.
   */
  lemma SortedKeyClasses<K>(s: seq<DataPoint>, a: Attribute, key: int -> K, v: int)
    requires Injective(key)
    ensures var sorted := SortBy(s, FieldOf(a), false);
      && Contiguous(sorted, Compose(FieldOf(a), key))
      && Members(sorted, Compose(FieldOf(a), key), key(v)) == Members(s, FieldOf(a), v)
  {
    var sorted := SortBy(s, FieldOf(a), false);
    var ck := Compose(FieldOf(a), key);
    forall i, j, l | 0 <= i < j < l < |sorted| && ck(sorted[i]) == ck(sorted[l])
      ensures ck(sorted[j]) == ck(sorted[i])
    {
      assert InOrder(FieldOf(a)(sorted[i]), FieldOf(a)(sorted[j]), false);
      assert InOrder(FieldOf(a)(sorted[j]), FieldOf(a)(sorted[l]), false);
    }
    MembersSameClass(sorted, ck, key(v), FieldOf(a), v);
    SortByStable(s, FieldOf(a), false, v);
  }

  /**
   * What `aggregate_on(attribute, key)` returns for an injective key: the key of a value
   * held by some record maps to exactly the records with that value, in store order, and
   * the key of a value no record holds is absent.
   */
  lemma AggregateByValue<K>(s: seq<DataPoint>, a: Attribute, key: int -> K, v: int)
    requires Injective(key)
    ensures var groups := Aggregate(SortBy(s, FieldOf(a), false), Compose(FieldOf(a), key));
      && (Members(s, FieldOf(a), v) != [] ==> key(v) in groups && groups[key(v)] == Members(s, FieldOf(a), v))
      && (Members(s, FieldOf(a), v) == [] ==> key(v) !in groups)
  {
    var sorted := SortBy(s, FieldOf(a), false);
    var ck := Compose(FieldOf(a), key);
    SortedKeyClasses(s, a, key, v);
    if Members(s, FieldOf(a), v) != [] {
      AggregateKey(sorted, ck, key(v));
    } else {
      AggregateKeys(sorted, ck);
      MembersEmpty(sorted, ck, key(v));
    }
  }

  class DataSet {
    var data: seq<DataPoint>

    constructor FromPoints(points: seq<DataPoint>)
      ensures data == points
    {
      data := points;
    }

    /** `DataSet(data)`: a new store, or the exception the constructor raises. */
    static method Create(tuples: seq<seq<int>>) returns (r: Result<DataSet>)
      ensures r.Ok? <==> Construct(tuples).Ok?
      ensures r.Err? ==> r.error == Construct(tuples).error
      ensures r.Ok? ==> fresh(r.value) && r.value.data == Construct(tuples).value
    {
      var points := Construct(tuples);
      if points.Err? {
        return Err(points.error);
      }
      var ds := new DataSet.FromPoints(points.value);
      return Ok(ds);
    }

    /** `filter_on`: keeps, in order, the records whose attribute satisfies `test` (the `predicate` argument). */
    method FilterOn(attribute: string, test: int -> bool) returns (r: Result<DataSet>)
      modifies this
      ensures ParseAttribute(attribute).Err? ==> r == Err(NotInList) && data == old(data)
      ensures ParseAttribute(attribute).Ok? ==>
        r == Ok(this) && data == Filter(old(data), Satisfies(ParseAttribute(attribute).value, test))
    {
      var attr := ParseAttribute(attribute);
      if attr.Err? {
        return Err(attr.error);
      }
      data := Filter(data, Satisfies(attr.value, test));
      return Ok(this);
    }

    /** `order_by`: a stable sort on the attribute, ascending or descending. */
    method OrderBy(attribute: string, descending: bool) returns (r: Result<DataSet>)
      modifies this
      ensures ParseAttribute(attribute).Err? ==> r == Err(NotInList) && data == old(data)
      ensures ParseAttribute(attribute).Ok? ==>
        r == Ok(this) && data == SortBy(old(data), FieldOf(ParseAttribute(attribute).value), descending)
    {
      var attr := ParseAttribute(attribute);
      if attr.Err? {
        return Err(attr.error);
      }
      data := SortBy(data, FieldOf(attr.value), descending);
      return Ok(this);
    }

    /**
     * `aggregate_on`: groups an ascending sorted copy of the records by `key` of the
     * attribute; the store itself is left as it is.
     */
    method AggregateOn<K(==)>(attribute: string, key: int -> K) returns (r: Result<map<K, seq<DataPoint>>>)
      ensures ParseAttribute(attribute).Err? ==> r == Err(NotInList)
      ensures ParseAttribute(attribute).Ok? ==>
        var a := ParseAttribute(attribute).value;
        r == Ok(Aggregate(SortBy(data, FieldOf(a), false), Compose(FieldOf(a), key)))
    {
      var attr := ParseAttribute(attribute);
      if attr.Err? {
        return Err(attr.error);
      }
      var sortedData := SortBy(data, FieldOf(attr.value), false);
      var aggregation := CollectGroups(sortedData, FieldOf(attr.value), key);
      return Ok(aggregation);
    }

    /** `len(dataset)`. */
    function Len(): (n: nat)
      reads this
      ensures n == |data|
    {
      |data|
    }

    /** `dataset[index]`, with Python's negative indices counting from the end. */
    function GetItem(index: int): (r: Result<DataPoint>)
      reads this
      ensures r.Ok? <==> -|data| <= index < |data|
      ensures r.Err? ==> r.error == IndexOutOfRange
      ensures 0 <= index < |data| ==> r.value == data[index]
      ensures -|data| <= index < 0 ==> r.value == data[|data| + index]
    {
      if 0 <= index < |data| then Ok(data[index])
      else if -|data| <= index < 0 then Ok(data[|data| + index])
      else Err(IndexOutOfRange)
    }
  }

  /** `_setup_seq` applied to each array. */
  function WindowAll(xs: seq<NdArray>, size: nat): (r: seq<NdArray>)
    ensures |r| == |xs|
  {
    seq(|xs|, i requires 0 <= i < |xs| => Windows(xs[i], size))
  }

  /** Python's `int(x)` on a number: truncation toward zero. */
  function Trunc(x: real): (r: int)
    ensures x >= 0.0 ==> 0 <= r && r as real <= x < r as real + 1.0
    ensures x < 0.0 ==> r <= 0 && r as real - 1.0 < x <= r as real
  {
    if x >= 0.0 then x.Floor else -((-x).Floor)
  }

  /** `int(len(self.inputs[0]) * point)`. */
  function SplitIndex(n: nat, point: real): int
  {
    Trunc(n as real * point)
  }

  class MLDataSet {
    var seqSize: nat
    var inputs: seq<NdArray>
    var outputs: seq<NdArray>

    /**
     * Sequence inputs become windows; every other input and every output loses its first
     * `seqSize` rows, so that row `k` of each lines up with window `k`.
     */
    constructor(seqInputs: seq<NdArray>, otherInputs: seq<NdArray>, outputs: seq<NdArray>, seqSize: nat)
      ensures this.seqSize == seqSize
      ensures inputs == WindowAll(seqInputs, seqSize) + DropAll(otherInputs, seqSize)
      ensures this.outputs == DropAll(outputs, seqSize)
    {
      this.seqSize := seqSize;
      var windowed: seq<NdArray> := [];
      for i := 0 to |seqInputs|
        invariant |windowed| == i
        invariant forall j :: 0 <= j < i ==> windowed[j] == Windows(seqInputs[j], seqSize)
      {
        var w := SetupSeq(seqSize, seqInputs[i]);
        windowed := windowed + [w];
      }
      inputs := windowed + DropAll(otherInputs, seqSize);
      this.outputs := DropAll(outputs, seqSize);
    }

    /** `_setup_seq`: the windows `data[i - size:i]` for `i` in `range(size, len(data))`. */
    static method SetupSeq(size: nat, data: NdArray) returns (r: NdArray)
      ensures r == Windows(data, size)
    {
      var seqData: seq<Tensor> := [];
      var i := size;
      while i < |data.rows|
        invariant size <= i && (i <= |data.rows| || i == size)
        invariant |seqData| == i - size
        invariant forall k :: 0 <= k < |seqData| ==> seqData[k] == Stack(data.rows[k..k + size])
      {
        seqData := seqData + [Stack(data.rows[i - size..i])];
        i := i + 1;
      }
      if |seqData| > 0 {
        r := NdArray(seqData, [size] + data.rowShape);
      } else {
        r := NdArray([], []);
      }
    }

    /**
     * `split(point)`: cuts every array at `int(len(inputs[0]) * point)` and builds each half
     * through the constructor, which trims it by `seqSize` once more.
     */
    method Split(point: real) returns (r: Result<(MLDataSet, MLDataSet)>)
      ensures r.Err? <==> inputs == []
      ensures r.Err? ==> r.error == IndexOutOfRange
      ensures r.Ok? ==>
        var idx := SplitIndex(Length(inputs[0]), point);
        var (s1, s2) := r.value;
        && fresh(s1) && fresh(s2)
        && s1.seqSize == seqSize && s2.seqSize == seqSize
        && s1.inputs == DropAll(TakeAll(inputs, idx), seqSize)
        && s1.outputs == DropAll(TakeAll(outputs, idx), seqSize)
        && s2.inputs == DropAll(DropAll(inputs, idx), seqSize)
        && s2.outputs == DropAll(DropAll(outputs, idx), seqSize)
    {
      if inputs == [] {
        return Err(IndexOutOfRange);
      }
      var splitIdx := SplitIndex(Length(inputs[0]), point);
      var s1 := new MLDataSet([], TakeAll(inputs, splitIdx), TakeAll(outputs, splitIdx), seqSize);
      var s2 := new MLDataSet([], DropAll(inputs, splitIdx), DropAll(outputs, splitIdx), seqSize);
      return Ok((s1, s2));
    }
  }

  /** For a point in `[0, 1]` the cut falls inside the array. */
  lemma SplitIndexBounds(n: nat, point: real)
    requires 0.0 <= point <= 1.0
    ensures 0 <= SplitIndex(n, point) <= n
  {
    var x := n as real * point;
    assert 0.0 <= x <= n as real by {
      ScaleBounds(n as real, point);
    }
  }

  lemma ScaleBounds(a: real, p: real)
    requires a >= 0.0 && 0.0 <= p <= 1.0
    ensures 0.0 <= a * p <= a
  {
  }

  /**
   * For an array of `n` rows cut at `0 <= idx <= n`, the first half keeps rows
   * `[min(size, idx), idx)` and the second rows `[min(idx + size, n), n)`: lengths
   * `max(idx - size, 0)` and `max(n - idx - size, 0)`.
   */
  lemma SplitHalves(x: NdArray, idx: int, size: nat)
    requires 0 <= idx <= Length(x)
    ensures var first := DropRows(TakeRows(x, idx), size);
      var n := Length(x);
      && first.rows == x.rows[if size < idx then size else idx..idx]
      && Length(first) == if size < idx then idx - size else 0
    ensures var second := DropRows(DropRows(x, idx), size);
      var n := Length(x);
      && second.rows == x.rows[if idx + size < n then idx + size else n..]
      && Length(second) == if idx + size < n then n - idx - size else 0
  {
  }
}
