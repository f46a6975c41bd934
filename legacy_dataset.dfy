/**
 * The record store of the earlier pipeline (triage_ml/data/dataset.py): five-field records,
 * a constructor that refuses an empty list, a `filter_on` that leaves a one-shot `filter`
 * object in place of the list, and an `MLDataSet` that only holds its arrays and cuts them at
 * `len(inputs[0]) * point` without converting the product to an integer.
 */
module LegacyDataset {
  import opened Wrappers
  import opened Seqs
  import opened Lookup
  import opened Sorting
  import opened Grouping
  import opened NdArrays

  /** The schema `_ATTRS`, in tuple order. */
  const Attrs: seq<string> := ["id", "clinic_id", "severity", "date_received", "date_seen"]

  /** One visit: its id, the clinic, the severity and the days received and seen (day ordinals). */
  datatype DataPoint = DataPoint(id: int, clinicId: int, severity: int, dateReceived: int, dateSeen: int)

  datatype Attribute = Id | ClinicId | Severity | DateReceived | DateSeen

  function Position(a: Attribute): nat
  {
    match a
    case Id => 0
    case ClinicId => 1
    case Severity => 2
    case DateReceived => 3
    case DateSeen => 4
  }

  /** `_ATTRS.index(name)`, as the attribute at that position. */
  function ParseAttribute(name: string): (r: Result<Attribute>)
    ensures r.Ok? <==> name in Attrs
    ensures r.Ok? ==> Attrs[Position(r.value)] == name
    ensures r.Err? ==> r.error == NotInList
  {
    match IndexOf(Attrs, name)
    case Err(e) => Err(e)
    case Ok(i) =>
      Ok(if i == 0 then Id else if i == 1 then ClinicId else if i == 2 then Severity
         else if i == 3 then DateReceived else DateSeen)
  }

  /** `data_point[attr_idx]`. */
  function Field(p: DataPoint, a: Attribute): int
  {
    match a
    case Id => p.id
    case ClinicId => p.clinicId
    case Severity => p.severity
    case DateReceived => p.dateReceived
    case DateSeen => p.dateSeen
  }

  function FieldOf(a: Attribute): DataPoint -> int
  {
    (p: DataPoint) => Field(p, a)
  }

  /** The filter condition `lambda data_point: predicate(data_point[attr_idx])`. */
  function Satisfies(a: Attribute, test: int -> bool): DataPoint -> bool
  {
    (p: DataPoint) => test(Field(p, a))
  }

  function AsTuple(p: DataPoint): seq<int>
  {
    [p.id, p.clinicId, p.severity, p.dateReceived, p.dateSeen]
  }

  /** `[DataPoint(*item) for item in data]`: a tuple of any other length raises `TypeError`. */
  function MakePoints(tuples: seq<seq<int>>): (r: Result<seq<DataPoint>>)
    ensures r.Ok? <==> forall i :: 0 <= i < |tuples| ==> |tuples[i]| == |Attrs|
    ensures r.Err? ==> r.error == ArityMismatch
    ensures r.Ok? ==> |r.value| == |tuples| && forall i :: 0 <= i < |tuples| ==> AsTuple(r.value[i]) == tuples[i]
  {
    if tuples == [] then Ok([])
    else
      var t := tuples[0];
      if |t| != |Attrs| then Err(ArityMismatch)
      else
        match MakePoints(tuples[1..])
        case Err(e) => Err(e)
        case Ok(rest) =>
          assert forall i :: 1 <= i < |tuples| ==> tuples[i] == tuples[1..][i - 1];
          Ok([DataPoint(t[0], t[1], t[2], t[3], t[4])] + rest)
  }

  /**
   * The constructor's effect on its argument: an empty list, or a first tuple that is not a
   * 5-tuple, raises `ValueError`; the other tuples are only checked by `DataPoint(*item)`.
   */
  function Construct(tuples: seq<seq<int>>): (r: Result<seq<DataPoint>>)
    ensures r.Ok? <==> |tuples| > 0 && forall i :: 0 <= i < |tuples| ==> |tuples[i]| == 5
    ensures r.Err? ==> r.error == if |tuples| == 0 || |tuples[0]| != 5 then InvalidData else ArityMismatch
    ensures r.Ok? ==> |r.value| == |tuples| && forall i :: 0 <= i < |tuples| ==> AsTuple(r.value[i]) == tuples[i]
  {
    if |tuples| == 0 || |tuples[0]| != |Attrs| then Err(InvalidData)
    else MakePoints(tuples)
  }

  /**
   * The store.  `data` is the sequence of records the store yields; `lazy` says that
   * `self.data` is a `filter` object rather than a list, so it has no length, cannot be
   * indexed, and yields its records only once.
   */
  class DataSet {
    var data: seq<DataPoint>
    var lazy: bool

    constructor FromPoints(points: seq<DataPoint>)
      ensures data == points && !lazy
    {
      data := points;
      lazy := false;
    }

    /** `DataSet(data)`: a new store holding a list, or the exception the constructor raises. */
    static method Create(tuples: seq<seq<int>>) returns (r: Result<DataSet>)
      ensures r.Ok? <==> Construct(tuples).Ok?
      ensures r.Err? ==> r.error == Construct(tuples).error
      ensures r.Ok? ==> fresh(r.value) && r.value.data == Construct(tuples).value && !r.value.lazy
    {
      var points := Construct(tuples);
      if points.Err? {
        return Err(points.error);
      }
      var ds := new DataSet.FromPoints(points.value);
      return Ok(ds);
    }

    /** `filter_on`: the store becomes a lazy filter over what it yielded before. */
    method FilterOn(attribute: string, test: int -> bool) returns (r: Result<DataSet>)
      modifies this
      ensures ParseAttribute(attribute).Err? ==>
        r == Err(NotInList) && data == old(data) && lazy == old(lazy)
      ensures ParseAttribute(attribute).Ok? ==>
        && r == Ok(this) && lazy
        && data == Filter(old(data), Satisfies(ParseAttribute(attribute).value, test))
    {
      var attr := ParseAttribute(attribute);
      if attr.Err? {
        return Err(attr.error);
      }
      data := Filter(data, Satisfies(attr.value, test));
      lazy := true;
      return Ok(this);
    }

    /** `order_by`: `sorted` drains whatever the store yields and leaves a list again. */
    method OrderBy(attribute: string, descending: bool) returns (r: Result<DataSet>)
      modifies this
      ensures ParseAttribute(attribute).Err? ==>
        r == Err(NotInList) && data == old(data) && lazy == old(lazy)
      ensures ParseAttribute(attribute).Ok? ==>
        && r == Ok(this) && !lazy
        && data == SortBy(old(data), FieldOf(ParseAttribute(attribute).value), descending)
    {
      var attr := ParseAttribute(attribute);
      if attr.Err? {
        return Err(attr.error);
      }
      data := SortBy(data, FieldOf(attr.value), descending);
      lazy := false;
      return Ok(this);
    }

    /**
     * `aggregate_on`: groups an ascending sorted copy of what the store yields; a lazy store
     * is exhausted by the copy and yields nothing afterwards.
     */
    method AggregateOn<K(==)>(attribute: string, key: int -> K) returns (r: Result<map<K, seq<DataPoint>>>)
      modifies this
      ensures lazy == old(lazy)
      ensures ParseAttribute(attribute).Err? ==> r == Err(NotInList) && data == old(data)
      ensures ParseAttribute(attribute).Ok? ==>
        var a := ParseAttribute(attribute).value;
        && r == Ok(Aggregate(SortBy(old(data), FieldOf(a), false), Compose(FieldOf(a), key)))
        && data == if old(lazy) then [] else old(data)
    {
      var attr := ParseAttribute(attribute);
      if attr.Err? {
        return Err(attr.error);
      }
      var sortedData := SortBy(data, FieldOf(attr.value), false);
      if lazy {
        data := [];
      }
      var aggregation := CollectGroups(sortedData, FieldOf(attr.value), key);
      return Ok(aggregation);
    }

    /** `len(dataset)`: a `filter` object has no length. */
    function Len(): (r: Result<nat>)
      reads this
      ensures r.Ok? <==> !lazy
      ensures r.Err? ==> r.error == NoLength
      ensures r.Ok? ==> r.value == |data|
    {
      if lazy then Err(NoLength) else Ok(|data|)
    }

    /** `dataset[index]`: a `filter` object cannot be indexed; a list takes negative indices. */
    function GetItem(index: int): (r: Result<DataPoint>)
      reads this
      ensures r.Ok? <==> !lazy && -|data| <= index < |data|
      ensures r.Err? ==> r.error == if lazy then NotSubscriptable else IndexOutOfRange
      ensures r.Ok? && index >= 0 ==> r.value == data[index]
      ensures r.Ok? && index < 0 ==> r.value == data[|data| + index]
    {
      if lazy then Err(NotSubscriptable)
      else if 0 <= index < |data| then Ok(data[index])
      else if -|data| <= index < 0 then Ok(data[|data| + index])
      else Err(IndexOutOfRange)
    }
  }

  /** The `point` argument of `split`: a Python `int` or `float`. */
  datatype Number = IntNum(i: int) | FloatNum(f: real)

  class MLDataSet {
    var inputs: seq<NdArray>
    var outputs: seq<NdArray>

    /** Stores the arrays as given. */
    constructor(inputs: seq<NdArray>, outputs: seq<NdArray>)
      ensures this.inputs == inputs && this.outputs == outputs
    {
      this.inputs := inputs;
      this.outputs := outputs;
    }

    /**
     * `split(point)`: the cut `len(inputs[0]) * point` is a float whenever `point` is, and
     * slicing with it raises `TypeError`; an integer point cuts every array at that product.
     */
    method Split(point: Number) returns (r: Result<(MLDataSet, MLDataSet)>)
      ensures r.Err? <==> inputs == [] || point.FloatNum?
      ensures r.Err? ==> r.error == if inputs == [] then IndexOutOfRange else NonIntegerSlice
      ensures r.Ok? ==>
        var idx := Length(inputs[0]) * point.i;
        var (s1, s2) := r.value;
        && fresh(s1) && fresh(s2)
        && s1.inputs == TakeAll(inputs, idx) && s1.outputs == TakeAll(outputs, idx)
        && s2.inputs == DropAll(inputs, idx) && s2.outputs == DropAll(outputs, idx)
    {
      if inputs == [] {
        return Err(IndexOutOfRange);
      }
      if point.FloatNum? {
        return Err(NonIntegerSlice);
      }
      var splitIdx := Length(inputs[0]) * point.i;
      var s1 := new MLDataSet(TakeAll(inputs, splitIdx), TakeAll(outputs, splitIdx));
      var s2 := new MLDataSet(DropAll(inputs, splitIdx), DropAll(outputs, splitIdx));
      return Ok((s1, s2));
    }
  }

  /** The two halves of an integer split are, array by array, the original cut in two, in order. */
  lemma SplitPartition(xs: seq<NdArray>, idx: int)
    ensures |TakeAll(xs, idx)| == |DropAll(xs, idx)| == |xs|
    ensures forall i :: 0 <= i < |xs| ==>
      TakeAll(xs, idx)[i].rows + DropAll(xs, idx)[i].rows == xs[i].rows
  {
    forall i | 0 <= i < |xs| ensures TakeAll(xs, idx)[i].rows + DropAll(xs, idx)[i].rows == xs[i].rows {
      TakeDropPartition(xs[i], idx);
    }
  }
}
