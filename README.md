# Triage arrival pipeline: a Dafny model

This project models the part of Triage-ML-Training that turns date-stamped patient-arrival
records into training arrays for the arrival forecaster. The pipeline has three parts:

- **Record store (`DataSet`).** It holds a list of `DataPoint` records.
  - `filter_on` and `order_by` replace the list in place and return the store.
  - `aggregate_on` sorts a copy by one field. It then walks the copy once, opening a new group whenever the key changes. Each finished group is written to a dictionary under the key of its first member.
  - The store also supports `len` and indexing.
- **Window builder (`MLDataSet`).**
  - `_setup_seq` cuts each sequence input into sliding windows of `seq_size` rows.
  - Every other input and every output loses its first `seq_size` rows, so row `k` lines up with window `k`.
  - `split` cuts every array at `int(len(inputs[0]) * point)`.
- **Feature and target assembler (`RadiusVariance.create_ml_dataset`).**
  - It sorts the store by day received and groups it by the day's `YYYY-MM-DD` key.
  - It takes every day from `first + radius_days` to `last - radius_days`. For each such day it records three things:
    - the day's count;
    - a 43-slot encoding of the month and the day of the month;
    - the target: the count together with the population variance of the counts of the `2 * radius_days + 1` days centred on it.
  - The counts become the windowed sequence input.

Both revisions of the record store are modelled:

- **The current one** (`ml-training/`, module `Dataset`) has three fields.
- **The earlier one** (`triage_ml/`, module `LegacyDataset`) has these differences:
  - five fields;
  - its constructor refuses an empty list;
  - its `filter_on` leaves a one-shot `filter` object in place of the list;
  - its `MLDataSet` only stores its arrays, and cuts them at the product `len * point` without converting it to an integer.

**Modules.**

| module | models |
|---|---|
| `Wrappers` | Success/failure values and the Python exceptions the pipeline raises. |
| `Seqs` | `filter`, key classes, flattening. |
| `Lookup` | `list.index`. |
| `Sorting` | Python's stable `sorted`, as an insertion sort with permutation, order and stability proved. |
| `Grouping` | The grouping loop of `aggregate_on`, proved against a functional definition. |
| `Calendar` | Proleptic Gregorian day ordinals, as `date.toordinal`/`fromordinal` number them. |
| `NdArrays` | The leading axis of numpy arrays: slicing and sliding windows. |
| `Statistics` | Population variance. |
| `Dataset`, `LegacyDataset` | The two revisions of `dataset.py`. |
| `RadiusVarianceModel` | `radius_variance.py`. |
| `Scenarios` | The repository's test cases, restated as lemmas about the model. |

**How the Python is represented.**

- **Record fields** are `int`.
- **Dates** are day ordinals.
- **The dictionary key** `str(dr.date())` is the (year, month, day) triple `Calendar.FromOrdinal(d)`. Distinct days are proved to have distinct keys.
- **Variances** are exact `real`s.
- **Methods that change state** are class methods with `modifies` clauses. `filter_on` and `order_by` replace the `data` field.
- **Loops** in the source become loops in the model, with invariants. This covers:
  - the grouping pass;
  - `_setup_seq`;
  - `_date_range`;
  - the outer loop of `create_ml_dataset` over preallocated arrays;
  - its inner radius loop.
- **Each loop method** is proved equal to a specification function. The properties are proved about that function.

**Behaviour as written.** The model follows the code where the code differs from how the pipeline is described:

- Only the first tuple's arity is checked by the current constructor. A later tuple of the wrong length fails in `DataPoint(*item)` with a `TypeError`, not with the constructor's `ValueError`.
- With no windows, `_setup_seq` returns `np.array([])`, whose shape is `(0,)` and not `(0, seq_size, 1)`.
- The current `split` rebuilds each half through the constructor. That trims each half by `seq_size` rows once more, so the two halves do not partition the original rows.
- In the earlier revision, `aggregate_on` on a store that was filtered exhausts the `filter` object while sorting its copy. The store then yields nothing.
- The date encoding sets slot `month` and slot `11 + day`. On 1 December both are slot 12, so that day's encoding has a single one. `OneHotSlots` states this.

## Model

| member | source | states |
|---|---|---|
| Lookup.IndexOf | ml-training/triage_ml/data/dataset.py:41 | `list.index`: succeeds exactly when the name is in the list, at its first occurrence; otherwise `ValueError` |
| Dataset.ParseAttribute | ml-training/triage_ml/data/dataset.py:41 | an attribute name is accepted exactly when it is in `_ATTRS`, and then names the field at that position; any other name raises `ValueError` |
| Dataset.MakePoints | ml-training/triage_ml/data/dataset.py:29 | `DataPoint(*item)` for every tuple succeeds exactly when every tuple has 3 fields, keeping each tuple's fields in order; otherwise `TypeError` |
| Dataset.Construct | ml-training/triage_ml/data/dataset.py:26-29 | a non-empty list whose first tuple does not have 3 fields raises `ValueError`; every other list, the empty one included, goes on to build the records |
| Dataset.ConstructOutcome | ml-training/triage_ml/data/dataset.py:26-29 | construction succeeds exactly on lists of 3-tuples, empty or not, keeping length and order; otherwise `ValueError` when the first tuple is wrong and `TypeError` when a later one is |
| Dataset.DataSet.Create | ml-training/triage_ml/data/dataset.py:18-29 | `DataSet(data)` gives a fresh store holding the constructed records, or the constructor's exception |
| Dataset.DataSet.FilterOn | ml-training/triage_ml/data/dataset.py:41-43 | an unknown attribute raises and leaves the store alone; otherwise the store keeps exactly the records whose field passes the test, in order, and returns itself |
| Dataset.DataSet.OrderBy | ml-training/triage_ml/data/dataset.py:52-53 | an unknown attribute raises and leaves the store alone; otherwise the records become the stable sort on the field, ascending or descending, and the store returns itself |
| Dataset.DataSet.AggregateOn | ml-training/triage_ml/data/dataset.py:63-81 | an unknown attribute raises; otherwise the result is the grouping of an ascending sorted copy by `key` of the field, and the store is not modified |
| Dataset.SortedKeyClasses | ml-training/triage_ml/data/dataset.py:63-64 | for a key that separates values, sorting by the attribute makes each key class contiguous, and the class of `key(v)` is the records with value `v`, in store order |
| Dataset.AggregateByValue | ml-training/triage_ml/data/dataset.py:63-81 | for a key that separates values, the group of a value that occurs is exactly its records in store order, and a value that does not occur has no entry |
| Dataset.DataSet.Len | ml-training/triage_ml/data/dataset.py:100-101 | the number of records held |
| Dataset.DataSet.GetItem | ml-training/triage_ml/data/dataset.py:103-104 | indices `0 <= i < n` give record `i` and `-n <= i < 0` give record `n + i`; any other index raises `IndexError` |
| Dataset.MLDataSet.SetupSeq | ml-training/triage_ml/data/dataset.py:114-119 | the loop builds exactly the sliding windows `data[i - size:i]`, or the empty array when there are none |
| Dataset.MLDataSet.constructor | ml-training/triage_ml/data/dataset.py:109-112 | sequence inputs become their windows, and the other inputs and the outputs lose their first `seq_size` rows |
| Dataset.MLDataSet.Split | ml-training/triage_ml/data/dataset.py:121-132 | with no inputs, `inputs[0]` raises `IndexError`; otherwise each half is every array cut at `int(len(inputs[0]) * point)` and trimmed by `seq_size` again |
| Dataset.Trunc | ml-training/triage_ml/data/dataset.py:127 | `int(x)` truncates toward zero: the integer between 0 and `x` that lies within 1 of `x` |
| Dataset.SplitIndexBounds | ml-training/triage_ml/data/dataset.py:127 | for a point in `[0, 1]` the cut lies within the array |
| Dataset.SplitHalves | ml-training/triage_ml/data/dataset.py:127-132 | after the second trim, the halves keep exactly rows `[min(size, idx), idx)` and `[min(idx + size, n), n)`, of lengths `max(idx - size, 0)` and `max(n - idx - size, 0)` |
| Seqs.Filter | ml-training/triage_ml/data/dataset.py:42 | `list(filter(...))`: every element of the result is in the input and passes the test, every input element that passes is in the result, and the result is a sub-multiset of the input |
| Seqs.FilterConcat | ml-training/triage_ml/data/dataset.py:42 | filtering distributes over concatenation, so the survivors keep their relative order |
| Sorting.SortBy | ml-training/triage_ml/data/dataset.py:53 | the result is sorted on the key in the chosen direction and is a permutation of the input |
| Sorting.SortByStable | ml-training/triage_ml/data/dataset.py:53 | records with equal keys keep their relative order, in both directions |
| Sorting.SortBySorted | ml-training/triage_ml/data/dataset.py:64 | sorting a list that is already sorted leaves it unchanged |
| Sorting.SortedUnique | ml-training/triage_ml/data/dataset.py:53 | two sorted permutations of records with distinct keys are the same list |
| Sorting.DescendingIsReversed | ml-training/triage_ml/data/dataset.py:53 | with distinct keys, `reverse=True` gives the ascending result reversed |
| Grouping.CollectGroups | ml-training/triage_ml/data/dataset.py:66-81 | the grouping loop builds exactly the functional grouping of the sorted copy |
| Grouping.RunsFlatten | ml-training/triage_ml/data/dataset.py:68-79 | the groups, concatenated in commit order, give back the sorted copy |
| Grouping.RunsShape | ml-training/triage_ml/data/dataset.py:69-76 | every group is non-empty and has a single key, and neighbouring groups have different keys |
| Grouping.AggregateKeys | ml-training/triage_ml/data/dataset.py:66-81 | the dictionary's keys are exactly the keys of the records, so an empty store gives `{}` |
| Grouping.AggregateKey | ml-training/triage_ml/data/dataset.py:70-79 | when key classes are contiguous, a key that occurs maps to exactly its records, in order |
| Grouping.AggregateContiguous | ml-training/triage_ml/data/dataset.py:70-79 | when key classes are contiguous, every record's key maps to exactly the records with that key |
| Grouping.AggregateSingleKey | ml-training/triage_ml/data/dataset.py:66-81 | records that all share one key form the single group `{k: records}` |
| NdArrays.SliceBound | ml-training/triage_ml/data/dataset.py:128-131 | a Python slice bound: a bound in range is kept, one past the end is clamped, and a negative one counts from the end, clamped at 0 |
| NdArrays.TakeDropPartition | ml-training/triage_ml/data/dataset.py:128-131 | `x[:k]` followed by `x[k:]` is `x` for every `k`, and both keep the row shape |
| NdArrays.DropLength | ml-training/triage_ml/data/dataset.py:111-112 | `x[k:]` has `max(n - k, 0)` rows, and row `i` of it is row `k + i` of `x` |
| NdArrays.WindowsContent | ml-training/triage_ml/data/dataset.py:114-119 | there are `max(n - size, 0)` windows, window `k` is rows `k .. k + size - 1`, and no windows means `np.array([])` |
| NdArrays.WindowsShaped | ml-training/triage_ml/data/dataset.py:118 | `np.stack` of equally shaped rows gives an array of shape `(count, size, ...)` |
| NdArrays.WindowsSlide | ml-training/triage_ml/data/dataset.py:116-117 | consecutive windows overlap in all but one row, and the new row is `data[k + size]` |
| NdArrays.WindowsAligned | ml-training/triage_ml/data/dataset.py:111-112 | for equally long series there are as many windows as trimmed rows, window `k` holds rows `k .. k + size - 1` of the sequence input, and trimmed row `k` is row `k + size` |
| Calendar.OrdinalRoundTrip | ml-training/triage_ml/models/radius_variance.py:72 | `fromordinal` followed by `toordinal` is the identity |
| Calendar.DateRoundTrip | ml-training/triage_ml/models/radius_variance.py:72 | `toordinal` followed by `fromordinal` gives back every valid date |
| Calendar.OrdinalInjective | ml-training/triage_ml/models/radius_variance.py:62 | distinct valid dates have distinct ordinals |
| Calendar.KeyInjective | ml-training/triage_ml/models/radius_variance.py:62 | distinct days have distinct `YYYY-MM-DD` keys |
| Statistics.VarianceNonNegative | ml-training/triage_ml/models/radius_variance.py:79 | `np.var` is never negative |
| Statistics.VarianceZero | ml-training/triage_ml/models/radius_variance.py:79 | `np.var` is 0 exactly when all values are equal |
| Statistics.VarianceExamples | ml-training/triage_ml/models/radius_variance.py:79 | the divisor is the number of values: `var([0, 2]) == 1` |
| RadiusVarianceModel.RadiusVariance.constructor | ml-training/triage_ml/models/radius_variance.py:23-31 | the assembler keeps `seq_size` and `radius_days` |
| RadiusVarianceModel.RadiusVariance.DateRange | ml-training/triage_ml/models/radius_variance.py:109-111 | `_date_range` gives `max - min + 1` consecutive days from `min`, or none when `max < min` |
| RadiusVarianceModel.RadiusVariance.SortedBounds | ml-training/triage_ml/models/radius_variance.py:56-60 | sorts the caller's store by day received, and the bounds are the first record's day plus the radius and the last record's day minus it |
| RadiusVarianceModel.RadiusVariance.PrepareStore | ml-training/triage_ml/models/radius_variance.py:56-64 | for a non-empty store, the days listed are the eligible days and the aggregation is the daily grouping of the original records |
| RadiusVarianceModel.RadiusVariance.PrepareDays | ml-training/triage_ml/models/radius_variance.py:55-66 | as `PrepareStore`, and an empty store gives no days |
| RadiusVarianceModel.RadiusVariance.RadiusCounts | ml-training/triage_ml/models/radius_variance.py:75-78 | the inner loop collects the counts of days `date - r .. date + r`, with 0 for a missing key |
| RadiusVarianceModel.RadiusVariance.EncodeDate | ml-training/triage_ml/models/radius_variance.py:81-83 | the 43-slot array with slot `month` and slot `11 + day` set |
| RadiusVarianceModel.RadiusVariance.DayRows | ml-training/triage_ml/models/radius_variance.py:72-87 | one pass of the loop body gives the day's count row, encoding and target row |
| RadiusVarianceModel.RadiusVariance.FillRows | ml-training/triage_ml/models/radius_variance.py:68-87 | the preallocated arrays end up holding, row by row, the count, the encoding and the target of each listed day |
| RadiusVarianceModel.RadiusVariance.CreateMlDataset | ml-training/triage_ml/models/radius_variance.py:49-89 | sorts the caller's store by day; the inputs are the windows of the eligible days' counts and the trimmed encodings, and the output is the trimmed target rows |
| RadiusVarianceModel.RangeOfSorted | ml-training/triage_ml/models/radius_variance.py:59-64 | the days listed from the ends of the sorted store are exactly the eligible days of the original records |
| RadiusVarianceModel.SortedEnds | ml-training/triage_ml/models/radius_variance.py:56-58 | after sorting, the first record has the earliest day received and the last one the latest |
| RadiusVarianceModel.EligibleCount | ml-training/triage_ml/models/radius_variance.py:59-64 | there are `last - first - 2r + 1` eligible days, or none when that is not positive; they are consecutive from `first + r` and each is at least `r` days inside the span |
| RadiusVarianceModel.CountIsArrivals | ml-training/triage_ml/models/radius_variance.py:72-73 | the count looked up for a day is the number of records received that day, and 0 for a day without records |
| RadiusVarianceModel.RadiusArrivals | ml-training/triage_ml/models/radius_variance.py:75-78 | `radius_vals` has `2r + 1` entries, and entry `j` is the number of arrivals on day `date - r + j` |
| RadiusVarianceModel.TargetFacts | ml-training/triage_ml/models/radius_variance.py:79-87 | every target row is `[count, variance]`, with the same count as the input row and a variance that is non-negative and 0 exactly when the radius counts are all equal |
| RadiusVarianceModel.OneHotSlots | ml-training/triage_ml/models/radius_variance.py:81-83 | 43 slots, slot 0 never set, a slot is 1 exactly when it is `month` (1..12) or `11 + day` (12..42), every slot is 0 or 1, and there are two ones except on 1 December |
| RadiusVarianceModel.NextDayAlignment | ml-training/triage_ml/models/radius_variance.py:85-89 | there are as many windows as targets; window `k` holds the counts of eligible days `k .. k + size - 1`, and its target is the row of day `k + size` |
| RadiusVarianceModel.WindowArrivals | ml-training/triage_ml/models/radius_variance.py:85-89 | part `t` of window `k` is the number of arrivals on eligible day `k + t` |
| RadiusVarianceModel.NoDays | ml-training/triage_ml/models/radius_variance.py:65-69 | with no days, the sequence input is `np.array([])`, and the other arrays have shapes `(0, 43)` and `(0, 2)` |
| LegacyDataset.ParseAttribute | triage_ml/data/dataset.py:43 | a name is accepted exactly when it is in the five-name `_ATTRS`, and names the field at that position; otherwise `ValueError` |
| LegacyDataset.MakePoints | triage_ml/data/dataset.py:31 | building succeeds exactly when every tuple has 5 fields, keeping each tuple in order; otherwise `TypeError` |
| LegacyDataset.Construct | triage_ml/data/dataset.py:28-31 | succeeds exactly on non-empty lists of 5-tuples; an empty list or a bad first tuple raises `ValueError`, and a bad later tuple raises `TypeError` |
| LegacyDataset.DataSet.Create | triage_ml/data/dataset.py:20-31 | a fresh store holding the records as a list, or the constructor's exception |
| LegacyDataset.DataSet.FilterOn | triage_ml/data/dataset.py:43-45 | an unknown attribute raises and changes nothing; otherwise the store yields exactly the records that pass, in order, but as a lazy `filter` object |
| LegacyDataset.DataSet.OrderBy | triage_ml/data/dataset.py:54-55 | an unknown attribute raises and changes nothing; otherwise the records become the stable sort and are a list again |
| LegacyDataset.DataSet.AggregateOn | triage_ml/data/dataset.py:65-83 | the grouping of an ascending sorted copy; a lazy store is exhausted by the copy and yields no records afterwards |
| LegacyDataset.DataSet.Len | triage_ml/data/dataset.py:85-86 | the number of records for a list; `TypeError` for a lazy store |
| LegacyDataset.DataSet.GetItem | triage_ml/data/dataset.py:88-89 | Python indexing, negative indices included, for a list; `TypeError` for a lazy store and `IndexError` out of range |
| LegacyDataset.MLDataSet.constructor | triage_ml/data/dataset.py:94-96 | stores the arrays as given |
| LegacyDataset.MLDataSet.Split | triage_ml/data/dataset.py:98-109 | a float point makes the cut a float and slicing raises `TypeError`; an integer point cuts every array at `len * point` |
| LegacyDataset.SplitPartition | triage_ml/data/dataset.py:104-109 | the two halves of every array, concatenated, give back the array, in order and without overlap |
| Scenarios.OrderByDescendingExample | ml-training/tests/data/test_dataset.py:36-42 | ordering clinics 0..4 descending gives 4, 3, 2, 1, 0 |
| Scenarios.AggregateOneClinicExample | ml-training/tests/data/test_dataset.py:45-52 | grouping five records of clinic 1 gives `{1: data}` in the original order |
| Scenarios.SampleGroup | ml-training/tests/data/test_dataset.py:55-65 | for any store with the test's span and daily arrivals, each January day's count is that day's arrivals, and a day with arrivals has a group of that size |
| Scenarios.DailyGroupsExample | ml-training/tests/data/test_dataset.py:55-65 | the sample store's groups for 1, 3, 4, 5, 7 and 11 January have 1, 2, 1, 1, 4 and 2 records |
| Scenarios.SampleWindows | ml-training/tests/models/test_radius_variance.py:74-78 | for any store like the sample, sequence size 2 and radius 3 give the windows `[[1],[1]], [[1],[0]], [[0],[4]]` |
| Scenarios.SequenceInputExample | ml-training/tests/models/test_radius_variance.py:74-78 | the same windows for the sample store itself |
| Scenarios.EmptyStoreExample | ml-training/tests/models/test_radius_variance.py:81-88 | an empty store with sequence size 3 and radius 2 gives `np.array([])`, `(0, 43)` and `(0, 2)` |
| Scenarios.WindowCountExamples | ml-training/tests/models/test_radius_variance.py:91-104 | the sample store gives 8 windows for sequence size 1 and radius 1, and 2 for size 3 and radius 3 |
| Scenarios.OneEachDay | ml-training/triage_ml/models/radius_variance.py:59-79 | a store spanning three days with one arrival on each has, for radius 1, only the middle day, with count 1, radius values `[1, 1, 1]` and variance 0 |
| Scenarios.ThreeDaysExample | ml-training/triage_ml/models/radius_variance.py:55-87 | one arrival on each of 1 to 3 January and radius 1 give the one example 2 January, with count row `[1]` and target `[1, 0]` |

## Left out

- **Keras.** `_init_model`, `get_model`, `predict` and all Keras and TensorFlow calls are not modelled. They are calls into a library the model cannot see.
- **File I/O.** `DataSet.write_to_file` and the test fixtures' reading of `tests/test_data.txt` are not modelled.
- **Outside the core.** The HTTP client `triage_api.py`, the database client `database.py`, the generator `gen_data.py`, the plots `visualizations.py`, the benchmark `stress_test.py`, the training scripts and both `setup.py` files are not part of this model.
- **Stubs.** The earlier `triage_ml/models/radius_variance.py` and the `triage_ml/data/Dataset.py` stub are not part of this model. Both `prediction_model.py` files are abstract.
- **Number types.**
  - Record fields are integers. The tests that store strings such as `('a', 'b', 'c')` are not restated.
  - `np.var` and the float arrays are exact reals. `int(len * point)` is exact truncation of a real product.
  - IEEE rounding is not modelled.
- **Dates.**
  - Dates are day ordinals, so time-of-day, timezones and `datetime` overflow are not modelled.
  - The `YYYY-MM-DD` string is represented by the date triple it spells.
- **Parameters.**
  - `seq_size` and `radius_days` are natural numbers. Python's behaviour for negative values is not modelled.
  - Default arguments (`descending=False`, `point=0.5`, `seq_size=30`, `radius_days=15`) are not modelled; callers pass them explicitly.
- **Dictionaries.** Insertion order is not modelled. Dictionaries are maps.
- **Earlier test data.** The earlier revision's tests are not restated: its `aggregate_on` test uses the built-in `id` as key, and its date test looks up `None` keys.
- **Scenarios.DailyGroupsExample.** The sample store is built from the days and counts the tests assert, not from the file, which is not part of this model.
- **Scenarios.SampleGroup.** This lemma does not state that a day without arrivals has no group. `Dataset.AggregateByValue` states that for every store.
- **RadiusVarianceModel.RadiusVariance.CreateMlDataset.** The source's single method is written here as the helpers `SortedBounds`, `PrepareStore`, `PrepareDays`, `FillRows`, `DayRows`, `RadiusCounts`, `EncodeDate` and `DateRange`. Each keeps the corresponding lines of the source.
