/**
 * The grouping pass of `aggregate_on`: one walk over a sorted copy that opens a new group
 * whenever a record's key differs from the key of the previous record, and writes each
 * finished group into a dictionary under the key of its first member.  A key whose records
 * are not adjacent is written more than once, and the last group wins.
 */
module Grouping {
  import opened Wrappers
  import opened Seqs

  /** The groups the pass builds, in the order it commits them. */
  function Runs<T, K(==)>(s: seq<T>, key: T -> K): (r: seq<seq<T>>)
    ensures forall i :: 0 <= i < |r| ==> |r[i]| > 0
    ensures |s| > 0 ==> |r| > 0
  {
    if s == [] then []
    else
      var init := s[..|s| - 1];
      var runs := Runs(init, key);
      var x := Last(s);
      if |init| > 0 && key(x) == key(Last(init)) then
        runs[..|runs| - 1] + [Last(runs) + [x]]
      else
        runs + [[x]]
  }

  /** Commits each group under the key of its first member; a later group replaces an earlier one. */
  function Commit<T, K(==)>(runs: seq<seq<T>>, key: T -> K): map<K, seq<T>>
    requires forall i :: 0 <= i < |runs| ==> |runs[i]| > 0
  {
    if runs == [] then map[]
    else Commit(runs[..|runs| - 1], key)[key(Last(runs)[0]) := Last(runs)]
  }

  /** The dictionary `aggregate_on` returns for an already sorted copy `s`. */
  function Aggregate<T, K(==)>(s: seq<T>, key: T -> K): map<K, seq<T>>
  {
    Commit(Runs(s, key), key)
  }

  /** The key classes of `s` are contiguous: two records with one key enclose only records with that key. */
  predicate Contiguous<T, K(==)>(s: seq<T>, key: T -> K)
  {
    forall i, j, l :: 0 <= i < j < l < |s| && key(s[i]) == key(s[l]) ==> key(s[j]) == key(s[i])
  }

  /** Every member of `g` has the key of its first member. */
  predicate OneKey<T, K(==)>(g: seq<T>, key: T -> K)
    requires |g| > 0
  {
    forall j :: 0 <= j < |g| ==> key(g[j]) == key(g[0])
  }

  /** Each group has one key, and neighbouring groups have different keys. */
  predicate Separated<T, K(==)>(r: seq<seq<T>>, key: T -> K)
  {
    && (forall i :: 0 <= i < |r| ==> |r[i]| > 0 && OneKey(r[i], key))
    && (forall i :: 0 <= i < |r| - 1 ==> key(Last(r[i])) != key(r[i + 1][0]))
  }

  lemma CommitSnoc<T, K>(runs: seq<seq<T>>, g: seq<T>, key: T -> K)
    requires forall i :: 0 <= i < |runs| ==> |runs[i]| > 0
    requires |g| > 0
    ensures Commit(runs + [g], key) == Commit(runs, key)[key(g[0]) := g]
  {
    assert (runs + [g])[..|runs|] == runs;
  }

  lemma JoinFlatten<T>(runs: seq<seq<T>>, x: T)
    requires |runs| > 0
    ensures Flatten(runs[..|runs| - 1] + [Last(runs) + [x]]) == Flatten(runs) + [x]
  {
    var init, g := runs[..|runs| - 1], Last(runs);
    FlattenSnoc(init, g + [x]);
    assert Flatten(runs) == Flatten(init) + g;
    assert Flatten(init) + (g + [x]) == (Flatten(init) + g) + [x];
  }

  /** Concatenating the groups in commit order gives back the sorted copy. */
  lemma {:induction false} RunsFlatten<T, K>(s: seq<T>, key: T -> K)
    ensures Flatten(Runs(s, key)) == s
  {
    if s != [] {
      var init, x := s[..|s| - 1], Last(s);
      RunsFlatten(init, key);
      assert s == init + [x];
      if |init| > 0 && key(x) == key(Last(init)) {
        JoinFlatten(Runs(init, key), x);
      } else {
        FlattenSnoc(Runs(init, key), [x]);
      }
    }
  }

  /** The last record is in the last group. */
  lemma RunsLast<T, K>(s: seq<T>, key: T -> K)
    requires |s| > 0
    ensures Last(Last(Runs(s, key))) == Last(s)
  {
    var r := Runs(s, key);
    RunsFlatten(s, key);
    FlattenSnoc(r[..|r| - 1], Last(r));
    assert r == r[..|r| - 1] + [Last(r)];
  }

  lemma SeparatedJoin<T, K>(runs: seq<seq<T>>, x: T, key: T -> K)
    requires Separated(runs, key) && |runs| > 0
    requires key(x) == key(Last(Last(runs)))
    ensures Separated(runs[..|runs| - 1] + [Last(runs) + [x]], key)
  {
    var g := Last(runs);
    var r := runs[..|runs| - 1] + [g + [x]];
    assert OneKey(g, key);
    assert forall i :: 0 <= i < |runs| - 1 ==> r[i] == runs[i];
    assert OneKey(g + [x], key);
  }

  lemma SeparatedNew<T, K>(runs: seq<seq<T>>, x: T, key: T -> K)
    requires Separated(runs, key)
    requires |runs| > 0 ==> key(x) != key(Last(Last(runs)))
    ensures Separated(runs + [[x]], key)
  {
    var r := runs + [[x]];
    assert forall i :: 0 <= i < |runs| ==> r[i] == runs[i];
    assert OneKey([x], key);
  }

  /** All members of a group share its key, and consecutive groups have different keys. */
  lemma {:induction false} RunsShape<T, K>(s: seq<T>, key: T -> K)
    ensures Separated(Runs(s, key), key)
  {
    if s != [] {
      var init, x := s[..|s| - 1], Last(s);
      RunsShape(init, key);
      if |init| > 0 {
        RunsLast(init, key);
      }
      if |init| > 0 && key(x) == key(Last(init)) {
        SeparatedJoin(Runs(init, key), x, key);
      } else {
        SeparatedNew(Runs(init, key), x, key);
      }
    }
  }

  lemma KeysJoin<T, K>(runs: seq<seq<T>>, x: T, key: T -> K)
    requires Separated(runs, key) && |runs| > 0
    requires key(x) == key(Last(Last(runs)))
    ensures Commit(runs[..|runs| - 1] + [Last(runs) + [x]], key).Keys == Commit(runs, key).Keys
  {
    var g := Last(runs);
    var prefix := runs[..|runs| - 1];
    CommitSnoc(prefix, g + [x], key);
    assert runs == prefix + [g];
    CommitSnoc(prefix, g, key);
    assert OneKey(g, key);
  }

  lemma KeySetSnoc<T, K>(s: seq<T>, init: seq<T>, key: T -> K)
    requires |s| > 0 && init == s[..|s| - 1]
    ensures (set i | 0 <= i < |s| :: key(s[i]))
         == (set i | 0 <= i < |init| :: key(init[i])) + {key(Last(s))}
  {
    assert forall i :: 0 <= i < |init| ==> s[i] == init[i];
  }

  /** Every key of `s` is in the dictionary, and nothing else is. */
  lemma {:induction false} AggregateKeys<T, K>(s: seq<T>, key: T -> K)
    ensures Aggregate(s, key).Keys == set i | 0 <= i < |s| :: key(s[i])
  {
    if s != [] {
      var init, x := s[..|s| - 1], Last(s);
      var runs := Runs(init, key);
      AggregateKeys(init, key);
      var before := set i | 0 <= i < |init| :: key(init[i]);
      KeySetSnoc(s, init, key);
      if |init| > 0 && key(x) == key(Last(init)) {
        RunsShape(init, key);
        RunsLast(init, key);
        KeysJoin(runs, x, key);
        assert key(Last(init)) in before by {
          assert Last(init) == init[|init| - 1];
        }
      } else {
        CommitSnoc(runs, [x], key);
      }
    }
  }

  /** What committing the extended open group does to a dictionary that was right for `init`. */
  lemma ContiguousJoin<T, K>(init: seq<T>, runs: seq<seq<T>>, x: T, key: T -> K, k: K)
    requires Separated(runs, key) && |runs| > 0 && |init| > 0
    requires Last(Last(runs)) == Last(init) && key(x) == key(Last(init))
    requires k in Commit(runs, key) && Commit(runs, key)[k] == Members(init, key, k)
    requires key(x) in Commit(runs, key) && Commit(runs, key)[key(x)] == Members(init, key, key(x))
    ensures var m := Commit(runs[..|runs| - 1] + [Last(runs) + [x]], key);
      k in m && m[k] == Members(init, key, k) + (if key(x) == k then [x] else [])
  {
    var g := Last(runs);
    var prefix := runs[..|runs| - 1];
    assert OneKey(g, key);
    CommitSnoc(prefix, g + [x], key);
    assert runs == prefix + [g];
    CommitSnoc(prefix, g, key);
  }

  /** What committing a new one-record group does to a dictionary that was right for `init`. */
  lemma ContiguousNew<T, K>(init: seq<T>, runs: seq<seq<T>>, x: T, key: T -> K, k: K)
    requires forall i :: 0 <= i < |runs| ==> |runs[i]| > 0
    requires Members(init, key, key(x)) == []
    requires k == key(x) || (k in Commit(runs, key) && Commit(runs, key)[k] == Members(init, key, k))
    ensures var m := Commit(runs + [[x]], key);
      k in m && m[k] == Members(init, key, k) + (if key(x) == k then [x] else [])
  {
    CommitSnoc(runs, [x], key);
  }

  lemma ContiguousInit<T, K>(s: seq<T>, key: T -> K)
    requires Contiguous(s, key) && |s| > 0
    ensures Contiguous(s[..|s| - 1], key)
  {
    assert forall i :: 0 <= i < |s| - 1 ==> s[..|s| - 1][i] == s[i];
  }

  /** With contiguous key classes, a record whose key differs from its predecessor's has a key not seen before. */
  lemma FreshKey<T, K>(s: seq<T>, key: T -> K)
    requires Contiguous(s, key) && |s| > 0
    requires |s| > 1 ==> key(Last(s)) != key(s[|s| - 2])
    ensures Members(s[..|s| - 1], key, key(Last(s))) == []
  {
    var init := s[..|s| - 1];
    forall j | 0 <= j < |init| ensures key(init[j]) != key(Last(s)) {
      var here, prev, last := s[j], s[|s| - 2], s[|s| - 1];
      assert init[j] == here;
      assert j < |s| - 2 && key(here) == key(last) ==> key(prev) == key(here);
    }
    MembersEmpty(init, key, key(Last(s)));
  }

  lemma HasMembers<T, K>(s: seq<T>, key: T -> K, i: nat)
    requires i < |s|
    ensures Members(s, key, key(s[i])) != []
  {
    MembersEmpty(s, key, key(s[i]));
  }

  /** With contiguous key classes, a key that occurs maps to exactly its records. */
  lemma {:induction false} AggregateKey<T, K>(s: seq<T>, key: T -> K, k: K)
    requires Contiguous(s, key)
    requires Members(s, key, k) != []
    ensures k in Aggregate(s, key) && Aggregate(s, key)[k] == Members(s, key, k)
  {
    var init, x := s[..|s| - 1], Last(s);
    var n := |init|;
    var runs := Runs(init, key);
    assert s == init + [x];
    MembersConcat(init, [x], key, k);
    assert Members([x], key, k) == (if key(x) == k then [x] else []) by {
      assert [x][1..] == [];
    }
    ContiguousInit(s, key);
    if n > 0 && key(x) == key(Last(init)) {
      RunsShape(init, key);
      RunsLast(init, key);
      HasMembers(init, key, n - 1);
      AggregateKey(init, key, key(x));
      if k != key(x) {
        AggregateKey(init, key, k);
      }
      ContiguousJoin(init, runs, x, key, k);
    } else {
      if n > 0 {
        assert s[|s| - 2] == Last(init);
      }
      FreshKey(s, key);
      if k != key(x) {
        AggregateKey(init, key, k);
      }
      ContiguousNew(init, runs, x, key, k);
    }
  }

  /**
   * When the key classes are contiguous, every key maps to exactly the records with that
   * key, in their order in `s`.
   */
  lemma AggregateContiguous<T, K>(s: seq<T>, key: T -> K)
    requires Contiguous(s, key)
    ensures forall i :: 0 <= i < |s| ==>
      key(s[i]) in Aggregate(s, key) && Aggregate(s, key)[key(s[i])] == Members(s, key, key(s[i]))
  {
    forall i | 0 <= i < |s|
      ensures key(s[i]) in Aggregate(s, key) && Aggregate(s, key)[key(s[i])] == Members(s, key, key(s[i]))
    {
      HasMembers(s, key, i);
      AggregateKey(s, key, key(s[i]));
    }
  }

  /** Records that all share key `k` form the single group `k`. */
  lemma AggregateSingleKey<T, K>(s: seq<T>, key: T -> K, k: K)
    requires s != [] && forall i :: 0 <= i < |s| ==> key(s[i]) == k
    ensures Aggregate(s, key) == map[k := s]
  {
    MembersAll(s, key, k);
    AggregateKey(s, key, k);
    AggregateKeys(s, key);
    assert key(s[0]) == k;
  }

  /** The grouping key of a record: `key` applied to its attribute. */
  function Compose<T, A, K>(field: T -> A, key: A -> K): T -> K
  {
    (x: T) => key(field(x))
  }

  /** How one more record changes the groups of a prefix. */
  lemma RunsExtend<T, K>(s: seq<T>, i: nat, key: T -> K)
    requires i < |s|
    ensures var runs := Runs(s[..i], key);
      var next := Runs(s[..i + 1], key);
      |next| > 0 &&
      if i > 0 && key(s[i]) == key(Last(Last(runs))) then
        Last(next) == Last(runs) + [s[i]] && next[..|next| - 1] == runs[..|runs| - 1]
      else
        Last(next) == [s[i]] && next[..|next| - 1] == runs
  {
    assert s[..i + 1][..i] == s[..i];
    var runs := Runs(s[..i], key);
    if i > 0 {
      RunsLast(s[..i], key);
      assert (runs[..|runs| - 1] + [Last(runs) + [s[i]]])[..|runs| - 1] == runs[..|runs| - 1];
    }
    assert (runs + [[s[i]]])[..|runs|] == runs;
  }

  /**
   * The state of the loop of `aggregate_on` after the first `i` records of `sorted`: the
   * finished groups are in `aggregation`, and `agg` holds the open group together with the
   * attribute of its first member.
   */
  ghost predicate LoopState<T, A, K>(sorted: seq<T>, i: nat, field: T -> A, key: A -> K,
                                    agg: Option<(A, seq<T>)>, aggregation: map<K, seq<T>>)
    requires i <= |sorted|
  {
    var ck := Compose(field, key);
    var runs := Runs(sorted[..i], ck);
    && (agg.Some? <==> |runs| > 0)
    && (agg.None? ==> aggregation == map[])
    && (agg.Some? ==>
          && agg.value.1 == Last(runs) && agg.value.0 == field(agg.value.1[0])
          && aggregation == Commit(runs[..|runs| - 1], ck))
  }

  /** A record with the key of the previous one joins the open group. */
  lemma JoinStep<T, A, K>(sorted: seq<T>, i: nat, field: T -> A, key: A -> K,
                          agg: Option<(A, seq<T>)>, aggregation: map<K, seq<T>>)
    requires i < |sorted| && LoopState(sorted, i, field, key, agg, aggregation)
    requires agg.Some? && |agg.value.1| > 0
    requires key(field(sorted[i])) == key(field(Last(agg.value.1)))
    ensures LoopState(sorted, i + 1, field, key, Some((agg.value.0, agg.value.1 + [sorted[i]])), aggregation)
  {
    RunsExtend(sorted, i, Compose(field, key));
  }

  /** A record with a new key closes the open group, if any, and opens its own. */
  lemma OpenStep<T, A, K>(sorted: seq<T>, i: nat, field: T -> A, key: A -> K,
                          agg: Option<(A, seq<T>)>, aggregation: map<K, seq<T>>)
    requires i < |sorted| && LoopState(sorted, i, field, key, agg, aggregation)
    requires agg.Some? ==> |agg.value.1| > 0 && key(field(sorted[i])) != key(field(Last(agg.value.1)))
    ensures var closed := if agg.Some? then aggregation[key(agg.value.0) := agg.value.1] else aggregation;
      LoopState(sorted, i + 1, field, key, Some((field(sorted[i]), [sorted[i]])), closed)
  {
    var ck := Compose(field, key);
    RunsExtend(sorted, i, ck);
    var runs := Runs(sorted[..i], ck);
    if agg.Some? {
      InitLast(runs);
      CommitSnoc(runs[..|runs| - 1], Last(runs), ck);
    }
  }

  /** After the last record, committing the open group gives the whole dictionary. */
  lemma FinishStep<T, A, K>(sorted: seq<T>, field: T -> A, key: A -> K,
                            agg: Option<(A, seq<T>)>, aggregation: map<K, seq<T>>)
    requires LoopState(sorted, |sorted|, field, key, agg, aggregation)
    ensures agg.Some? ==> |agg.value.1| > 0
    ensures var closed := if agg.Some? then aggregation[key(agg.value.0) := agg.value.1] else aggregation;
      closed == Aggregate(sorted, Compose(field, key))
  {
    var ck := Compose(field, key);
    assert sorted[..|sorted|] == sorted;
    var runs := Runs(sorted, ck);
    if agg.Some? {
      InitLast(runs);
      CommitSnoc(runs[..|runs| - 1], Last(runs), ck);
    }
  }

  /**
   * The loop of `aggregate_on` over the sorted copy: `agg` is the open group together with
   * the attribute of its first member, `field` reads the attribute and `key` maps it to the
   * dictionary key.
   */
  method CollectGroups<T, A, K(==)>(sorted: seq<T>, field: T -> A, key: A -> K)
    returns (aggregation: map<K, seq<T>>)
    ensures aggregation == Aggregate(sorted, Compose(field, key))
  {
    aggregation := map[];
    var agg: Option<(A, seq<T>)> := None;
    for i := 0 to |sorted|
      invariant LoopState(sorted, i, field, key, agg, aggregation)
      invariant agg.Some? ==> |agg.value.1| > 0
    {
      var dataPoint := sorted[i];
      if agg.Some? {
        var group := agg.value.1;
        if key(field(dataPoint)) == key(field(group[|group| - 1])) {
          JoinStep(sorted, i, field, key, agg, aggregation);
          agg := Some((agg.value.0, group + [dataPoint]));
          continue;
        } else {
          OpenStep(sorted, i, field, key, agg, aggregation);
          aggregation := aggregation[key(agg.value.0) := group];
        }
      } else {
        OpenStep(sorted, i, field, key, agg, aggregation);
      }
      agg := Some((field(dataPoint), [dataPoint]));
    }
    FinishStep(sorted, field, key, agg, aggregation);
    if agg.Some? {
      aggregation := aggregation[key(agg.value.0) := agg.value.1];
    }
  }
}
