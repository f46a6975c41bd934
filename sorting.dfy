/**
 * Python's `sorted(s, key=key, reverse=descending)` on integer keys: a stable sort.
 * It is modelled as an insertion sort that places each element after every element
 * that does not have to follow it, so elements with equal keys keep their order
 * (Python guarantees stability for `reverse=True` as well).
 */
module Sorting {
  import opened Seqs

  /** A key `a` may stand before a key `b` in the requested direction. */
  predicate InOrder(a: int, b: int, descending: bool)
  {
    if descending then a >= b else a <= b
  }

  predicate SortedOn<T>(s: seq<T>, key: T -> int, descending: bool)
  {
    forall i, j :: 0 <= i < j < |s| ==> InOrder(key(s[i]), key(s[j]), descending)
  }

  /** No two positions share a key. */
  predicate UniqueKeys<T>(s: seq<T>, key: T -> int)
  {
    forall i, j :: 0 <= i < j < |s| ==> key(s[i]) != key(s[j])
  }

  /** Inserts `x` into a sorted sequence, after every element it need not precede. */
  function Insert<T>(s: seq<T>, x: T, key: T -> int, descending: bool): (r: seq<T>)
    requires SortedOn(s, key, descending)
    ensures SortedOn(r, key, descending)
    ensures multiset(r) == multiset(s) + multiset{x}
    ensures |r| == |s| + 1
  {
    if s == [] then [x]
    else if !InOrder(key(s[0]), key(x), descending) then
      InsertFront(s, x, key, descending);
      [x] + s
    else
      assert s == [s[0]] + s[1..];
      var rest := Insert(s[1..], x, key, descending);
      ConsSorted(s[0], rest, s[1..], x, key, descending);
      [s[0]] + rest
  }

  lemma InsertFront<T>(s: seq<T>, x: T, key: T -> int, descending: bool)
    requires SortedOn(s, key, descending)
    requires s != [] && !InOrder(key(s[0]), key(x), descending)
    ensures SortedOn([x] + s, key, descending)
  {
    var r := [x] + s;
    forall i, j | 0 <= i < j < |r| ensures InOrder(key(r[i]), key(r[j]), descending) {
      if i == 0 {
        assert r[j] == s[j - 1];
        assert j - 1 == 0 || InOrder(key(s[0]), key(s[j - 1]), descending);
      } else {
        assert r[i] == s[i - 1] && r[j] == s[j - 1];
      }
    }
  }

  lemma ConsSorted<T>(y: T, rest: seq<T>, tail: seq<T>, x: T, key: T -> int, descending: bool)
    requires SortedOn(rest, key, descending)
    requires multiset(rest) == multiset(tail) + multiset{x}
    requires forall i :: 0 <= i < |tail| ==> InOrder(key(y), key(tail[i]), descending)
    requires InOrder(key(y), key(x), descending)
    ensures SortedOn([y] + rest, key, descending)
  {
    var r := [y] + rest;
    forall i, j | 0 <= i < j < |r| ensures InOrder(key(r[i]), key(r[j]), descending) {
      if i == 0 {
        var e := rest[j - 1];
        assert e in multiset(rest);
        if e != x {
          assert e in multiset(tail);
          var k :| 0 <= k < |tail| && tail[k] == e;
        }
      } else {
        assert r[i] == rest[i - 1] && r[j] == rest[j - 1];
      }
    }
  }

  /** The stable sort of `s` by `key`. */
  function SortBy<T>(s: seq<T>, key: T -> int, descending: bool): (r: seq<T>)
    ensures SortedOn(r, key, descending)
    ensures multiset(r) == multiset(s)
    ensures |r| == |s|
  {
    if s == [] then []
    else
      assert s == s[..|s| - 1] + [Last(s)];
      Insert(SortBy(s[..|s| - 1], key, descending), Last(s), key, descending)
  }

  function Reverse<T>(s: seq<T>): (r: seq<T>)
  {
    if s == [] then [] else [Last(s)] + Reverse(s[..|s| - 1])
  }

  lemma {:induction false} ReverseFacts<T>(s: seq<T>)
    ensures |Reverse(s)| == |s|
    ensures forall i :: 0 <= i < |s| ==> Reverse(s)[i] == s[|s| - 1 - i]
    ensures multiset(Reverse(s)) == multiset(s)
  {
    if s != [] {
      ReverseFacts(s[..|s| - 1]);
      assert s == s[..|s| - 1] + [Last(s)];
    }
  }

  /** Inserting an element that may follow everything appends it. */
  lemma {:induction false} InsertLast<T>(s: seq<T>, x: T, key: T -> int, descending: bool)
    requires SortedOn(s, key, descending)
    requires forall i :: 0 <= i < |s| ==> InOrder(key(s[i]), key(x), descending)
    ensures Insert(s, x, key, descending) == s + [x]
  {
    if s != [] {
      InsertPastHead(s, x, key, descending);
      InsertLast(s[1..], x, key, descending);
      ConsSnoc(s, x);
    }
  }

  lemma ConsSnoc<T>(s: seq<T>, x: T)
    requires s != []
    ensures [s[0]] + (s[1..] + [x]) == s + [x]
  {
    assert [s[0]] + s[1..] == s;
  }

  /** An element that may follow the head is inserted into the tail. */
  lemma InsertPastHead<T>(s: seq<T>, x: T, key: T -> int, descending: bool)
    requires SortedOn(s, key, descending)
    requires s != [] && InOrder(key(s[0]), key(x), descending)
    ensures SortedOn(s[1..], key, descending)
    ensures Insert(s, x, key, descending) == [s[0]] + Insert(s[1..], x, key, descending)
    ensures forall i :: 0 <= i < |s[1..]| ==> s[1..][i] == s[i + 1]
  {
    SortedTail(s, key, descending);
  }

  /** Sorting a sequence that is already sorted leaves it as it is. */
  lemma {:induction false} SortBySorted<T>(s: seq<T>, key: T -> int, descending: bool)
    requires SortedOn(s, key, descending)
    ensures SortBy(s, key, descending) == s
  {
    if s != [] {
      var init := s[..|s| - 1];
      SortBySorted(init, key, descending);
      InsertLast(init, Last(s), key, descending);
      InitLast(s);
    }
  }

  /** Inserting `x` adds it behind the elements that share its key. */
  lemma {:induction false} InsertMembers<T>(s: seq<T>, x: T, key: T -> int, descending: bool, k: int)
    requires SortedOn(s, key, descending)
    ensures Members(Insert(s, x, key, descending), key, k)
         == Members(s, key, k) + (if key(x) == k then [x] else [])
  {
    var tail := if key(x) == k then [x] else [];
    if s == [] {
    } else if !InOrder(key(s[0]), key(x), descending) {
      assert Insert(s, x, key, descending) == [x] + s;
      FrontMembers(s, x, key, descending, k);
    } else {
      SortedTail(s, key, descending);
      InsertMembers(s[1..], x, key, descending, k);
      ConsMembers(s, Insert(s[1..], x, key, descending), tail, key, k);
    }
  }

  lemma ConsMembers<T>(s: seq<T>, rest: seq<T>, tail: seq<T>, key: T -> int, k: int)
    requires s != []
    requires Members(rest, key, k) == Members(s[1..], key, k) + tail
    ensures Members([s[0]] + rest, key, k) == Members(s, key, k) + tail
  {
    var r := [s[0]] + rest;
    assert r[0] == s[0] && r[1..] == rest;
    var h := if key(s[0]) == k then [s[0]] else [];
    calc {
      Members(r, key, k);
      h + Members(rest, key, k);
      h + (Members(s[1..], key, k) + tail);
      (h + Members(s[1..], key, k)) + tail;
      Members(s, key, k) + tail;
    }
  }

  lemma FrontMembers<T>(s: seq<T>, x: T, key: T -> int, descending: bool, k: int)
    requires SortedOn(s, key, descending)
    requires s != [] && !InOrder(key(s[0]), key(x), descending)
    ensures Members([x] + s, key, k) == Members(s, key, k) + (if key(x) == k then [x] else [])
  {
    var r := [x] + s;
    assert r[0] == x && r[1..] == s;
    if key(x) == k {
      forall i | 0 <= i < |s| ensures key(s[i]) != k {
        assert i == 0 || InOrder(key(s[0]), key(s[i]), descending);
      }
      MembersEmpty(s, key, k);
    }
  }

  /** Stability: sorting keeps the relative order of the elements of every key class. */
  lemma {:induction false} SortByStable<T>(s: seq<T>, key: T -> int, descending: bool, k: int)
    ensures Members(SortBy(s, key, descending), key, k) == Members(s, key, k)
  {
    if s != [] {
      var init, x := s[..|s| - 1], Last(s);
      var sortedInit := SortBy(init, key, descending);
      var tail := if key(x) == k then [x] else [];
      assert SortBy(s, key, descending) == Insert(sortedInit, x, key, descending);
      SortByStable(init, key, descending, k);
      InsertMembers(sortedInit, x, key, descending, k);
      InitLast(s);
      MembersConcat(init, [x], key, k);
      MembersSingle(x, key, k);
      calc {
        Members(Insert(sortedInit, x, key, descending), key, k);
        Members(sortedInit, key, k) + tail;
        Members(init, key, k) + tail;
        Members(init + [x], key, k);
      }
    }
  }

  lemma MembersSingle<T>(x: T, key: T -> int, k: int)
    ensures Members([x], key, k) == if key(x) == k then [x] else []
  {
    assert [x][1..] == [];
  }

  /** A sorted sequence equals a strictly sorted one with the same elements. */
  lemma {:induction false} SortedUnique<T>(a: seq<T>, b: seq<T>, key: T -> int, descending: bool)
    requires SortedOn(a, key, descending)
    requires SortedOn(b, key, descending) && UniqueKeys(b, key)
    requires multiset(a) == multiset(b)
    ensures a == b
  {
    if a == [] {
      assert |b| == |multiset(b)| == 0;
    } else {
      HeadsEqual(a, b, key, descending);
      TailsAgree(a, b, key, descending);
      SortedUnique(a[1..], b[1..], key, descending);
      assert a == [a[0]] + a[1..] && b == [b[0]] + b[1..];
    }
  }

  lemma HeadsEqual<T>(a: seq<T>, b: seq<T>, key: T -> int, descending: bool)
    requires SortedOn(a, key, descending)
    requires SortedOn(b, key, descending) && UniqueKeys(b, key)
    requires multiset(a) == multiset(b) && a != []
    ensures b != [] && a[0] == b[0]
  {
    assert |b| == |multiset(b)| == |multiset(a)| == |a|;
    assert a[0] in multiset(b) && b[0] in multiset(a);
    var j :| 0 <= j < |b| && b[j] == a[0];
    var i :| 0 <= i < |a| && a[i] == b[0];
    assert i == 0 || InOrder(key(a[0]), key(a[i]), descending);
    assert j == 0 || (InOrder(key(b[0]), key(b[j]), descending) && key(b[0]) != key(b[j]));
  }

  lemma TailsAgree<T>(a: seq<T>, b: seq<T>, key: T -> int, descending: bool)
    requires SortedOn(a, key, descending)
    requires SortedOn(b, key, descending) && UniqueKeys(b, key)
    requires multiset(a) == multiset(b) && a != [] && b != [] && a[0] == b[0]
    ensures SortedOn(a[1..], key, descending)
    ensures SortedOn(b[1..], key, descending) && UniqueKeys(b[1..], key)
    ensures multiset(a[1..]) == multiset(b[1..])
  {
    SortedTail(a, key, descending);
    SortedTail(b, key, descending);
    MultisetTail(a);
    MultisetTail(b);
  }

  lemma SortedTail<T>(a: seq<T>, key: T -> int, descending: bool)
    requires SortedOn(a, key, descending) && a != []
    ensures SortedOn(a[1..], key, descending)
    ensures UniqueKeys(a, key) ==> UniqueKeys(a[1..], key)
  {
    assert forall i :: 0 <= i < |a| - 1 ==> a[1..][i] == a[i + 1];
  }

  lemma MultisetTail<T>(a: seq<T>)
    requires a != []
    ensures multiset(a[1..]) == multiset(a) - multiset{a[0]}
  {
    assert a == [a[0]] + a[1..];
  }

  /** Two positions with one key make that key class at least two long. */
  lemma {:induction false} MembersTwo<T>(s: seq<T>, key: T -> int, i: nat, j: nat)
    requires i < j < |s| && key(s[i]) == key(s[j])
    ensures |Members(s, key, key(s[i]))| >= 2
  {
    var k := key(s[i]);
    if i == 0 {
      assert s[1..][j - 1] == s[j];
      MembersEmpty(s[1..], key, k);
    } else {
      MembersTwo(s[1..], key, i - 1, j - 1);
    }
  }

  lemma {:induction false} UniqueKeysMembers<T>(s: seq<T>, key: T -> int, k: int)
    requires UniqueKeys(s, key)
    ensures |Members(s, key, k)| <= 1
  {
    if s != [] {
      UniqueKeysMembers(s[1..], key, k);
      if key(s[0]) == k {
        assert forall i :: 0 <= i < |s[1..]| ==> s[1..][i] == s[i + 1];
        MembersEmpty(s[1..], key, k);
      }
    }
  }

  /** Sorting keeps keys unique. */
  lemma SortByUniqueKeys<T>(s: seq<T>, key: T -> int, descending: bool)
    requires UniqueKeys(s, key)
    ensures UniqueKeys(SortBy(s, key, descending), key)
  {
    var r := SortBy(s, key, descending);
    forall i, j | 0 <= i < j < |r| ensures key(r[i]) != key(r[j]) {
      if key(r[i]) == key(r[j]) {
        MembersTwo(r, key, i, j);
        SortByStable(s, key, descending, key(r[i]));
        UniqueKeysMembers(s, key, key(r[i]));
      }
    }
  }

  /** With unique keys, the descending sort is the ascending sort reversed. */
  lemma DescendingIsReversed<T>(s: seq<T>, key: T -> int)
    requires UniqueKeys(s, key)
    ensures SortBy(s, key, true) == Reverse(SortBy(s, key, false))
  {
    var up := SortBy(s, key, false);
    var rev := Reverse(up);
    ReverseFacts(up);
    SortByUniqueKeys(s, key, false);
    assert SortedOn(rev, key, true) && UniqueKeys(rev, key) by {
      forall i, j | 0 <= i < j < |rev| ensures InOrder(key(rev[i]), key(rev[j]), true) && key(rev[i]) != key(rev[j]) {
        assert rev[i] == up[|up| - 1 - i] && rev[j] == up[|up| - 1 - j];
      }
    }
    SortedUnique(SortBy(s, key, true), rev, key, true);
  }
}
