/** Sequence helpers shared by the record store: filtering, key classes and flattening. */
module Seqs {

  function Last<T>(s: seq<T>): T
    requires |s| > 0
  {
    s[|s| - 1]
  }

  lemma InitLast<T>(s: seq<T>)
    requires |s| > 0
    ensures s == s[..|s| - 1] + [Last(s)]
  {
  }

  /** Python's `list(filter(f, s))`: the elements of `s` that satisfy `f`, in order. */
  function Filter<T>(s: seq<T>, f: T -> bool): (r: seq<T>)
    ensures |r| <= |s|
    ensures forall i :: 0 <= i < |r| ==> r[i] in s && f(r[i])
    ensures forall i :: 0 <= i < |s| && f(s[i]) ==> s[i] in r
    ensures multiset(r) <= multiset(s)
  {
    if s == [] then []
    else
      assert s == [s[0]] + s[1..];
      (if f(s[0]) then [s[0]] else []) + Filter(s[1..], f)
  }

  /** The elements of `s` whose key is `k`, in order. */
  function Members<T, K(==)>(s: seq<T>, key: T -> K, k: K): (r: seq<T>)
    ensures |r| <= |s|
  {
    if s == [] then []
    else (if key(s[0]) == k then [s[0]] else []) + Members(s[1..], key, k)
  }

  /** A key class is empty exactly when no element has that key. */
  lemma {:induction false} MembersEmpty<T, K>(s: seq<T>, key: T -> K, k: K)
    ensures Members(s, key, k) == [] <==> forall i :: 0 <= i < |s| ==> key(s[i]) != k
  {
    if s != [] {
      MembersEmpty(s[1..], key, k);
      assert forall i :: 1 <= i < |s| ==> s[i] == s[1..][i - 1];
    }
  }

  /** When every element has key `k`, the key class of `k` is the whole sequence. */
  lemma {:induction false} MembersAll<T, K>(s: seq<T>, key: T -> K, k: K)
    requires forall i :: 0 <= i < |s| ==> key(s[i]) == k
    ensures Members(s, key, k) == s
  {
    if s != [] {
      assert forall i :: 0 <= i < |s| - 1 ==> s[1..][i] == s[i + 1];
      MembersAll(s[1..], key, k);
      assert s == [s[0]] + s[1..];
    }
  }

  /** Two key tests that pick out the same positions pick out the same members. */
  lemma {:induction false} MembersSameClass<T, K, L>(s: seq<T>, key1: T -> K, k1: K, key2: T -> L, k2: L)
    requires forall i :: 0 <= i < |s| ==> (key1(s[i]) == k1 <==> key2(s[i]) == k2)
    ensures Members(s, key1, k1) == Members(s, key2, k2)
  {
    if s != [] {
      assert forall i :: 0 <= i < |s| - 1 ==> s[1..][i] == s[i + 1];
      MembersSameClass(s[1..], key1, k1, key2, k2);
    }
  }

  /** The concatenation of a sequence of sequences. */
  function Flatten<T>(ss: seq<seq<T>>): seq<T>
  {
    if ss == [] then [] else Flatten(ss[..|ss| - 1]) + Last(ss)
  }

  lemma {:induction false} FilterConcat<T>(a: seq<T>, b: seq<T>, f: T -> bool)
    ensures Filter(a + b, f) == Filter(a, f) + Filter(b, f)
  {
    if a == [] {
      assert a + b == b;
    } else {
      assert (a + b)[1..] == a[1..] + b;
      FilterConcat(a[1..], b, f);
    }
  }

  lemma {:induction false} MembersConcat<T, K>(a: seq<T>, b: seq<T>, key: T -> K, k: K)
    ensures Members(a + b, key, k) == Members(a, key, k) + Members(b, key, k)
  {
    if a == [] {
      assert a + b == b;
    } else {
      var ab := a + b;
      assert ab[0] == a[0] && ab[1..] == a[1..] + b;
      MembersConcat(a[1..], b, key, k);
      var h := if key(a[0]) == k then [a[0]] else [];
      calc {
        Members(ab, key, k);
        h + Members(a[1..] + b, key, k);
        h + (Members(a[1..], key, k) + Members(b, key, k));
        (h + Members(a[1..], key, k)) + Members(b, key, k);
      }
    }
  }

  lemma FlattenSnoc<T>(ss: seq<seq<T>>, g: seq<T>)
    ensures Flatten(ss + [g]) == Flatten(ss) + g
  {
    assert (ss + [g])[..|ss|] == ss;
  }
}
