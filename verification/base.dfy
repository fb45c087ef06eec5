/** Sequence helpers shared by every module: an Option type, the order-preserving
    `filter` of JavaScript arrays, and the subsequence relation used to state that
    a filter keeps the original order. */
module Base {

  datatype Option<T> = None | Some(value: T)

  /** `s` with every element that fails `p` dropped, like `Array.prototype.filter`. */
  function Filter<T(!new)>(s: seq<T>, p: T -> bool): (r: seq<T>)
    ensures |r| <= |s|
    ensures forall x :: x in r <==> x in s && p(x)
    ensures forall i :: 0 <= i < |r| ==> p(r[i])
    ensures (forall i :: 0 <= i < |s| ==> p(s[i])) ==> r == s
  {
    if s == [] then []
    else
      var rest := Filter(s[1..], p);
      assert forall x :: x in s <==> x == s[0] || x in s[1..];
      if p(s[0]) then [s[0]] + rest else rest
  }

  /** JavaScript falsiness of an optional string: missing or empty. */
  predicate Falsy(s: Option<string>)
  {
    s.None? || s.value == ""
  }

  /** The text a database filter compares with (`.eq(column, value)` builds the filter
      from the value's string form): a missing value is rendered "undefined". */
  function QueryText(s: Option<string>): string
  {
    if s.Some? then s.value else "undefined"
  }

  /** Filtering a sequence with a first element decides that element first. */
  lemma FilterCons<T(!new)>(h: T, t: seq<T>, p: T -> bool)
    ensures Filter([h] + t, p) == (if p(h) then [h] else []) + Filter(t, p)
  {
    assert ([h] + t)[0] == h;
    assert ([h] + t)[1..] == t;
  }

  /** Filtering a sequence extended by one element extends the filtered sequence by that
      element exactly when it passes. */
  lemma {:induction false} FilterAppend<T(!new)>(s: seq<T>, x: T, p: T -> bool)
    ensures Filter(s + [x], p) == Filter(s, p) + (if p(x) then [x] else [])
  {
    var tail := if p(x) then [x] else [];
    if s == [] {
      assert s + [x] == [x] + [];
      FilterCons(x, [], p);
    } else {
      var t := s[1..];
      var head := if p(s[0]) then [s[0]] else [];
      assert s == [s[0]] + t;
      assert s + [x] == [s[0]] + (t + [x]);
      FilterCons(s[0], t + [x], p);
      FilterCons(s[0], t, p);
      FilterAppend(t, x, p);
      assert head + (Filter(t, p) + tail) == (head + Filter(t, p)) + tail;
    }
  }

  /** Filtering keeps every element that passes as often as it occurs, and drops every
      occurrence of one that fails. */
  lemma {:induction false} FilterCounts<T(!new)>(s: seq<T>, p: T -> bool)
    ensures forall x :: multiset(Filter(s, p))[x] == if p(x) then multiset(s)[x] else 0
  {
    if s != [] {
      FilterCounts(s[1..], p);
      assert s == [s[0]] + s[1..];
      if p(s[0]) {
        assert Filter(s, p) == [s[0]] + Filter(s[1..], p);
      } else {
        assert Filter(s, p) == Filter(s[1..], p);
      }
    }
  }

  /** `a` can be obtained from `b` by deleting elements (greedy matching). */
  predicate IsSubsequence<T(==)>(a: seq<T>, b: seq<T>)
    decreases |b|
  {
    if a == [] then true
    else if b == [] then false
    else if a[0] == b[0] then IsSubsequence(a[1..], b[1..])
    else IsSubsequence(a, b[1..])
  }

  /** Filtering keeps the survivors in their original relative order. */
  lemma {:induction false} FilterIsSubsequence<T(!new)>(s: seq<T>, p: T -> bool)
    ensures IsSubsequence(Filter(s, p), s)
  {
    if s != [] {
      FilterIsSubsequence(s[1..], p);
      var rest := Filter(s[1..], p);
      if p(s[0]) {
        assert Filter(s, p) == [s[0]] + rest;
        assert ([s[0]] + rest)[1..] == rest;
      } else {
        assert Filter(s, p) == rest;
        if rest != [] {
          assert p(rest[0]);
          assert rest[0] != s[0];
        }
      }
    }
  }

  /** No two elements of `s` have the same key. */
  ghost predicate DistinctKeys<T, K>(s: seq<T>, key: T -> K)
  {
    forall i, j :: 0 <= i < j < |s| ==> key(s[i]) != key(s[j])
  }

  /** The tail of a sequence with distinct keys has distinct keys, none equal to the
      head's. */
  lemma DistinctKeysTail<T, K>(s: seq<T>, key: T -> K)
    requires |s| > 0 && DistinctKeys(s, key)
    ensures DistinctKeys(s[1..], key)
    ensures forall x :: x in s[1..] ==> key(x) != key(s[0])
  {
    forall x | x in s[1..]
      ensures key(x) != key(s[0])
    {
      var k :| 0 <= k < |s[1..]| && s[1..][k] == x;
      assert s[k + 1] == x;
    }
  }

  /** An element whose key no element of `r` has can be put in front of `r`. */
  lemma ConsDistinctKeys<T, K>(x: T, r: seq<T>, key: T -> K)
    requires DistinctKeys(r, key)
    requires forall y :: y in r ==> key(y) != key(x)
    ensures DistinctKeys([x] + r, key)
  {
    var c := [x] + r;
    forall i, j | 0 <= i < j < |c|
      ensures key(c[i]) != key(c[j])
    {
      assert c[j] == r[j - 1];
      if i > 0 {
        assert c[i] == r[i - 1];
      }
    }
  }

  /** Filtering keeps keys distinct. */
  lemma {:induction false} FilterKeepsDistinctKeys<T(!new), K>(s: seq<T>, p: T -> bool, key: T -> K)
    requires DistinctKeys(s, key)
    ensures DistinctKeys(Filter(s, p), key)
  {
    if s != [] {
      var rest := Filter(s[1..], p);
      DistinctKeysTail(s, key);
      FilterKeepsDistinctKeys(s[1..], p, key);
      if p(s[0]) {
        assert Filter(s, p) == [s[0]] + rest;
        ConsDistinctKeys(s[0], rest, key);
      } else {
        assert Filter(s, p) == rest;
      }
    }
  }

  /** Applies `f` to every element, like `Array.prototype.map`. */
  function MapSeq<T, U>(s: seq<T>, f: T -> U): (r: seq<U>)
    ensures |r| == |s|
    ensures forall i :: 0 <= i < |s| ==> r[i] == f(s[i])
  {
    seq(|s|, i requires 0 <= i < |s| => f(s[i]))
  }
}
