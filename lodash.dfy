/** The lodash and built-in array helpers the program relies on, with the
    meaning their documentation gives them: `_.find` returns the first match,
    `_.orderBy` is a stable ascending sort, `_.uniqBy` keeps the first element
    of each key, `slice(0, end)` counts a negative end from the back, and
    `_.round(x)` (`Math.round`) rounds halves up. */
module Lodash {
  import opened Types

  /** `_.findIndex`: the position of the first element satisfying `p`, or -1. */
  function FindIndex<T>(s: seq<T>, p: T -> bool): (i: int)
    ensures -1 <= i < |s|
    ensures 0 <= i ==> p(s[i])
    ensures forall k | 0 <= k < (if i < 0 then |s| else i) :: !p(s[k])
  {
    if s == [] then -1
    else if p(s[0]) then 0
    else
      var j := FindIndex(s[1..], p);
      if j < 0 then -1 else j + 1
  }

  /** `x` is the first element of `s` satisfying `p`. */
  ghost predicate FirstMatch<T>(s: seq<T>, p: T -> bool, x: T)
    decreases |s|
  {
    s != [] && if p(s[0]) then x == s[0] else FirstMatch(s[1..], p, x)
  }

  lemma {:induction false} FindIndexFirst<T>(s: seq<T>, p: T -> bool)
    requires 0 <= FindIndex(s, p)
    ensures FirstMatch(s, p, s[FindIndex(s, p)])
  {
    if !p(s[0]) {
      FindIndexFirst(s[1..], p);
    }
  }

  /** `_.find`: the first element satisfying `p`. */
  function Find<T>(s: seq<T>, p: T -> bool): (r: Option<T>)
    ensures r.None? <==> forall k | 0 <= k < |s| :: !p(s[k])
    ensures r.Some? ==> r.value in s && p(r.value)
    ensures r.Some? ==> FirstMatch(s, p, r.value)
  {
    var i := FindIndex(s, p);
    if i < 0 then None
    else
      FindIndexFirst(s, p);
      Some(s[i])
  }

  /** Appending to a sequence changes its first match only when it had none. */
  lemma FindAppend<T>(s: seq<T>, x: T, p: T -> bool)
    ensures Find(s + [x], p) == if Find(s, p).Some? then Find(s, p) else if p(x) then Some(x) else None
  {
    var i, j := FindIndex(s, p), FindIndex(s + [x], p);
    assert forall k | 0 <= k < |s| :: (s + [x])[k] == s[k];
    assert (s + [x])[|s|] == x;
    if 0 <= i {
      assert p((s + [x])[i]);
    }
  }

  ghost predicate SortedAsc<T>(s: seq<T>, key: T -> real)
  {
    forall i, j | 0 <= i < j < |s| :: key(s[i]) <= key(s[j])
  }

  ghost predicate SortedDesc<T>(s: seq<T>, key: T -> real)
  {
    forall i, j | 0 <= i < j < |s| :: key(s[i]) >= key(s[j])
  }

  /** Inserts `x` into `s` after the trailing elements whose key exceeds that
      of `x`; on a sorted `s` this keeps equal keys in arrival order. */
  function InsertAfterEqual<T>(s: seq<T>, x: T, key: T -> real): (r: seq<T>)
    ensures |r| == |s| + 1
  {
    if s == [] || key(s[|s| - 1]) <= key(x) then s + [x]
    else InsertAfterEqual(s[..|s| - 1], x, key) + [s[|s| - 1]]
  }

  lemma {:induction false} InsertAfterEqualPermutes<T>(s: seq<T>, x: T, key: T -> real)
    ensures multiset(InsertAfterEqual(s, x, key)) == multiset(s) + multiset{x}
  {
    if !(s == [] || key(s[|s| - 1]) <= key(x)) {
      InsertAfterEqualPermutes(s[..|s| - 1], x, key);
      assert s == s[..|s| - 1] + [s[|s| - 1]];
    }
  }

  lemma {:induction false} InsertAfterEqualSorted<T>(s: seq<T>, x: T, key: T -> real)
    requires SortedAsc(s, key)
    ensures SortedAsc(InsertAfterEqual(s, x, key), key)
  {
    if !(s == [] || key(s[|s| - 1]) <= key(x)) {
      var init, last := s[..|s| - 1], s[|s| - 1];
      var r' := InsertAfterEqual(init, x, key);
      InsertAfterEqualSorted(init, x, key);
      InsertAfterEqualPermutes(init, x, key);
      forall i | 0 <= i < |r'| ensures key(r'[i]) <= key(last) {
        assert r'[i] in multiset(r');
        if r'[i] != x {
          assert r'[i] in multiset(init);
          var k :| 0 <= k < |init| && init[k] == r'[i];
          assert s[k] == init[k];
        }
      }
      assert InsertAfterEqual(s, x, key) == r' + [last];
    }
  }

  /** The elements of `s` whose key is `v`, in order. */
  function KeyFilter<T>(s: seq<T>, key: T -> real, v: real): seq<T>
  {
    if s == [] then [] else (if key(s[0]) == v then [s[0]] else []) + KeyFilter(s[1..], key, v)
  }

  lemma {:induction false} KeyFilterAppend<T>(a: seq<T>, b: seq<T>, key: T -> real, v: real)
    ensures KeyFilter(a + b, key, v) == KeyFilter(a, key, v) + KeyFilter(b, key, v)
  {
    if a == [] {
      assert a + b == b;
    } else {
      var head := if key(a[0]) == v then [a[0]] else [];
      assert (a + b)[0] == a[0] && (a + b)[1..] == a[1..] + b;
      assert KeyFilter(a + b, key, v) == head + KeyFilter(a[1..] + b, key, v);
      KeyFilterAppend(a[1..], b, key, v);
      assert KeyFilter(a, key, v) == head + KeyFilter(a[1..], key, v);
    }
  }

  /** Inserting after the equal keys puts `x` last among the elements of
      its key. */
  lemma {:induction false} InsertAfterEqualStable<T>(s: seq<T>, x: T, key: T -> real, v: real)
    ensures KeyFilter(InsertAfterEqual(s, x, key), key, v) == KeyFilter(s, key, v) + KeyFilter([x], key, v)
  {
    if s == [] || key(s[|s| - 1]) <= key(x) {
      KeyFilterAppend(s, [x], key, v);
    } else {
      var init, last := s[..|s| - 1], s[|s| - 1];
      InsertAfterEqualStable(init, x, key, v);
      KeyFilterAppend(InsertAfterEqual(init, x, key), [last], key, v);
      KeyFilterAppend(init, [last], key, v);
      assert s == init + [last];
      assert [x][1..] == [] && [last][1..] == [];
    }
  }

  /** `_.orderBy(s, key)`: a stable sort by ascending key; the elements of
      each key keep their input order. */
  function OrderBy<T>(s: seq<T>, key: T -> real): (r: seq<T>)
    ensures multiset(r) == multiset(s)
    ensures SortedAsc(r, key)
    ensures forall v :: KeyFilter(r, key, v) == KeyFilter(s, key, v)
  {
    if s == [] then []
    else
      var init, last := s[..|s| - 1], s[|s| - 1];
      assert s == init + [last];
      var sorted := OrderBy(init, key);
      InsertAfterEqualPermutes(sorted, last, key);
      InsertAfterEqualSorted(sorted, last, key);
      assert forall v :: KeyFilter(InsertAfterEqual(sorted, last, key), key, v) == KeyFilter(s, key, v) by {
        forall v ensures KeyFilter(InsertAfterEqual(sorted, last, key), key, v) == KeyFilter(s, key, v) {
          InsertAfterEqualStable(sorted, last, key, v);
          KeyFilterAppend(init, [last], key, v);
        }
      }
      InsertAfterEqual(sorted, last, key)
  }

  /** Sorting neither adds, drops nor duplicates an element. */
  lemma OrderByMembers<T>(s: seq<T>, key: T -> real)
    ensures |OrderBy(s, key)| == |s|
    ensures forall x :: x in OrderBy(s, key) <==> x in s
  {
    var r := OrderBy(s, key);
    assert |multiset(r)| == |multiset(s)|;
    forall x ensures x in r <==> x in s {
      assert x in r <==> x in multiset(r);
      assert x in s <==> x in multiset(s);
    }
  }

  /** `_.reverse`. */
  function Reverse<T>(s: seq<T>): (r: seq<T>)
    ensures |r| == |s|
    ensures forall i | 0 <= i < |s| :: r[i] == s[|s| - 1 - i]
  {
    if s == [] then [] else Reverse(s[1..]) + [s[0]]
  }

  lemma ReverseMultiset<T>(s: seq<T>)
    ensures multiset(Reverse(s)) == multiset(s)
  {
    if s != [] {
      ReverseMultiset(s[1..]);
      assert s == [s[0]] + s[1..];
    }
  }

  /** Reversing reverses the elements of every key. */
  lemma {:induction false} ReverseKeyFilter<T>(s: seq<T>, key: T -> real, v: real)
    ensures KeyFilter(Reverse(s), key, v) == Reverse(KeyFilter(s, key, v))
  {
    if s != [] {
      ReverseKeyFilter(s[1..], key, v);
      KeyFilterAppend(Reverse(s[1..]), [s[0]], key, v);
      assert [s[0]][1..] == [];
      var rest := KeyFilter(s[1..], key, v);
      if key(s[0]) == v {
        assert ([s[0]] + rest)[1..] == rest;
      } else {
        assert [] + rest == rest;
      }
    }
  }

  /** `_.reverse(_.orderBy(s, key))`: a permutation of `s` by descending key,
      where the elements of each key come in reverse input order. */
  function OrderByDesc<T>(s: seq<T>, key: T -> real): (r: seq<T>)
    ensures multiset(r) == multiset(s)
    ensures SortedDesc(r, key)
    ensures forall v :: KeyFilter(r, key, v) == Reverse(KeyFilter(s, key, v))
  {
    var a := OrderBy(s, key);
    ReverseMultiset(a);
    assert forall v :: KeyFilter(Reverse(a), key, v) == Reverse(KeyFilter(s, key, v)) by {
      forall v ensures KeyFilter(Reverse(a), key, v) == Reverse(KeyFilter(s, key, v)) {
        ReverseKeyFilter(a, key, v);
      }
    }
    Reverse(a)
  }

  /** Sorting by descending key keeps exactly the elements it was given. */
  lemma OrderByDescMembers<T>(s: seq<T>, key: T -> real)
    ensures |OrderByDesc(s, key)| == |s|
    ensures forall x :: x in OrderByDesc(s, key) <==> x in s
  {
    var a := OrderBy(s, key);
    OrderByMembers(s, key);
    var r := Reverse(a);
    forall x ensures x in r <==> x in a {
      if x in a {
        var i :| 0 <= i < |a| && a[i] == x;
        assert r[|a| - 1 - i] == x;
      }
    }
  }

  /** The first element of `s` whose key is `k`. */
  function FirstWithKey<T>(s: seq<T>, key: T -> int, k: int): Option<T>
  {
    if s == [] then None
    else if key(s[0]) == k then Some(s[0])
    else FirstWithKey(s[1..], key, k)
  }

  /** The first element with a key exists for every key present, and is
      an element with that key. */
  lemma {:induction false} FirstWithKeyFound<T>(s: seq<T>, key: T -> int, k: int)
    ensures FirstWithKey(s, key, k).Some? <==> exists x | x in s :: key(x) == k
    ensures FirstWithKey(s, key, k).Some? ==> FirstWithKey(s, key, k).value in s && key(FirstWithKey(s, key, k).value) == k
  {
    if s != [] && key(s[0]) != k {
      FirstWithKeyFound(s[1..], key, k);
      if exists x | x in s :: key(x) == k {
        var x :| x in s && key(x) == k;
        assert x in s[1..];
      }
    }
  }

  lemma {:induction false} FirstWithKeyAppend<T>(s: seq<T>, x: T, key: T -> int, k: int)
    ensures FirstWithKey(s + [x], key, k)
      == if FirstWithKey(s, key, k).Some? then FirstWithKey(s, key, k) else if key(x) == k then Some(x) else None
  {
    if s == [] {
      assert s + [x] == [x];
      assert [x][1..] == [];
    } else {
      assert (s + [x])[1..] == s[1..] + [x];
      FirstWithKeyAppend(s[1..], x, key, k);
    }
  }

  /** On a sequence in descending order, the first element with a key ranks
      at least as high as every other element with that key. */
  lemma {:induction false} FirstWithKeyMax<T>(s: seq<T>, key: T -> int, k: int, rank: T -> real)
    requires SortedDesc(s, rank)
    requires FirstWithKey(s, key, k).Some?
    ensures forall x | x in s && key(x) == k :: rank(x) <= rank(FirstWithKey(s, key, k).value)
  {
    if key(s[0]) != k {
      assert SortedDesc(s[1..], rank);
      FirstWithKeyMax(s[1..], key, k, rank);
      forall x | x in s && key(x) == k ensures rank(x) <= rank(FirstWithKey(s, key, k).value) {
        assert x in s[1..];
      }
    } else {
      forall x | x in s ensures rank(x) <= rank(s[0]) {
        var j :| 0 <= j < |s| && s[j] == x;
      }
    }
  }

  /** No two elements of `r` share a key. */
  ghost predicate DistinctKeys<T>(r: seq<T>, key: T -> int)
  {
    forall i, j | 0 <= i < j < |r| :: key(r[i]) != key(r[j])
  }

  /** An element at two positions is counted twice. */
  lemma TwiceCounted<T>(s: seq<T>, i: int, j: int)
    requires 0 <= i < j < |s| && s[i] == s[j]
    ensures multiset(s)[s[i]] >= 2
  {
    assert s == s[..j] + [s[j]] + s[j + 1..];
    assert s[..j][i] == s[i];
  }

  /** Without repeated keys, no element is repeated. */
  lemma {:induction false} DistinctKeysOnce<T>(a: seq<T>, key: T -> int, x: T)
    requires DistinctKeys(a, key)
    ensures multiset(a)[x] <= 1
  {
    if a != [] {
      var rest := a[1..];
      assert a == [a[0]] + rest;
      forall i, j | 0 <= i < j < |rest| ensures key(rest[i]) != key(rest[j]) {
        assert rest[i] == a[i + 1] && rest[j] == a[j + 1];
      }
      DistinctKeysOnce(rest, key, x);
      if x in rest {
        var k :| 0 <= k < |rest| && rest[k] == x;
        assert key(a[0]) != key(a[k + 1]);
      }
    }
  }

  /** Reordering keeps keys distinct. */
  lemma PermutationKeepsDistinctKeys<T>(a: seq<T>, b: seq<T>, key: T -> int)
    requires multiset(a) == multiset(b)
    requires DistinctKeys(a, key)
    ensures DistinctKeys(b, key)
  {
    forall i, j | 0 <= i < j < |b| ensures key(b[i]) != key(b[j]) {
      assert b[i] in multiset(a) && b[j] in multiset(a);
      var p :| 0 <= p < |a| && a[p] == b[i];
      var q :| 0 <= q < |a| && a[q] == b[j];
      if p == q {
        TwiceCounted(b, i, j);
        DistinctKeysOnce(a, key, b[i]);
        assert false;
      } else if p < q {
        assert key(a[p]) != key(a[q]);
      } else {
        assert key(a[q]) != key(a[p]);
      }
    }
  }

  /** `_.uniqBy` over the elements of `s` whose key is not yet in `seen`. */
  function UniqFrom<T>(s: seq<T>, key: T -> int, seen: set<int>): (r: seq<T>)
    ensures |r| <= |s|
  {
    if s == [] then []
    else if key(s[0]) in seen then UniqFrom(s[1..], key, seen)
    else [s[0]] + UniqFrom(s[1..], key, seen + {key(s[0])})
  }

  /** `_.uniqBy(s, key)`: the first element of every key, in order. */
  function UniqBy<T>(s: seq<T>, key: T -> int): (r: seq<T>)
    ensures |r| <= |s|
  {
    UniqFrom(s, key, {})
  }

  lemma {:induction false} UniqFromMembers<T>(s: seq<T>, key: T -> int, seen: set<int>)
    ensures forall x | x in UniqFrom(s, key, seen) :: x in s && key(x) !in seen
  {
    if s != [] {
      if key(s[0]) in seen {
        UniqFromMembers(s[1..], key, seen);
      } else {
        UniqFromMembers(s[1..], key, seen + {key(s[0])});
      }
    }
  }

  lemma {:induction false} UniqFromDistinct<T>(s: seq<T>, key: T -> int, seen: set<int>)
    ensures DistinctKeys(UniqFrom(s, key, seen), key)
  {
    if s != [] {
      if key(s[0]) in seen {
        UniqFromDistinct(s[1..], key, seen);
      } else {
        var seen' := seen + {key(s[0])};
        var rest := UniqFrom(s[1..], key, seen');
        UniqFromDistinct(s[1..], key, seen');
        UniqFromMembers(s[1..], key, seen');
        var r := [s[0]] + rest;
        assert UniqFrom(s, key, seen) == r;
        forall j | 0 <= j < |rest| ensures key(rest[j]) != key(s[0]) {
          assert rest[j] in rest;
        }
        forall i, j | 0 <= i < j < |r| ensures key(r[i]) != key(r[j]) {
          if i == 0 {
            assert r[j] == rest[j - 1];
          } else {
            assert r[i] == rest[i - 1] && r[j] == rest[j - 1];
          }
        }
      }
    }
  }

  lemma {:induction false} UniqFromComplete<T>(s: seq<T>, key: T -> int, seen: set<int>)
    ensures var r := UniqFrom(s, key, seen);
      forall x | x in s && key(x) !in seen :: exists y | y in r :: key(y) == key(x)
  {
    if s != [] {
      var seen' := if key(s[0]) in seen then seen else seen + {key(s[0])};
      UniqFromComplete(s[1..], key, seen');
      var r := UniqFrom(s, key, seen);
      forall x | x in s && key(x) !in seen ensures exists y | y in r :: key(y) == key(x) {
        if x == s[0] || key(x) == key(s[0]) {
          assert s[0] in r;
        } else {
          assert x in s[1..];
          var y :| y in UniqFrom(s[1..], key, seen') && key(y) == key(x);
          assert y in r;
        }
      }
    }
  }

  lemma {:induction false} UniqFromKeepsFirst<T>(s: seq<T>, key: T -> int, seen: set<int>)
    ensures forall y | y in UniqFrom(s, key, seen) :: FirstWithKey(s, key, key(y)) == Some(y)
  {
    if s != [] {
      var seen' := if key(s[0]) in seen then seen else seen + {key(s[0])};
      UniqFromKeepsFirst(s[1..], key, seen');
      UniqFromMembers(s[1..], key, seen');
      forall y | y in UniqFrom(s, key, seen) ensures FirstWithKey(s, key, key(y)) == Some(y) {
        if key(s[0]) in seen || y != s[0] {
          assert y in UniqFrom(s[1..], key, seen');
        }
      }
    }
  }

  /** `_.uniqBy` keeps the input order, so it keeps a descending order. */
  lemma {:induction false} UniqFromKeepsDesc<T>(s: seq<T>, key: T -> int, seen: set<int>, rank: T -> real)
    requires SortedDesc(s, rank)
    ensures SortedDesc(UniqFrom(s, key, seen), rank)
  {
    if s != [] {
      var seen' := if key(s[0]) in seen then seen else seen + {key(s[0])};
      var rest := UniqFrom(s[1..], key, seen');
      UniqFromKeepsDesc(s[1..], key, seen', rank);
      UniqFromMembers(s[1..], key, seen');
      forall j | 0 <= j < |rest| ensures rank(rest[j]) <= rank(s[0]) {
        assert rest[j] in rest;
        var k :| 0 <= k < |s[1..]| && s[1..][k] == rest[j];
        assert s[k + 1] == rest[j];
      }
    }
  }

  /** `s.slice(0, end)` (also `_.slice(s, 0, end)`): a negative `end` counts
      from the back. */
  function SliceTo<T>(s: seq<T>, end: int): (r: seq<T>)
    ensures r <= s
    ensures 0 <= end ==> |r| == if end < |s| then end else |s|
    ensures end < 0 ==> |r| == if |s| + end < 0 then 0 else |s| + end
  {
    var e := if end < 0 then |s| + end else end;
    if e <= 0 then [] else if e < |s| then s[..e] else s
  }

  /** `r` is what `SliceTo(full, limit)` keeps: all of `full` when `limit`
      is 0, otherwise its first `limit` elements (or all of them but the last
      `-limit` when `limit` is negative). */
  ghost predicate LimitedTo<T>(r: seq<T>, full: seq<T>, limit: int)
  {
    && r <= full
    && (limit == 0 ==> r == full)
    && (limit > 0 ==> |r| == if limit < |full| then limit else |full|)
    && (limit < 0 ==> |r| == if |full| + limit < 0 then 0 else |full| + limit)
  }

  /** `Math.round` (also `_.round(x, 0)`): the nearest integer, halves up. */
  function RoundHalfUp(x: real): (r: int)
    ensures r as real - 0.5 <= x < r as real + 0.5
  {
    (x + 0.5).Floor
  }

  /** Some element of a non-empty set. */
  lemma Pick<T>(s: set<T>) returns (x: T)
    requires |s| != 0
    ensures x in s
  {
    x :| x in s;
  }

  predicate IsLeast(s: set<int>, m: int)
  {
    m in s && forall y | y in s :: m <= y
  }

  lemma {:induction false} LeastExists(s: set<int>)
    requires |s| > 0
    ensures exists m :: IsLeast(s, m)
    decreases |s|
  {
    var x := Pick(s);
    var rest := s - {x};
    if rest == {} {
      forall y | y in s ensures x <= y {
        assert y == x || y in rest;
      }
      assert IsLeast(s, x);
    } else {
      LeastExists(rest);
      var m :| IsLeast(rest, m);
      var least := if x < m then x else m;
      forall y | y in s ensures least <= y {
        if y != x {
          assert y in rest;
        }
      }
      assert IsLeast(s, least);
    }
  }

  function Least(s: set<int>): (m: int)
    requires |s| > 0
    ensures m in s && forall y | y in s :: m <= y
  {
    LeastExists(s);
    var m :| IsLeast(s, m);
    m
  }

  /** `_.keys` of an object whose keys are product ids: the ids in ascending
      order. */
  function SortedIds(s: set<int>): (r: seq<int>)
    ensures forall i, j | 0 <= i < j < |r| :: r[i] < r[j]
    ensures forall x :: x in r <==> x in s
    decreases |s|
  {
    if s == {} then []
    else
      var m := Least(s);
      assert |s - {m}| == |s| - 1;
      [m] + SortedIds(s - {m})
  }
}
