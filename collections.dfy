/** Sequence operations standing for what MongoDB cursors and Python lists do:
    find_one (first match in natural order), filtering, cursor.limit(n) and a
    stable descending sort by an optional key (None sorts lowest). */
module Collections {
  import opened Wrappers

  /** Index of the first element satisfying p: what find_one returns. */
  function FindFirst<T>(s: seq<T>, p: T -> bool): (r: Option<nat>)
    ensures r.Some? ==> r.value < |s| && p(s[r.value]) && forall j :: 0 <= j < r.value ==> !p(s[j])
    ensures r.None? ==> forall j :: 0 <= j < |s| ==> !p(s[j])
  {
    if s == [] then None
    else if p(s[0]) then Some(0)
    else match FindFirst(s[1..], p)
      case None => None
      case Some(k) => Some(k + 1)
  }

  /** find_one: the first element satisfying p, in natural order. */
  function FindOne<T>(s: seq<T>, p: T -> bool): (r: Option<T>)
    ensures r.Some? <==> exists j :: 0 <= j < |s| && p(s[j])
    ensures r.Some? ==> r.value in s && p(r.value)
  {
    match FindFirst(s, p)
    case None => None
    case Some(i) => Some(s[i])
  }

  /** Appending leaves an earlier first match alone; otherwise the new element
      is the first match when it matches. */
  lemma {:induction false} FindFirstAppend<T>(s: seq<T>, x: T, p: T -> bool)
    ensures FindFirst(s + [x], p) ==
            if FindFirst(s, p).Some? then FindFirst(s, p)
            else if p(x) then Some(|s|) else None
  {
    if s != [] {
      assert (s + [x])[1..] == s[1..] + [x];
      FindFirstAppend(s[1..], x, p);
    }
  }

  /** find_one after insert_one: the earlier match if there was one, else the
      inserted document when it matches. */
  lemma FindOneAppend<T>(s: seq<T>, x: T, p: T -> bool)
    ensures FindOne(s + [x], p) ==
            if FindOne(s, p).Some? then FindOne(s, p)
            else if p(x) then Some(x) else None
  {
    FindFirstAppend(s, x, p);
  }

  /** An element that matches, with no match before it, is the first match. */
  lemma FindFirstAt<T>(s: seq<T>, p: T -> bool, i: nat)
    requires i < |s| && p(s[i]) && forall j :: 0 <= j < i ==> !p(s[j])
    ensures FindFirst(s, p) == Some(i)
  {
  }

  /** Two sequences differing at one non-matching position have the same
      first match. */
  lemma {:induction false} SameMatches<T>(a: seq<T>, b: seq<T>, p: T -> bool, i: nat)
    requires |a| == |b| && i < |a| && !p(a[i]) && !p(b[i])
    requires forall j :: 0 <= j < |a| && j != i ==> a[j] == b[j]
    ensures FindOne(a, p) == FindOne(b, p)
  {
    if i != 0 {
      assert a[0] == b[0];
      if !p(a[0]) {
        SameMatches(a[1..], b[1..], p, i - 1);
        assert FindFirst(a, p) == (match FindFirst(a[1..], p) case None => None case Some(k) => Some(k + 1));
      }
    } else {
      assert a[1..] == b[1..];
    }
  }

  /** update_one: the first element satisfying p is replaced by f of it;
      nothing changes when there is none. */
  function UpdateFirst<T>(s: seq<T>, p: T -> bool, f: T -> T): (r: seq<T>)
    ensures |r| == |s|
    ensures FindFirst(s, p).None? ==> r == s
    ensures FindFirst(s, p).Some? ==> var i := FindFirst(s, p).value;
              r == s[i := f(s[i])]
  {
    match FindFirst(s, p)
    case None => s
    case Some(i) => s[i := f(s[i])]
  }

  /** update_one with its modified_count: the first element satisfying p is
      replaced by f of it, and the flag says whether its value changed; an
      unmatched filter changes nothing and reports false. */
  function UpdateOne<T(==)>(s: seq<T>, p: T -> bool, f: T -> T): (r: (seq<T>, bool))
    ensures r.0 == UpdateFirst(s, p, f)
    ensures FindFirst(s, p).None? ==> r == (s, false)
    ensures FindFirst(s, p).Some? ==> var i := FindFirst(s, p).value;
              r.1 == (f(s[i]) != s[i])
  {
    match FindFirst(s, p)
    case None => (s, false)
    case Some(i) => (s[i := f(s[i])], f(s[i]) != s[i])
  }

  /** delete_many: every element satisfying p is removed, the rest keep their order. */
  function DeleteWhere<T>(s: seq<T>, p: T -> bool): (r: seq<T>)
    ensures |r| <= |s|
    ensures forall i :: 0 <= i < |r| ==> !p(r[i])
  {
    Filter(s, Not(p))
  }

  function Not<T>(p: T -> bool): T -> bool {
    (x: T) => !p(x)
  }

  /** An element survives delete_many exactly when it was there and does not match. */
  lemma DeleteWhereMembership<T>(s: seq<T>, p: T -> bool, x: T)
    ensures x in DeleteWhere(s, p) <==> x in s && !p(x)
  {
    FilterMembership(s, Not(p), x);
  }

  /** The elements satisfying p, in their original order: a list comprehension
      with a condition, or find(filter) over a collection. */
  function Filter<T>(s: seq<T>, p: T -> bool): (r: seq<T>)
    ensures |r| <= |s|
    ensures forall i :: 0 <= i < |r| ==> p(r[i])
  {
    if s == [] then [] else Filter(s[..|s| - 1], p) + (if p(s[|s| - 1]) then [s[|s| - 1]] else [])
  }

  /** Filtering distributes over concatenation, so the kept elements keep their
      relative order. */
  lemma {:induction false} FilterAppend<T>(a: seq<T>, b: seq<T>, p: T -> bool)
    ensures Filter(a + b, p) == Filter(a, p) + Filter(b, p)
  {
    if b == [] {
      assert a + b == a;
    } else {
      var init := b[..|b| - 1];
      FilterAppend(a, init, p);
      assert (a + b)[..|a + b| - 1] == a + init;
      assert (a + b)[|a + b| - 1] == b[|b| - 1];
    }
  }

  lemma FilterOne<T>(x: T, p: T -> bool)
    ensures Filter([x], p) == if p(x) then [x] else []
  {
    var one := [x];
    assert one[..0] == [];
    assert Filter(one, p) == Filter([], p) + (if p(x) then [x] else []);
  }

  /** Filtering one element more at the front. */
  lemma FilterCons<T>(x: T, s: seq<T>, p: T -> bool)
    ensures Filter([x] + s, p) == (if p(x) then [x] else []) + Filter(s, p)
  {
    FilterAppend([x], s, p);
    FilterOne(x, p);
  }

  /** Filtering one element more at the back. */
  lemma FilterSnoc<T>(s: seq<T>, x: T, p: T -> bool)
    ensures Filter(s + [x], p) == Filter(s, p) + (if p(x) then [x] else [])
  {
    FilterAppend(s, [x], p);
    FilterOne(x, p);
  }

  /** Nothing is kept exactly when no element satisfies p. */
  lemma {:induction false} FilterEmpty<T>(s: seq<T>, p: T -> bool)
    ensures Filter(s, p) == [] <==> forall k :: 0 <= k < |s| ==> !p(s[k])
  {
    if s != [] {
      var init := s[..|s| - 1];
      FilterEmpty(init, p);
      assert forall k :: 0 <= k < |init| ==> init[k] == s[k];
    }
  }

  /** An element is kept exactly when it occurs in the input and satisfies p. */
  lemma {:induction false} FilterMembership<T>(s: seq<T>, p: T -> bool, x: T)
    ensures x in Filter(s, p) <==> x in s && p(x)
  {
    if s != [] {
      var init := s[..|s| - 1];
      FilterMembership(init, p, x);
      assert s == init + [s[|s| - 1]];
    }
  }

  /** Filtering keeps everything exactly when every element satisfies p. */
  lemma {:induction false} FilterAll<T>(s: seq<T>, p: T -> bool)
    ensures Filter(s, p) == s <==> forall i :: 0 <= i < |s| ==> p(s[i])
  {
    if s != [] {
      var init := s[..|s| - 1];
      FilterAll(init, p);
      if !p(s[|s| - 1]) {
        assert |Filter(s, p)| < |s|;
      } else if Filter(s, p) == s {
        assert Filter(init, p) == init;
      }
    }
  }

  /** Two positions of a filtered list come from two distinct positions of the input. */
  lemma {:induction false} SubsequenceOfFilter<T>(s: seq<T>, p: T -> bool, i: nat, j: nat)
    requires i < |Filter(s, p)| && j < |Filter(s, p)| && i != j
    ensures exists a, b :: 0 <= a < |s| && 0 <= b < |s| && a != b && s[a] == Filter(s, p)[i] && s[b] == Filter(s, p)[j]
  {
    var init := s[..|s| - 1];
    var f0 := Filter(init, p);
    var x := s[|s| - 1];
    assert Filter(s, p) == f0 + (if p(x) then [x] else []);
    if i < |f0| && j < |f0| {
      SubsequenceOfFilter(init, p, i, j);
      var a, b :| 0 <= a < |init| && 0 <= b < |init| && a != b && init[a] == f0[i] && init[b] == f0[j];
      assert s[a] == init[a] && s[b] == init[b];
    } else if i < |f0| {
      FilterMembership(init, p, f0[i]);
      var a :| 0 <= a < |init| && init[a] == f0[i];
      assert s[a] == init[a];
      assert s[|s| - 1] == Filter(s, p)[j];
    } else {
      FilterMembership(init, p, f0[j]);
      var b :| 0 <= b < |init| && init[b] == f0[j];
      assert s[b] == init[b];
      assert s[|s| - 1] == Filter(s, p)[i];
    }
  }

  /** Every element goes to exactly one side of a filter. */
  lemma {:induction false} FilterPartition<T>(s: seq<T>, p: T -> bool)
    ensures |Filter(s, p)| + |Filter(s, Not(p))| == |s|
  {
    if s != [] {
      var init := s[..|s| - 1];
      assert s == init + [s[|s| - 1]];
      FilterPartition(init, p);
      FilterSnoc(init, s[|s| - 1], p);
      FilterSnoc(init, s[|s| - 1], Not(p));
    }
  }

  /** Python sum(f(x) for x in s). */
  function Sum<T>(s: seq<T>, f: T -> int): int {
    if s == [] then 0 else Sum(s[..|s| - 1], f) + f(s[|s| - 1])
  }

  lemma SumAppend<T>(s: seq<T>, x: T, f: T -> int)
    ensures Sum(s + [x], f) == Sum(s, f) + f(x)
  {
    assert (s + [x])[..|s|] == s;
  }

  /** Replacing one element changes the sum by the difference. */
  lemma {:induction false} SumUpdate<T>(s: seq<T>, i: nat, x: T, f: T -> int)
    requires i < |s|
    ensures Sum(s[i := x], f) == Sum(s, f) - f(s[i]) + f(x)
  {
    var n := |s|;
    if i == n - 1 {
      assert s[i := x][..n - 1] == s[..n - 1];
    } else {
      assert s[i := x][..n - 1] == s[..n - 1][i := x];
      SumUpdate(s[..n - 1], i, x, f);
    }
  }

  /** MongoDB cursor.limit(n): 0 means no limit, a negative n is treated as |n|. */
  function Limit<T>(s: seq<T>, n: int): (r: seq<T>)
    ensures n == 0 ==> r == s
    ensures n != 0 ==> |r| == (if |s| < Abs(n) then |s| else Abs(n))
    ensures r == s[..|r|]
  {
    if n == 0 || |s| <= Abs(n) then s else s[..Abs(n)]
  }

  function Abs(n: int): nat {
    if n < 0 then -n else n
  }

  // ---------------------------------------------------------------------------
  // Stable descending sort by an optional key, None lowest (Python
  // `list.sort(key=..., reverse=True)` is stable; so is this).

  /** a <= b in the key order where None is below every value. */
  predicate KeyLe(a: Option<int>, b: Option<int>) {
    a.None? || (b.Some? && a.value <= b.value)
  }

  ghost predicate SortedDesc<T>(s: seq<T>, key: T -> Option<int>) {
    forall i, j :: 0 <= i < j < |s| ==> KeyLe(key(s[j]), key(s[i]))
  }

  /** Insert x before the first element whose key is not above x's. */
  function Insert<T>(x: T, s: seq<T>, key: T -> Option<int>): (r: seq<T>)
    ensures multiset(r) == multiset(s) + multiset{x}
    ensures |r| == |s| + 1
  {
    if s == [] then [x]
    else if KeyLe(key(s[0]), key(x)) then [x] + s
    else
      var r := [s[0]] + Insert(x, s[1..], key);
      assert s == [s[0]] + s[1..];
      r
  }

  /** The permutation it makes is SortDescSorted's. */
  function SortDesc<T>(s: seq<T>, key: T -> Option<int>): (r: seq<T>)
    ensures |r| == |s|
  {
    if s == [] then [] else Insert(s[0], SortDesc(s[1..], key), key)
  }

  lemma {:induction false} InsertSorted<T>(x: T, s: seq<T>, key: T -> Option<int>)
    requires SortedDesc(s, key)
    ensures SortedDesc(Insert(x, s, key), key)
  {
    if s != [] && !KeyLe(key(s[0]), key(x)) {
      InsertSorted(x, s[1..], key);
      var t := Insert(x, s[1..], key);
      var r := [s[0]] + t;
      forall j | 0 < j < |r| ensures KeyLe(key(r[j]), key(r[0])) {
        assert r[j] in multiset(t);
        assert r[j] in multiset(s[1..]) + multiset{x};
        if r[j] in multiset(s[1..]) {
          var k :| 0 <= k < |s[1..]| && s[1..][k] == r[j];
          assert s[k + 1] == r[j];
        }
      }
    }
  }

  /** The result is sorted by descending key and is a permutation of the input. */
  lemma {:induction false} SortDescSorted<T>(s: seq<T>, key: T -> Option<int>)
    ensures SortedDesc(SortDesc(s, key), key)
    ensures multiset(SortDesc(s, key)) == multiset(s)
  {
    if s != [] {
      SortDescSorted(s[1..], key);
      InsertSorted(s[0], SortDesc(s[1..], key), key);
      assert s == [s[0]] + s[1..];
    }
  }

  function HasKey<T>(key: T -> Option<int>, k: Option<int>): T -> bool {
    x => key(x) == k
  }

  function WithKey<T>(s: seq<T>, key: T -> Option<int>, k: Option<int>): seq<T> {
    Filter(s, HasKey(key, k))
  }

  /** Moving x past an element y that does not share its key leaves every
      key's subsequence as it was. */
  lemma FilterSwap<T>(x: T, y: T, t: seq<T>, rest: seq<T>, p: T -> bool)
    requires Filter(t, p) == Filter([x] + rest, p)
    requires !(p(x) && p(y))
    ensures Filter([y] + t, p) == Filter([x] + ([y] + rest), p)
  {
    var hx := if p(x) then [x] else [];
    var hy := if p(y) then [y] else [];
    var fr := Filter(rest, p);
    FilterCons(y, t, p);
    FilterCons(x, rest, p);
    FilterCons(y, rest, p);
    FilterCons(x, [y] + rest, p);
    assert Filter([y] + t, p) == hy + (hx + fr);
    assert Filter([x] + ([y] + rest), p) == hx + (hy + fr);
    if p(x) {
      assert hy == [];
    } else {
      assert hx == [];
    }
  }

  lemma {:induction false} InsertStable<T>(x: T, s: seq<T>, key: T -> Option<int>, k: Option<int>)
    ensures WithKey(Insert(x, s, key), key, k) == WithKey([x] + s, key, k)
  {
    if s != [] && !KeyLe(key(s[0]), key(x)) {
      var p := HasKey(key, k);
      var y, rest := s[0], s[1..];
      InsertStable(x, rest, key, k);
      var t := Insert(x, rest, key);
      assert Insert(x, s, key) == [y] + t;
      assert s == [y] + rest;
      assert key(x) != key(y);
      FilterSwap(x, y, t, rest, p);
    }
  }

  /** Stability: among elements with the same key the input order is kept. */
  lemma {:induction false} SortDescStable<T>(s: seq<T>, key: T -> Option<int>, k: Option<int>)
    ensures WithKey(SortDesc(s, key), key, k) == WithKey(s, key, k)
  {
    if s != [] {
      var p := HasKey(key, k);
      SortDescStable(s[1..], key, k);
      InsertStable(s[0], SortDesc(s[1..], key), key, k);
      assert s == [s[0]] + s[1..];
      FilterAppend([s[0]], SortDesc(s[1..], key), p);
      FilterAppend([s[0]], s[1..], p);
    }
  }
}
