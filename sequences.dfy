/** Helpers shared by the scanner models: an optional value, an order-preserving filter
    (the shape of every `for ... push_back` loop guarded by a condition) and an
    ascending sort (the `std::sort` over field indices). Both are defined from
    the back, so that a loop over a prefix `s[..i]` extends them one step at a time. */
module Sequences {

  /** An optional value, shared by the scanner models. */
  datatype Option<T> = None | Some(value: T)

  /** Keeps, in order, the elements of `s` that satisfy `keep`. */
  function Filter<T>(s: seq<T>, keep: T -> bool): (r: seq<T>)
    ensures |r| <= |s|
    ensures forall i :: 0 <= i < |r| ==> keep(r[i])
  {
    if s == [] then []
    else
      var init := Filter(s[..|s| - 1], keep);
      assert s == s[..|s| - 1] + [s[|s| - 1]];
      init + (if keep(s[|s| - 1]) then [s[|s| - 1]] else [])
  }

  /** Everything a filter keeps comes from its input. */
  lemma {:induction false} FilterSubset<T>(s: seq<T>, keep: T -> bool)
    ensures multiset(Filter(s, keep)) <= multiset(s)
    ensures forall x :: x in Filter(s, keep) ==> x in s
  {
    if s != [] {
      var init, x := s[..|s| - 1], s[|s| - 1];
      FilterSubset(init, keep);
      assert s == init + [x];
      assert Filter(s, keep) == Filter(init, keep) + (if keep(x) then [x] else []);
    }
  }

  /** Filtering one more element of a prefix. */
  lemma FilterStep<T>(s: seq<T>, i: nat, keep: T -> bool)
    requires i < |s|
    ensures Filter(s[..i + 1], keep) == Filter(s[..i], keep) + (if keep(s[i]) then [s[i]] else [])
  {
    assert s[..i + 1][..i] == s[..i];
  }

  /** Filtering distributes over concatenation. */
  lemma {:induction false} FilterAppend<T>(s: seq<T>, t: seq<T>, keep: T -> bool)
    ensures Filter(s + t, keep) == Filter(s, keep) + Filter(t, keep)
    decreases |t|
  {
    if t == [] {
      assert s + t == s;
    } else {
      var t' := t[..|t| - 1];
      assert (s + t)[..|s + t| - 1] == s + t';
      FilterAppend(s, t', keep);
    }
  }

  /** A filter and its complement split a sequence without losing or duplicating anything. */
  lemma {:induction false} FilterPartition<T>(s: seq<T>, keep: T -> bool, drop: T -> bool)
    requires forall x :: drop(x) == !keep(x)
    ensures multiset(Filter(s, keep)) + multiset(Filter(s, drop)) == multiset(s)
    ensures |Filter(s, keep)| + |Filter(s, drop)| == |s|
  {
    if s != [] {
      var init, x := s[..|s| - 1], s[|s| - 1];
      FilterPartition(init, keep, drop);
      assert s == init + [x];
      assert multiset(s) == multiset(init) + multiset{x};
      if keep(x) {
        assert Filter(s, keep) == Filter(init, keep) + [x];
        assert Filter(s, drop) == Filter(init, drop);
      } else {
        assert Filter(s, keep) == Filter(init, keep);
        assert Filter(s, drop) == Filter(init, drop) + [x];
      }
    }
  }

  /** Two successive filters keep exactly what their conjunction keeps. */
  lemma {:induction false} FilterFilter<T>(s: seq<T>, f: T -> bool, g: T -> bool, both: T -> bool)
    requires forall x :: both(x) == (f(x) && g(x))
    ensures Filter(Filter(s, f), g) == Filter(s, both)
  {
    if s != [] {
      var init := s[..|s| - 1];
      var x := s[|s| - 1];
      FilterFilter(init, f, g, both);
      FilterAppend(Filter(init, f), if f(x) then [x] else [], g);
      if f(x) {
        assert Filter([x], g) == (if g(x) then [x] else []) by {
          assert [x][..0] == [];
        }
      }
    }
  }

  /** Filters by pointwise-equal conditions agree. */
  lemma {:induction false} FilterEquiv<T>(s: seq<T>, f: T -> bool, g: T -> bool)
    requires forall x :: f(x) == g(x)
    ensures Filter(s, f) == Filter(s, g)
  {
    if s != [] {
      FilterEquiv(s[..|s| - 1], f, g);
    }
  }

  /** A filter that keeps everything is the identity. */
  lemma {:induction false} FilterAll<T>(s: seq<T>, keep: T -> bool)
    requires forall x :: x in s ==> keep(x)
    ensures Filter(s, keep) == s
  {
    if s != [] {
      FilterAll(s[..|s| - 1], keep);
      assert s == s[..|s| - 1] + [s[|s| - 1]];
    }
  }

  /** An element the filter accepts is kept. */
  lemma {:induction false} FilterHasMember<T>(s: seq<T>, keep: T -> bool, i: nat)
    requires i < |s| && keep(s[i])
    ensures Filter(s, keep) != []
  {
    if i < |s| - 1 {
      assert s[..|s| - 1][i] == s[i];
      FilterHasMember(s[..|s| - 1], keep, i);
    }
  }

  /** An element the filter accepts is in its result. */
  lemma {:induction false} FilterKeeps<T>(s: seq<T>, keep: T -> bool, i: nat)
    requires i < |s| && keep(s[i])
    ensures s[i] in Filter(s, keep)
  {
    if i < |s| - 1 {
      assert s[..|s| - 1][i] == s[i];
      FilterKeeps(s[..|s| - 1], keep, i);
      FilterAppend(s[..|s| - 1], [s[|s| - 1]], keep);
      assert s[..|s| - 1] + [s[|s| - 1]] == s;
    }
  }

  ghost predicate Sorted(s: seq<int>) {
    forall i, j :: 0 <= i < j < |s| ==> s[i] <= s[j]
  }

  ghost predicate StrictlySorted(s: seq<int>) {
    forall i, j :: 0 <= i < j < |s| ==> s[i] < s[j]
  }

  /** A filtered sorted sequence is still sorted. */
  lemma {:induction false} FilterSorted(s: seq<int>, keep: int -> bool)
    requires Sorted(s)
    ensures Sorted(Filter(s, keep))
  {
    if s != [] {
      var init := s[..|s| - 1];
      FilterSorted(init, keep);
      FilterSubset(init, keep);
      var x := s[|s| - 1];
      var a := Filter(init, keep);
      forall k | 0 <= k < |a| ensures a[k] <= x {
        assert a[k] in init;
      }
      assert Filter(s, keep) == a + (if keep(x) then [x] else []);
    }
  }

  /** A filtered strictly increasing sequence is still strictly increasing. */
  lemma {:induction false} FilterStrictlySorted(s: seq<int>, keep: int -> bool)
    requires StrictlySorted(s)
    ensures StrictlySorted(Filter(s, keep))
  {
    if s != [] {
      var init := s[..|s| - 1];
      FilterStrictlySorted(init, keep);
      FilterSubset(init, keep);
      var x := s[|s| - 1];
      var a := Filter(init, keep);
      forall k | 0 <= k < |a| ensures a[k] < x {
        assert a[k] in init;
      }
      assert Filter(s, keep) == a + (if keep(x) then [x] else []);
    }
  }

  /** A filter that keeps nothing gives the empty sequence. */
  lemma {:induction false} FilterNone<T>(s: seq<T>, keep: T -> bool)
    requires forall i :: 0 <= i < |s| ==> !keep(s[i])
    ensures Filter(s, keep) == []
  {
    if s != [] {
      FilterNone(s[..|s| - 1], keep);
    }
  }

  /** In a sorted sequence, the values below `bound` come before the others,
      so filtering by the two sides and concatenating gives the sequence back. */
  lemma {:induction false} SortedSplit(s: seq<int>, low: int -> bool, high: int -> bool, bound: int)
    requires Sorted(s)
    requires forall i :: 0 <= i < |s| ==> (low(s[i]) <==> s[i] < bound) && high(s[i]) == !low(s[i])
    ensures s == Filter(s, low) + Filter(s, high)
  {
    if s != [] {
      var init, x := s[..|s| - 1], s[|s| - 1];
      assert s == init + [x];
      if low(x) {
        assert forall i :: 0 <= i < |init| ==> init[i] <= x;
        FilterAll(init, low);
        FilterNone(init, high);
      } else {
        SortedSplit(init, low, high, bound);
      }
    }
  }

  /** Inserts `x` into a sorted sequence before the first element larger than it. */
  function Insert(x: int, s: seq<int>): (r: seq<int>)
    ensures multiset(r) == multiset(s) + multiset{x}
    ensures |r| == |s| + 1
  {
    if s == [] || x <= s[0] then [x] + s
    else
      assert s == [s[0]] + s[1..];
      [s[0]] + Insert(x, s[1..])
  }

  lemma {:induction false} InsertSorted(x: int, s: seq<int>)
    requires Sorted(s)
    ensures Sorted(Insert(x, s))
  {
    if s != [] && x > s[0] {
      InsertSorted(x, s[1..]);
      var r := Insert(x, s[1..]);
      forall k | 0 <= k < |r| ensures s[0] <= r[k] {
        assert r[k] in multiset(r);
        assert r[k] == x || r[k] in multiset(s[1..]);
      }
      assert Insert(x, s) == [s[0]] + r;
    }
  }

  /** Ascending insertion sort: the value `std::sort` leaves in the vector. */
  function Sort(s: seq<int>): (r: seq<int>)
    ensures multiset(r) == multiset(s)
    ensures |r| == |s|
  {
    if s == [] then []
    else
      assert s == s[..|s| - 1] + [s[|s| - 1]];
      Insert(s[|s| - 1], Sort(s[..|s| - 1]))
  }

  lemma {:induction false} SortSorted(s: seq<int>)
    ensures Sorted(Sort(s))
  {
    if s != [] {
      SortSorted(s[..|s| - 1]);
      InsertSorted(s[|s| - 1], Sort(s[..|s| - 1]));
    }
  }

  /** A strictly increasing sequence of `n` values drawn from `0..n-1` is `0, 1, ..., n-1`. */
  lemma {:induction false} StrictlySortedBelowIsRange(s: seq<int>, n: nat)
    requires StrictlySorted(s) && |s| == n
    requires forall x :: x in s ==> 0 <= x < n
    ensures s == seq(n, i => i)
  {
    forall i | 0 <= i < n ensures s[i] == i {
      assert s[0] in s && s[n - 1] in s;
      StrictGap(s, 0, i);
      StrictGap(s, i, n - 1);
    }
  }

  lemma {:induction false} StrictGap(s: seq<int>, i: nat, j: nat)
    requires StrictlySorted(s) && i <= j < |s|
    ensures s[j] - s[i] >= j - i
    decreases j - i
  {
    if i < j {
      StrictGap(s, i + 1, j);
    }
  }
}
