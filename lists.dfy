/** Sequence operations the source takes from its runtimes: JavaScript's
    `Array.prototype.filter`, the stable `Array.prototype.sort` with a
    comparator, and the `ORDER BY` a query applies, stated over `seq`. */
module Lists {
  import opened Common

  /** `s.filter(keep)`: the elements that pass, in their original order. */
  function Filter<T(!new)>(s: seq<T>, keep: T -> bool): (r: seq<T>)
    ensures |r| <= |s|
    ensures forall k :: 0 <= k < |r| ==> keep(r[k])
  {
    if s == [] then []
    else if keep(s[0]) then [s[0]] + Filter(s[1..], keep)
    else Filter(s[1..], keep)
  }

  /** Filtering keeps every occurrence of a kept value and drops every other. */
  lemma {:induction false} FilterCount<T(!new)>(s: seq<T>, keep: T -> bool, x: T)
    ensures multiset(Filter(s, keep))[x] == if keep(x) then multiset(s)[x] else 0
  {
    if s != [] {
      FilterCount(s[1..], keep, x);
      assert s == [s[0]] + s[1..];
    }
  }

  /** A filter that keeps everything is the identity. */
  lemma {:induction false} FilterAll<T(!new)>(s: seq<T>, keep: T -> bool)
    requires forall x :: x in s ==> keep(x)
    ensures Filter(s, keep) == s
  {
    if s != [] {
      FilterAll(s[1..], keep);
    }
  }

  /** Replacing one element trades one occurrence of the old value for one
      of the new. */
  lemma UpdateMultiset<T>(s: seq<T>, i: nat, v: T)
    requires i < |s|
    ensures multiset(s[i := v]) == multiset(s) - multiset{s[i]} + multiset{v}
  {
    assert s == s[..i] + [s[i]] + s[i + 1..];
    assert s[i := v] == s[..i] + [v] + s[i + 1..];
  }

  /** Replacing one element changes the filtered elements by that element
      alone: the old value leaves if it was kept, the new one joins if it is. */
  lemma FilterUpdateCount<T(!new)>(s: seq<T>, i: nat, v: T, keep: T -> bool)
    requires i < |s|
    ensures multiset(Filter(s[i := v], keep)) ==
              multiset(Filter(s, keep))
              - (if keep(s[i]) then multiset{s[i]} else multiset{})
              + (if keep(v) then multiset{v} else multiset{})
  {
    UpdateMultiset(s, i, v);
    var lhs := multiset(Filter(s[i := v], keep));
    var rhs := multiset(Filter(s, keep))
               - (if keep(s[i]) then multiset{s[i]} else multiset{})
               + (if keep(v) then multiset{v} else multiset{});
    forall x
      ensures lhs[x] == rhs[x]
    {
      FilterCount(s[i := v], keep, x);
      FilterCount(s, keep, x);
    }
    assert lhs == rhs;
  }

  /** Replacing an element the filter drops by another it drops leaves the
      filtered sequence as it was. */
  lemma {:induction false} FilterIgnoresDropped<T(!new)>(s: seq<T>, i: nat, v: T, keep: T -> bool)
    requires i < |s| && !keep(s[i]) && !keep(v)
    ensures Filter(s[i := v], keep) == Filter(s, keep)
  {
    if i == 0 {
      assert s[i := v][1..] == s[1..];
    } else {
      FilterIgnoresDropped(s[1..], i - 1, v, keep);
      assert s[i := v][1..] == s[1..][i - 1 := v];
    }
  }

  /** The position of the first element satisfying `p`, as `Array.prototype.find`
      and `findIndex` locate it. */
  function FirstIndex<T>(s: seq<T>, p: T -> bool): (r: Option<nat>)
    ensures r.None? <==> forall k :: 0 <= k < |s| ==> !p(s[k])
    ensures r.Some? ==> r.value < |s| && p(s[r.value])
                        && forall k :: 0 <= k < r.value ==> !p(s[k])
  {
    if s == [] then None
    else if p(s[0]) then Some(0)
    else match FirstIndex(s[1..], p)
      case None => None
      case Some(i) => Some(i + 1)
  }

  /** `le(a, b)`: `a` may come before `b`. A comparator that sorts consistently
      is total and transitive. */
  ghost predicate TotalPreorder<T(!new)>(le: (T, T) -> bool) {
    && (forall a, b :: le(a, b) || le(b, a))
    && (forall a, b, c :: le(a, b) && le(b, c) ==> le(a, c))
  }

  predicate SortedBy<T>(s: seq<T>, le: (T, T) -> bool) {
    forall i, j :: 0 <= i < j < |s| ==> le(s[i], s[j])
  }

  /** Places `x` before the first element it may precede. */
  function Insert<T>(x: T, r: seq<T>, le: (T, T) -> bool): (t: seq<T>)
    ensures |t| == |r| + 1
  {
    if r == [] || le(x, r[0]) then [x] + r
    else [r[0]] + Insert(x, r[1..], le)
  }

  lemma {:induction false} InsertPermutes<T>(x: T, r: seq<T>, le: (T, T) -> bool)
    ensures multiset(Insert(x, r, le)) == multiset(r) + multiset{x}
  {
    if r != [] && !le(x, r[0]) {
      InsertPermutes(x, r[1..], le);
      assert r == [r[0]] + r[1..];
    }
  }

  /** A stable sort: each element is inserted, from the back, before the
      elements it may precede, so elements the comparator ties keep their
      relative order, as in JavaScript's stable `sort`. */
  function SortBy<T>(s: seq<T>, le: (T, T) -> bool): (r: seq<T>)
    ensures |r| == |s|
  {
    if s == [] then [] else Insert(s[0], SortBy(s[1..], le), le)
  }

  /** The sort returns the same elements, each as often as before. */
  lemma {:induction false} SortByPermutes<T>(s: seq<T>, le: (T, T) -> bool)
    ensures multiset(SortBy(s, le)) == multiset(s)
  {
    if s != [] {
      SortByPermutes(s[1..], le);
      InsertPermutes(s[0], SortBy(s[1..], le), le);
      assert s == [s[0]] + s[1..];
    }
  }

  lemma {:induction false} InsertSorted<T(!new)>(x: T, r: seq<T>, le: (T, T) -> bool)
    requires TotalPreorder(le) && SortedBy(r, le)
    ensures SortedBy(Insert(x, r, le), le)
  {
    if r != [] && !le(x, r[0]) {
      InsertSorted(x, r[1..], le);
      InsertPermutes(x, r[1..], le);
      var t := Insert(x, r[1..], le);
      assert Insert(x, r, le) == [r[0]] + t;
      forall k | 0 <= k < |t| ensures le(r[0], t[k]) {
        assert t[k] in multiset(t);
        assert t[k] in multiset(r[1..]) + multiset{x};
        if t[k] in multiset(r[1..]) {
          var j :| 0 <= j < |r[1..]| && r[1..][j] == t[k];
          assert r[1 + j] == t[k];
        }
      }
    }
  }

  /** The sort orders its result by the comparator. */
  lemma {:induction false} SortBySorted<T(!new)>(s: seq<T>, le: (T, T) -> bool)
    requires TotalPreorder(le)
    ensures SortedBy(SortBy(s, le), le)
  {
    if s != [] {
      SortBySorted(s[1..], le);
      InsertSorted(s[0], SortBy(s[1..], le), le);
    }
  }

  /** A comparator that ties every pair (the `default: return 0` branch)
      leaves the sequence as it was. */
  lemma {:induction false} SortByAllTied<T>(s: seq<T>, le: (T, T) -> bool)
    requires forall a, b :: le(a, b)
    ensures SortBy(s, le) == s
  {
    if s != [] {
      SortByAllTied(s[1..], le);
    }
  }

  /** Inserting `x` into `a + b`, where `x` may precede no element of `a` and
      may precede the head of `b`, puts it between the two. */
  lemma {:induction false} InsertBetween<T>(x: T, a: seq<T>, b: seq<T>, le: (T, T) -> bool)
    requires forall k :: 0 <= k < |a| ==> !le(x, a[k])
    requires b == [] || le(x, b[0])
    ensures Insert(x, a + b, le) == a + [x] + b
  {
    if a != [] {
      assert (a + b)[0] == a[0] && (a + b)[1..] == a[1..] + b;
      InsertBetween(x, a[1..], b, le);
    }
  }

  lemma ConcatAssoc<T>(a: seq<T>, b: seq<T>, c: seq<T>)
    ensures a + b + c == a + (b + c)
  {
  }

  /** Appending an element the sequence lacks keeps every element once. */
  lemma AppendNew<T>(s: seq<T>, x: T)
    requires forall e :: multiset(s)[e] <= 1
    requires x !in s
    ensures forall e :: multiset(s + [x])[e] <= 1
  {
    assert multiset(s + [x]) == multiset(s) + multiset{x};
  }

  /** The complement of a filter predicate. */
  function Negate<T(!new)>(p: T -> bool): (q: T -> bool)
    ensures forall x :: q(x) == !p(x)
  {
    x => !p(x)
  }

  /** With a comparator that only puts the `top` elements before the others,
      the stable sort is the `top` elements followed by the rest, each group
      in its original order. */
  lemma {:induction false} SortByTwoClasses<T(!new)>(s: seq<T>, le: (T, T) -> bool, top: T -> bool)
    requires forall a, b :: le(a, b) == (top(a) || !top(b))
    ensures SortBy(s, le) == Filter(s, top) + Filter(s, Negate(top))
  {
    if s == [] {
      assert Filter(s, top) + Filter(s, Negate(top)) == [];
    } else {
      var t := s[1..];
      SortByTwoClasses(t, le, top);
      var hi, lo := Filter(t, top), Filter(t, Negate(top));
      var sorted := Insert(s[0], hi + lo, le);
      assert SortBy(s, le) == sorted;
      if top(s[0]) {
        assert hi + lo == [] || le(s[0], (hi + lo)[0]);
        assert sorted == [s[0]] + (hi + lo);
        ConcatAssoc([s[0]], hi, lo);
        assert Filter(s, top) == [s[0]] + hi;
        assert Filter(s, Negate(top)) == lo;
      } else {
        forall k | 0 <= k < |hi| ensures !le(s[0], hi[k]) {
          assert top(hi[k]);
        }
        assert lo == [] || !top(lo[0]);
        InsertBetween(s[0], hi, lo, le);
        ConcatAssoc(hi, [s[0]], lo);
        assert Filter(s, top) == hi;
        assert Filter(s, Negate(top)) == [s[0]] + lo;
      }
    }
  }
}
