/** Generic helpers shared by every component model: an Option type and
    the order-preserving `filter` of JavaScript arrays. */
module Base {

  datatype Option<+T> = None | Some(value: T)

  /** `Array.prototype.filter`: the elements of `s` that satisfy `p`, in order. */
  function Filter<T(!new)>(s: seq<T>, p: T -> bool): (r: seq<T>)
    ensures |r| <= |s|
    ensures forall x :: x in r <==> x in s && p(x)
  {
    if s == [] then []
    else if p(s[0]) then [s[0]] + Filter(s[1..], p)
    else Filter(s[1..], p)
  }

  /** Filtering distributes over concatenation: the kept elements keep
      their relative order. */
  lemma {:induction false} FilterAppend<T(!new)>(a: seq<T>, b: seq<T>, p: T -> bool)
    ensures Filter(a + b, p) == Filter(a, p) + Filter(b, p)
  {
    if a == [] {
      assert a + b == b;
    } else {
      assert (a + b)[1..] == a[1..] + b;
      FilterAppend(a[1..], b, p);
    }
  }

  /** The first occurrence of each element of `s`, in order: `s[i]` is
      kept iff it does not already occur in `s[..i]`. */
  function Dedup<T(==,!new)>(s: seq<T>): (r: seq<T>)
    ensures forall x :: x in r <==> x in s
    ensures forall i, j :: 0 <= i < j < |r| ==> r[i] != r[j]
  {
    if s == [] then []
    else
      var init, last := s[..|s| - 1], s[|s| - 1];
      assert s == init + [last];
      var d := Dedup(init);
      if last in init then d else d + [last]
  }

  /** Appending an element keeps it iff it is new. */
  lemma DedupSnoc<T(!new)>(s: seq<T>, x: T)
    ensures Dedup(s + [x]) == if x in s then Dedup(s) else Dedup(s) + [x]
  {
    assert (s + [x])[..|s|] == s;
  }

  /** Filtering with a predicate every element satisfies changes nothing. */
  lemma {:induction false} FilterKeepsAll<T(!new)>(s: seq<T>, p: T -> bool)
    requires forall x :: x in s ==> p(x)
    ensures Filter(s, p) == s
  {
    if s != [] {
      FilterKeepsAll(s[1..], p);
    }
  }

  /** Filtering with a predicate no element satisfies leaves nothing. */
  lemma {:induction false} FilterNone<T(!new)>(s: seq<T>, p: T -> bool)
    requires forall x :: x in s ==> !p(x)
    ensures Filter(s, p) == []
  {
    if s != [] {
      FilterNone(s[1..], p);
    }
  }

  /** Filtering a list without repetitions gives one without repetitions. */
  lemma {:induction false} FilterDistinct<T(!new)>(s: seq<T>, p: T -> bool)
    requires forall i, j :: 0 <= i < j < |s| ==> s[i] != s[j]
    ensures forall i, j :: 0 <= i < j < |Filter(s, p)| ==> Filter(s, p)[i] != Filter(s, p)[j]
  {
    if s != [] {
      var t := s[1..];
      assert forall i, j :: 0 <= i < j < |t| ==> t[i] != t[j] by {
        forall i, j | 0 <= i < j < |t| ensures t[i] != t[j] {
          assert t[i] == s[i + 1] && t[j] == s[j + 1];
        }
      }
      FilterDistinct(t, p);
      if p(s[0]) {
        assert s[0] !in t by {
          forall k | 0 <= k < |t| ensures t[k] != s[0] { assert t[k] == s[k + 1]; }
        }
        var r := Filter(s, p);
        assert r == [s[0]] + Filter(t, p);
        forall i, j | 0 <= i < j < |r| ensures r[i] != r[j] {
          if i == 0 { assert r[j] in Filter(t, p); }
          else { assert r[i] == Filter(t, p)[i - 1] && r[j] == Filter(t, p)[j - 1]; }
        }
      }
    }
  }

  /** Filtering twice with the same predicate is filtering once. */
  lemma FilterIdempotent<T(!new)>(s: seq<T>, p: T -> bool)
    ensures Filter(Filter(s, p), p) == Filter(s, p)
  {
    FilterKeepsAll(Filter(s, p), p);
  }

  /** Filtering with the conjunction of two predicates is filtering twice. */
  lemma {:induction false} FilterFilter<T(!new)>(s: seq<T>, p: T -> bool, q: T -> bool)
    ensures Filter(Filter(s, p), q) == Filter(s, x => p(x) && q(x))
  {
    if s != [] {
      FilterFilter(s[1..], p, q);
    }
  }

  /** The elements kept by `p` and those kept by its negation account
      for every element exactly once. */
  lemma {:induction false} FilterPartition<T(!new)>(s: seq<T>, p: T -> bool)
    ensures |Filter(s, p)| + |Filter(s, x => !p(x))| == |s|
  {
    if s != [] {
      FilterPartition(s[1..], p);
    }
  }

  /** The multiset of the kept elements is contained in that of the input. */
  lemma {:induction false} FilterSubMultiset<T(!new)>(s: seq<T>, p: T -> bool)
    ensures multiset(Filter(s, p)) <= multiset(s)
  {
    if s != [] {
      FilterSubMultiset(s[1..], p);
      assert s == [s[0]] + s[1..];
    }
  }

  /** Filtering depends only on which elements the predicate keeps. */
  lemma {:induction false} FilterSamePredicate<T(!new)>(s: seq<T>, p: T -> bool, q: T -> bool)
    requires forall x :: p(x) == q(x)
    ensures Filter(s, p) == Filter(s, q)
  {
    if s != [] {
      FilterSamePredicate(s[1..], p, q);
    }
  }
}
