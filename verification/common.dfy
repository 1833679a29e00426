/** Small value types and sequence helpers shared by every store: an
    optional value, `Array.prototype.filter`, the id set of a list and the
    order-keeping de-duplication performed by `[...new Set(xs)]`. */
module Common {

  datatype Option<T> = None | Some(value: T)

  function Min(a: int, b: int): int { if a <= b then a else b }

  /** The elements of `s` that satisfy `p`, in their original order. */
  function Filter<T(!new)>(s: seq<T>, p: T -> bool): (r: seq<T>)
    ensures |r| <= |s|
    ensures forall x :: x in r <==> x in s && p(x)
    ensures forall i :: 0 <= i < |r| ==> p(r[i])
    decreases |s|
  {
    if s == [] then []
    else
      var init := Filter(s[..|s| - 1], p);
      assert s == s[..|s| - 1] + [s[|s| - 1]];
      if p(s[|s| - 1]) then init + [s[|s| - 1]] else init
  }

  /** Filtering only drops records: the result is a sub-multiset. */
  lemma {:induction false} FilterSubMultiset<T(!new)>(s: seq<T>, p: T -> bool)
    ensures multiset(Filter(s, p)) <= multiset(s)
    decreases |s|
  {
    if s != [] {
      assert s == s[..|s| - 1] + [s[|s| - 1]];
      FilterSubMultiset(s[..|s| - 1], p);
    }
  }

  /** One step of `Filter` on a growing prefix, the shape a `forEach` loop needs. */
  lemma FilterSnoc<T(!new)>(s: seq<T>, i: nat, p: T -> bool)
    requires i < |s|
    ensures Filter(s[..i + 1], p) == Filter(s[..i], p) + (if p(s[i]) then [s[i]] else [])
  {
    assert s[..i + 1][..i] == s[..i];
  }

  /** One step of a `forEach`/`push` loop that appends the kept records of
      `s` behind `front`. */
  lemma FilterPushStep<T(!new)>(front: seq<T>, s: seq<T>, i: nat, p: T -> bool, acc: seq<T>)
    requires i < |s| && acc == front + Filter(s[..i], p)
    ensures p(s[i]) ==> acc + [s[i]] == front + Filter(s[..i + 1], p)
    ensures !p(s[i]) ==> acc == front + Filter(s[..i + 1], p)
  {
    FilterSnoc(s, i, p);
    assert acc + [s[i]] == front + (Filter(s[..i], p) + [s[i]]);
  }

  lemma {:induction false} FilterKeepsAll<T(!new)>(s: seq<T>, p: T -> bool)
    requires forall x :: x in s ==> p(x)
    ensures Filter(s, p) == s
    decreases |s|
  {
    if s != [] {
      assert s == s[..|s| - 1] + [s[|s| - 1]];
      FilterKeepsAll(s[..|s| - 1], p);
    }
  }

  /** Filtering twice by the same predicate is filtering once. */
  lemma FilterIdempotent<T(!new)>(s: seq<T>, p: T -> bool)
    ensures Filter(Filter(s, p), p) == Filter(s, p)
  {
    FilterKeepsAll(Filter(s, p), p);
  }

  lemma {:induction false} FilterConcat<T(!new)>(a: seq<T>, b: seq<T>, p: T -> bool)
    ensures Filter(a + b, p) == Filter(a, p) + Filter(b, p)
    decreases |b|
  {
    if b == [] {
      assert a + b == a;
    } else {
      var b' := b[..|b| - 1];
      assert (a + b)[..|a + b| - 1] == a + b';
      FilterConcat(a, b', p);
    }
  }

  /** Filters by predicates that agree on every element give the same list. */
  lemma {:induction false} FilterExt<T(!new)>(s: seq<T>, p: T -> bool, q: T -> bool)
    requires forall x :: x in s ==> p(x) == q(x)
    ensures Filter(s, p) == Filter(s, q)
    decreases |s|
  {
    if s != [] {
      assert s == s[..|s| - 1] + [s[|s| - 1]];
      FilterExt(s[..|s| - 1], p, q);
    }
  }

  /** Filtering by `p` and then by `q` is filtering by their conjunction `pq`. */
  lemma {:induction false} FilterFilter<T(!new)>(s: seq<T>, p: T -> bool, q: T -> bool, pq: T -> bool)
    requires forall x :: x in s ==> pq(x) == (p(x) && q(x))
    ensures Filter(Filter(s, p), q) == Filter(s, pq)
    decreases |s|
  {
    if s != [] {
      var init := s[..|s| - 1];
      assert s == init + [s[|s| - 1]];
      FilterFilter(init, p, q, pq);
      var last := s[|s| - 1];
      if p(last) {
        FilterConcat(Filter(init, p), [last], q);
      }
    }
  }

  /** The set of values of a list (`new Set(s)`). */
  function Elements(s: seq<string>): (r: set<string>)
    ensures forall x :: x in r <==> x in s
  {
    set x | x in s
  }

  /** The set of ids of the records of `s` (`new Set(s.map(x => x.id))`). */
  function Ids<T(==,!new)>(s: seq<T>, id: T -> string): (r: set<string>)
    ensures forall x :: x in s ==> id(x) in r
    ensures forall k :: k in r ==> exists x :: x in s && id(x) == k
  {
    set x | x in s :: id(x)
  }

  /** No two positions of `s` carry the same id. */
  ghost predicate UniqueIds<T>(s: seq<T>, id: T -> string)
  {
    forall i, j :: 0 <= i < |s| && 0 <= j < |s| && id(s[i]) == id(s[j]) ==> i == j
  }

  lemma {:induction false} FilterUniqueIds<T(!new)>(s: seq<T>, p: T -> bool, id: T -> string)
    requires UniqueIds(s, id)
    ensures UniqueIds(Filter(s, p), id)
    decreases |s|
  {
    if s != [] {
      var init := s[..|s| - 1];
      assert UniqueIds(init, id);
      FilterUniqueIds(init, p, id);
      var last := s[|s| - 1];
      if p(last) {
        var f := Filter(init, p);
        forall k | 0 <= k < |f| ensures id(f[k]) != id(last) {
          assert f[k] in init;
          var j :| 0 <= j < |init| && init[j] == f[k];
          assert s[j] == f[k];
        }
      }
    }
  }

  lemma ConcatUniqueIds<T(!new)>(a: seq<T>, b: seq<T>, id: T -> string)
    requires UniqueIds(a, id) && UniqueIds(b, id)
    requires forall x, y :: x in a && y in b ==> id(x) != id(y)
    ensures UniqueIds(a + b, id)
  {
    var c := a + b;
    forall i, j | 0 <= i < |c| && 0 <= j < |c| ensures id(c[i]) == id(c[j]) ==> i == j {
      if i < |a| && j >= |a| {
        assert c[i] in a && c[j] in b;
      } else if i >= |a| && j < |a| {
        assert c[j] in a && c[i] in b;
      } else if i >= |a| {
        assert b[i - |a|] == c[i] && b[j - |a|] == c[j];
      } else {
        assert a[i] == c[i] && a[j] == c[j];
      }
    }
  }

  /** No value occurs twice in `s`. */
  ghost predicate NoDup(s: seq<string>)
  {
    forall i, j :: 0 <= i < j < |s| ==> s[i] != s[j]
  }

  /** `[...new Set(s)]`: each value once, at the position of its first occurrence. */
  function Dedup(s: seq<string>): (r: seq<string>)
    ensures NoDup(r)
    ensures forall x :: x in r <==> x in s
    ensures |r| <= |s|
    decreases |s|
  {
    if s == [] then []
    else
      var init := Dedup(s[..|s| - 1]);
      var last := s[|s| - 1];
      assert s == s[..|s| - 1] + [last];
      if last in init then init else init + [last]
  }

  /** A list without duplicates is its own de-duplication. */
  lemma {:induction false} DedupOfNoDup(s: seq<string>)
    requires NoDup(s)
    ensures Dedup(s) == s
    decreases |s|
  {
    if s != [] {
      var init := s[..|s| - 1];
      assert NoDup(init);
      DedupOfNoDup(init);
      forall j | 0 <= j < |init| ensures init[j] != s[|s| - 1] {
        assert init[j] == s[j];
      }
      assert s == init + [s[|s| - 1]];
    }
  }

  /** Re-adding a value to a list without duplicates gives the list back. */
  lemma DedupReAdd(s: seq<string>, x: string)
    requires NoDup(s) && x in s
    ensures Dedup(s + [x]) == s
  {
    DedupSnocPresent(s, x);
    DedupOfNoDup(s);
  }

  /** Adding a value that is already present changes nothing. */
  lemma DedupSnocPresent(s: seq<string>, x: string)
    requires x in s
    ensures Dedup(s + [x]) == Dedup(s)
  {
    assert (s + [x])[..|s + [x]| - 1] == s;
  }
}
