/** Types and small sequence facts shared by every component of the discovery pipeline. */
module Common {

  datatype Option<+T> = None | Some(value: T)

  datatype Result<+T, +E> = Ok(value: T) | Err(error: E)

  /** Text that a caller may pad with blanks: Python's `str.strip`, on the blank characters. */
  predicate IsBlank(c: char) {
    c == ' ' || c == '\t' || c == '\n' || c == '\r'
  }

  function TrimLeft(s: string): string {
    if s != [] && IsBlank(s[0]) then TrimLeft(s[1..]) else s
  }

  function TrimRight(s: string): string {
    if s != [] && IsBlank(s[|s| - 1]) then TrimRight(s[..|s| - 1]) else s
  }

  function Trim(s: string): string {
    TrimRight(TrimLeft(s))
  }

  predicate Distinct<T(==)>(s: seq<T>) {
    forall i, j :: 0 <= i < j < |s| ==> s[i] != s[j]
  }

  function Min(a: int, b: int): int {
    if a <= b then a else b
  }

  function Max(a: int, b: int): int {
    if a >= b then a else b
  }

  /** The set of members of a sequence of distinct items is as large as the sequence. */
  lemma {:induction false} DistinctCardinality<T>(s: seq<T>)
    requires Distinct(s)
    ensures |set x | x in s| == |s|
  {
    if s == [] {
      assert (set x | x in s) == {};
    } else {
      var front, last := s[..|s| - 1], s[|s| - 1];
      DistinctCardinality(front);
      assert s == front + [last];
      assert (set x | x in s) == (set x | x in front) + {last};
      assert last !in front;
    }
  }

  /** Two sequences with the same members, both without repetition, are permutations. */
  lemma {:induction false} DistinctMultiplicity<T>(s: seq<T>, x: T)
    requires Distinct(s)
    ensures multiset(s)[x] == if x in s then 1 else 0
  {
    if s != [] {
      var front, last := s[..|s| - 1], s[|s| - 1];
      assert s == front + [last];
      DistinctMultiplicity(front, x);
      assert last !in front;
    }
  }

  /** A permutation keeps distinctness. */
  lemma PermutationDistinct<T>(s: seq<T>, t: seq<T>)
    requires Distinct(s) && multiset(s) == multiset(t)
    ensures Distinct(t)
  {
    forall i, j | 0 <= i < j < |t| ensures t[i] != t[j] {
      if t[i] == t[j] {
        assert t == t[..i] + [t[i]] + t[i + 1..j] + [t[j]] + t[j + 1..];
        assert multiset(t)[t[i]] >= 2;
        DistinctMultiplicity(s, t[i]);
        assert false;
      }
    }
  }

  /** No two positions carry the same key. */
  predicate DistinctBy<T, K(==)>(s: seq<T>, key: T -> K) {
    forall i, j :: 0 <= i < j < |s| ==> key(s[i]) != key(s[j])
  }

  lemma DistinctByMembers<T, K>(s: seq<T>, key: T -> K, x: T, y: T)
    requires DistinctBy(s, key) && x in s && y in s && x != y
    ensures key(x) != key(y)
  {
    var i :| 0 <= i < |s| && s[i] == x;
    var j :| 0 <= j < |s| && s[j] == y;
    assert i < j || j < i;
  }

  /** A permutation keeps keys distinct. */
  lemma PermutationDistinctBy<T, K>(s: seq<T>, t: seq<T>, key: T -> K)
    requires DistinctBy(s, key) && multiset(s) == multiset(t)
    ensures DistinctBy(t, key)
  {
    assert Distinct(s) by {
      forall i, j | 0 <= i < j < |s| ensures s[i] != s[j] {
        assert key(s[i]) != key(s[j]);
      }
    }
    PermutationDistinct(s, t);
    PermutationMembers(s, t);
    forall i, j | 0 <= i < j < |t| ensures key(t[i]) != key(t[j]) {
      DistinctByMembers(s, key, t[i], t[j]);
    }
  }

  /** A permutation has the same members. */
  lemma PermutationMembers<T>(s: seq<T>, t: seq<T>)
    requires multiset(s) == multiset(t)
    ensures |s| == |t|
    ensures forall x :: x in s <==> x in t
  {
    assert |multiset(s)| == |s| && |multiset(t)| == |t|;
    forall x ensures x in s <==> x in t {
      assert x in s <==> x in multiset(s);
      assert x in t <==> x in multiset(t);
    }
  }

  /** Dropping an equal last item from two permutations leaves permutations. */
  lemma DropLast<T>(s: seq<T>, p: seq<T>)
    requires |s| == |p| > 0 && multiset(p) == multiset(s) && s[|s| - 1] == p[|p| - 1]
    ensures multiset(p[..|p| - 1]) == multiset(s[..|s| - 1])
  {
    assert s == s[..|s| - 1] + [s[|s| - 1]];
    assert p == p[..|p| - 1] + [p[|p| - 1]];
    assert multiset(p[..|p| - 1]) == multiset(p) - multiset{p[|p| - 1]};
    assert multiset(s[..|s| - 1]) == multiset(s) - multiset{s[|s| - 1]};
  }

  function Map<T, U>(s: seq<T>, f: T -> U): (r: seq<U>)
    ensures |r| == |s| && forall i :: 0 <= i < |s| ==> r[i] == f(s[i])
  {
    seq(|s|, i requires 0 <= i < |s| => f(s[i]))
  }

  lemma MapConcat<T, U>(a: seq<T>, b: seq<T>, f: T -> U)
    ensures Map(a + b, f) == Map(a, f) + Map(b, f)
  {
  }

  lemma MapLast<T, U>(s: seq<T>, f: T -> U)
    requires s != []
    ensures Map(s, f) == Map(s[..|s| - 1], f) + [f(s[|s| - 1])]
  {
  }

  lemma MiddleMember<U>(left: seq<U>, y: U, right: seq<U>)
    ensures multiset(left + [y] + right) == multiset(left + right) + multiset{y}
  {
  }

  lemma MapSplit<T, U>(s: seq<T>, i: nat, f: T -> U)
    requires i < |s|
    ensures Map(s, f) == Map(s[..i], f) + [f(s[i])] + Map(s[i + 1..], f)
  {
  }

  lemma MapWithout<T, U>(s: seq<T>, i: nat, f: T -> U)
    requires i < |s|
    ensures multiset(Map(s, f)) == multiset(Map(s[..i] + s[i + 1..], f)) + multiset{f(s[i])}
  {
    MapSplit(s, i, f);
    MapConcat(s[..i], s[i + 1..], f);
    MiddleMember(Map(s[..i], f), f(s[i]), Map(s[i + 1..], f));
  }

  lemma Without<T>(s: seq<T>, i: nat)
    requires i < |s|
    ensures multiset(s[..i] + s[i + 1..]) == multiset(s) - multiset{s[i]}
  {
    assert s == s[..i] + [s[i]] + s[i + 1..];
    MiddleMember(s[..i], s[i], s[i + 1..]);
  }

  lemma HasMember<T>(a: seq<T>, b: seq<T>, x: T) returns (i: nat)
    requires multiset(a) == multiset(b) && x in a
    ensures i < |b| && b[i] == x
  {
    assert x in multiset(a) && x in multiset(b) && x in b;
    i :| i < |b| && b[i] == x;
  }

  /** Mapping a permutation gives a permutation. */
  lemma {:induction false} MapPermutation<T, U>(a: seq<T>, b: seq<T>, f: T -> U)
    requires multiset(a) == multiset(b)
    ensures multiset(Map(a, f)) == multiset(Map(b, f))
    decreases |a|
  {
    if a == [] {
      assert |multiset(b)| == |b|;
    } else {
      var last := |a| - 1;
      var i := HasMember(a, b, a[last]);
      Without(a, last);
      Without(b, i);
      assert a[..last] + a[last + 1..] == a[..last];
      MapPermutation(a[..last], b[..i] + b[i + 1..], f);
      MapWithout(a, last, f);
      MapWithout(b, i, f);
    }
  }

  lemma MapMembers<T, U>(s: seq<T>, f: T -> U, y: U)
    ensures y in Map(s, f) <==> exists i :: 0 <= i < |s| && f(s[i]) == y
  {
  }

  // ---- Filtering ----

  function Filter<T(!new)>(s: seq<T>, wanted: T -> bool): (r: seq<T>)
    ensures forall x :: x in r <==> x in s && wanted(x)
  {
    if s == [] then []
    else Filter(s[..|s| - 1], wanted) + if wanted(s[|s| - 1]) then [s[|s| - 1]] else []
  }

  lemma {:induction false} FilterDistinct<T(!new)>(s: seq<T>, wanted: T -> bool)
    requires Distinct(s)
    ensures Distinct(Filter(s, wanted))
  {
    if s != [] {
      var front := s[..|s| - 1];
      FilterDistinct(front, wanted);
      assert s[|s| - 1] !in front;
    }
  }

  lemma {:induction false} FilterDistinctBy<T(!new), K>(s: seq<T>, wanted: T -> bool, key: T -> K)
    requires DistinctBy(s, key)
    ensures DistinctBy(Filter(s, wanted), key)
  {
    if s != [] {
      var front, last := s[..|s| - 1], s[|s| - 1];
      FilterDistinctBy(front, wanted, key);
      var kept := Filter(front, wanted);
      forall i | 0 <= i < |kept| ensures key(kept[i]) != key(last) {
        assert kept[i] in front;
        var k :| 0 <= k < |front| && front[k] == kept[i];
        assert key(s[k]) != key(s[|s| - 1]);
      }
    }
  }

  lemma SubsetIsSmaller<T>(a: set<T>, b: set<T>)
    requires a <= b
    ensures |a| <= |b|
  {
    assert |b - a| == |b| - |a|;
  }

  // ---- Steps that may fail ----

  /** A list of items, each a step that may fail; the first failure ends the run. */
  function RunSteps<C, S, E>(items: seq<C>, step: (nat, C, S) -> Result<S, E>, start: S): Result<S, E>
    decreases |items|
  {
    if items == [] then Ok(start)
    else
      var last := |items| - 1;
      var front := RunSteps(items[..last], step, start);
      if front.Err? then front else step(last, items[last], front.value)
  }

  lemma {:induction false} RunStepsEnd<C, S, E>(items: seq<C>, i: nat, step: (nat, C, S) -> Result<S, E>, start: S)
    requires i <= |items| && RunSteps(items[..i], step, start).Err?
    ensures RunSteps(items, step, start) == RunSteps(items[..i], step, start)
    decreases |items|
  {
    if i < |items| {
      var front := items[..|items| - 1];
      assert front[..i] == items[..i];
      RunStepsEnd(front, i, step, start);
    } else {
      assert items[..i] == items;
    }
  }

  lemma RunStepsNext<C, S, E>(items: seq<C>, i: nat, step: (nat, C, S) -> Result<S, E>, start: S, now: S)
    requires i < |items| && RunSteps(items[..i], step, start) == Ok(now)
    ensures RunSteps(items[..i + 1], step, start) == step(i, items[i], now)
  {
    assert items[..i + 1][..i] == items[..i];
  }
}
