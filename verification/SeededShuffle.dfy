/** The seeded Fisher-Yates primitive shared by every selector of the pipeline.

    The only randomness is the stream of digests derived from the seed; a digest is
    modelled as an arbitrary natural number per step counter. */
module SeededShuffle {
  import opened Common

  /** `counter -> first eight digest bytes`, for one seed. */
  type Digest = nat -> nat

  /** One in-range choice per step: step c swaps index n-1-c with a choice at or below it. */
  ghost predicate InRange(n: nat, choices: seq<nat>) {
    && |choices| == (if n == 0 then 0 else n - 1)
    && forall c :: 0 <= c < |choices| ==> choices[c] < n - c
  }

  /** The choices the digest stream makes: the digest modulo the number of open positions. */
  function DrawnChoices(n: nat, digest: Digest, counter: nat := 0): (r: seq<nat>)
    ensures InRange(n, r)
    ensures forall c :: 0 <= c < |r| ==> r[c] == digest(counter + c) % (n - c)
    decreases n
  {
    if n <= 1 then [] else [digest(counter) % n] + DrawnChoices(n - 1, digest, counter + 1)
  }

  function Swapped<T>(s: seq<T>, i: nat, j: nat): seq<T>
    requires i < |s| && j < |s|
  {
    s[i := s[j]][j := s[i]]
  }

  /** What the swaps produce: the chosen item goes last, the rest is shuffled with the
      remaining choices after the old last item took the chosen item's place. */
  function Shuffled<T>(s: seq<T>, choices: seq<nat>): (r: seq<T>)
    requires InRange(|s|, choices)
    ensures |r| == |s|
    decreases |s|
  {
    if |s| <= 1 then s
    else
      var last := |s| - 1;
      Shuffled(Swapped(s, last, choices[0])[..last], choices[1..]) + [s[choices[0]]]
  }

  /** The order the pipeline uses: the shuffle under the choices of one digest stream. */
  function SeededOrder<T>(s: seq<T>, digest: Digest): (r: seq<T>)
    ensures |r| == |s|
  {
    Shuffled(s, DrawnChoices(|s|, digest))
  }

  /** One swap settles one position: the open front shrinks, the settled back grows. */
  lemma ShuffleStep<T>(s: seq<T>, index: nat, choices: seq<nat>)
    requires 0 < index < |s| && InRange(index + 1, choices)
    ensures var t := Swapped(s, index, choices[0]);
            && InRange(index, choices[1..])
            && Shuffled(s[..index + 1], choices) + s[index + 1..] == Shuffled(t[..index], choices[1..]) + t[index..]
  {
    var open := s[..index + 1];
    var t := Swapped(s, index, choices[0]);
    assert Swapped(open, index, choices[0])[..index] == t[..index];
    assert t[index..] == [s[choices[0]]] + s[index + 1..];
  }

  /** The swaps still to come turn the current order into the shuffled one. */
  ghost predicate Pending<T>(items: seq<T>, all: seq<nat>, now: seq<T>, counter: nat, index: nat) {
    && index < |now| && counter <= |all| && InRange(|items|, all) && InRange(index + 1, all[counter..])
    && Shuffled(items, all) == Shuffled(now[..index + 1], all[counter..]) + now[index + 1..]
  }

  lemma PendingStarts<T>(items: seq<T>, all: seq<nat>)
    requires items != [] && InRange(|items|, all)
    ensures Pending(items, all, items, 0, |items| - 1)
  {
    assert items[..|items|] == items && all[0..] == all;
  }

  lemma PendingStep<T>(items: seq<T>, all: seq<nat>, now: seq<T>, counter: nat, index: nat)
    requires Pending(items, all, now, counter, index) && index > 0
    ensures counter < |all| && all[counter] < index + 1
    ensures Pending(items, all, Swapped(now, index, all[counter]), counter + 1, index - 1)
  {
    assert all[counter..][0] == all[counter];
    ShuffleStep(now, index, all[counter..]);
    assert all[counter..][1..] == all[counter + 1..];
  }

  lemma PendingEnds<T>(items: seq<T>, all: seq<nat>, now: seq<T>, counter: nat)
    requires Pending(items, all, now, counter, 0)
    ensures Shuffled(items, all) == now
  {
    assert now == now[..1] + now[1..];
  }

  /** The in-place swaps of the source, from the highest index down to 1. */
  method FisherYates<T>(items: seq<T>, digest: Digest) returns (ordered: array<T>)
    ensures fresh(ordered)
    ensures ordered[..] == SeededOrder(items, digest)
  {
    var n := |items|;
    ordered := new T[n](i requires 0 <= i < n => items[i]);
    assert ordered[..] == items;
    if n == 0 {
      return;
    }
    ghost var all := DrawnChoices(n, digest);
    var counter := 0;
    var index := n - 1;
    PendingStarts(items, all);
    while index > 0
      invariant 0 <= index < n && counter == n - 1 - index
      invariant Pending(items, all, ordered[..], counter, index)
    {
      ghost var before := ordered[..];
      var choice := digest(counter) % (index + 1);
      PendingStep(items, all, before, counter, index);
      ordered[index], ordered[choice] := ordered[choice], ordered[index];
      assert ordered[..] == Swapped(before, index, choice);
      counter := counter + 1;
      index := index - 1;
    }
    PendingEnds(items, all, ordered[..], counter);
  }

  lemma SwapKeepsMembers<T>(s: seq<T>, i: nat, j: nat)
    requires i < |s| && j < |s|
    ensures multiset(Swapped(s, i, j)) == multiset(s)
  {
  }

  /** No item is lost, invented or repeated, whatever the choices. */
  lemma {:induction false} ShuffleIsPermutation<T>(s: seq<T>, choices: seq<nat>)
    requires InRange(|s|, choices)
    ensures multiset(Shuffled(s, choices)) == multiset(s)
    decreases |s|
  {
    if |s| > 1 {
      var last := |s| - 1;
      var moved := Swapped(s, last, choices[0]);
      SwapKeepsMembers(s, last, choices[0]);
      assert moved == moved[..last] + [s[choices[0]]];
      ShuffleIsPermutation(moved[..last], choices[1..]);
    }
  }

  /** Different choices give different orders of a list of distinct items. */
  lemma {:induction false} ShuffleInjective<T>(s: seq<T>, c: seq<nat>, d: seq<nat>)
    requires Distinct(s) && InRange(|s|, c) && InRange(|s|, d)
    requires Shuffled(s, c) == Shuffled(s, d)
    ensures c == d
    decreases |s|
  {
    if |s| > 1 {
      var last := |s| - 1;
      var rc := Shuffled(Swapped(s, last, c[0])[..last], c[1..]);
      var rd := Shuffled(Swapped(s, last, d[0])[..last], d[1..]);
      assert Shuffled(s, c)[last] == s[c[0]] && Shuffled(s, d)[last] == s[d[0]];
      assert c[0] == d[0];
      assert rc == Shuffled(s, c)[..last] && rd == Shuffled(s, d)[..last];
      SwapKeepsMembers(s, last, c[0]);
      PermutationDistinct(s, Swapped(s, last, c[0]));
      ShuffleInjective(Swapped(s, last, c[0])[..last], c[1..], d[1..]);
      assert c == [c[0]] + c[1..] && d == [d[0]] + d[1..];
    }
  }

  /** The choices that lead to a given order: the inverse of the shuffle. */
  ghost function ChoicesFor<T>(s: seq<T>, p: seq<T>): (choices: seq<nat>)
    requires Distinct(s) && multiset(p) == multiset(s)
    ensures InRange(|s|, choices)
    ensures Shuffled(s, choices) == p
    decreases |s|
  {
    SameLength(s, p);
    if |s| <= 1 then
      if |s| == 1 then SingletonPermutation(s, p); [] else []
    else
      LastIsMember(s, p);
      var j: nat :| j < |s| && s[j] == p[|p| - 1];
      var front := Swapped(s, |s| - 1, j)[..|s| - 1];
      MovedFront(s, p, j);
      var rest := ChoicesFor(front, p[..|p| - 1]);
      ShuffleCons(s, j, rest);
      [j] + rest
  }

  lemma SameLength<T>(s: seq<T>, p: seq<T>)
    requires multiset(p) == multiset(s)
    ensures |p| == |s|
  {
    assert |multiset(p)| == |p| && |multiset(s)| == |s|;
  }

  /** Once the chosen item has gone last, the rest is still a permutation of distinct items. */
  lemma MovedFront<T>(s: seq<T>, p: seq<T>, j: nat)
    requires Distinct(s) && multiset(p) == multiset(s) && |p| == |s| > 1 && j < |s| && s[j] == p[|p| - 1]
    ensures var front := Swapped(s, |s| - 1, j)[..|s| - 1];
            Distinct(front) && multiset(p[..|p| - 1]) == multiset(front) && p == p[..|p| - 1] + [s[j]]
  {
    var moved := Swapped(s, |s| - 1, j);
    SwapKeepsMembers(s, |s| - 1, j);
    PermutationDistinct(s, moved);
    FrontDistinct(moved);
    DropLast(moved, p);
  }

  lemma ShuffleCons<T>(s: seq<T>, j: nat, rest: seq<nat>)
    requires j < |s| && |s| > 1 && InRange(|s| - 1, rest)
    ensures InRange(|s|, [j] + rest)
    ensures Shuffled(s, [j] + rest) == Shuffled(Swapped(s, |s| - 1, j)[..|s| - 1], rest) + [s[j]]
  {
    assert ([j] + rest)[1..] == rest;
  }

  lemma FrontDistinct<T>(s: seq<T>)
    requires |s| > 0 && Distinct(s)
    ensures Distinct(s[..|s| - 1])
  {
  }

  lemma SingletonPermutation<T>(s: seq<T>, p: seq<T>)
    requires |s| == |p| == 1 && multiset(p) == multiset(s)
    ensures p == s
  {
    assert p[0] in multiset(p);
    assert p[0] in multiset(s);
    assert p[0] in s;
  }

  lemma LastIsMember<T>(s: seq<T>, p: seq<T>)
    requires |s| == |p| > 0 && multiset(p) == multiset(s)
    ensures exists j: nat :: j < |s| && s[j] == p[|p| - 1]
  {
    assert p[|p| - 1] in multiset(p);
    assert p[|p| - 1] in s;
  }

  /** Bijection: every order of a list of distinct items arises from exactly one sequence of
      in-range choices, and every sequence of in-range choices gives an order. */
  lemma ShuffleIsBijection<T>(s: seq<T>, p: seq<T>)
    requires Distinct(s)
    ensures (exists c :: InRange(|s|, c) && Shuffled(s, c) == p) <==> multiset(p) == multiset(s)
    ensures forall c, d :: InRange(|s|, c) && InRange(|s|, d) && Shuffled(s, c) == p && Shuffled(s, d) == p ==> c == d
  {
    if multiset(p) == multiset(s) {
      assert Shuffled(s, ChoicesFor(s, p)) == p;
    }
    if c :| InRange(|s|, c) && Shuffled(s, c) == p {
      ShuffleIsPermutation(s, c);
    }
    forall c, d | InRange(|s|, c) && InRange(|s|, d) && Shuffled(s, c) == p && Shuffled(s, d) == p
      ensures c == d
    {
      ShuffleInjective(s, c, d);
    }
  }

  lemma SeededOrderIsPermutation<T>(s: seq<T>, digest: Digest)
    ensures multiset(SeededOrder(s, digest)) == multiset(s)
    ensures |SeededOrder(s, digest)| == |s|
    ensures forall x :: x in SeededOrder(s, digest) <==> x in s
    ensures Distinct(s) ==> Distinct(SeededOrder(s, digest))
  {
    ShuffleIsPermutation(s, DrawnChoices(|s|, digest));
    PermutationMembers(s, SeededOrder(s, digest));
    if Distinct(s) {
      PermutationDistinct(s, SeededOrder(s, digest));
    }
  }

  /** The digests that draw given choices. */
  function DigestOf(choices: seq<nat>): Digest {
    (c: nat) => if c < |choices| then choices[c] else 0
  }

  lemma DigestDraws(n: nat, choices: seq<nat>, digest: Digest)
    requires InRange(n, choices) && forall c: nat :: digest(c) == DigestOf(choices)(c)
    ensures DrawnChoices(n, digest) == choices
  {
    var drawn := DrawnChoices(n, digest);
    forall c: nat | c < |drawn| ensures drawn[c] == choices[c] {
      assert digest(c) == DigestOf(choices)(c) == choices[c];
      assert drawn[c] == digest(0 + c) % (n - c);
      SmallRemainder(choices[c], n - c);
    }
  }

  lemma SmallRemainder(x: nat, n: nat)
    requires x < n
    ensures x % n == x
  {
  }

  /** Every order of a list of distinct items is the seeded order of some digest stream. */
  lemma EveryOrderArises<T>(s: seq<T>, p: seq<T>) returns (choices: seq<nat>)
    requires Distinct(s) && multiset(p) == multiset(s)
    ensures InRange(|s|, choices) && Shuffled(s, choices) == p && SeededOrder(s, DigestOf(choices)) == p
  {
    choices := ChoicesFor(s, p);
    DigestDraws(|s|, choices, DigestOf(choices));
  }
}
