/** The two-slot selection rule: one candidate per mint, no two latest-only picks while another
    category is available, and a seeded round robin over the other categories. */
module CategoricalSelection {
  import opened Common
  import opened Ordering
  import opened SeededShuffle

  const GRADUATED_LIFECYCLE := "PUMPSWAP_GRADUATED_CONFIRMED"
  const PUMPSWAP_MARKET_PREFIX := "solana-mainnet:pumpswap:"

  datatype Channel =
    | LatestPumpfun | LatestGraduatedChannel
    | ActivePumpfun | TrendingPumpfun | TopPumpfun
    | PersistedGraduatedChannel | PersistedActive
    | RevivalPumpfun | DumpPumpfun | ConsolidationPumpfun | DecayPumpfun
    | OtherChannel(text: string)

  datatype Category = LatestGraduated | Active | Trending | Top | PersistedGraduated | Revival | Dump | Consolidation | Decay

  const ALL_CATEGORIES: seq<Category> :=
    [LatestGraduated, Active, Trending, Top, PersistedGraduated, Revival, Dump, Consolidation, Decay]

  function CategoryOf(channel: Channel): Category {
    match channel
    case LatestPumpfun | LatestGraduatedChannel => LatestGraduated
    case ActivePumpfun => Active
    case TrendingPumpfun => Trending
    case TopPumpfun => Top
    case PersistedGraduatedChannel | PersistedActive => PersistedGraduated
    case RevivalPumpfun => Revival
    case DumpPumpfun => Dump
    case ConsolidationPumpfun => Consolidation
    case DecayPumpfun => Decay
    case OtherChannel(_) => Top
  }

  function NonLatestCategories(channels: set<Channel>): set<Category> {
    set c | c in channels && CategoryOf(c) != LatestGraduated :: CategoryOf(c)
  }

  /** The categories that compete with the latest graduates: those of the other channels. */
  lemma NonLatestExactly(channels: set<Channel>, category: Category)
    ensures category in NonLatestCategories(channels)
            <==> category != LatestGraduated && exists c :: c in channels && CategoryOf(c) == category
    ensures NonLatestCategories(channels) == {} <==> channels <= {LatestPumpfun, LatestGraduatedChannel}
  {
    forall c | c in channels && c !in {LatestPumpfun, LatestGraduatedChannel} ensures CategoryOf(c) in NonLatestCategories(channels) {
      assert CategoryOf(c) != LatestGraduated;
    }
  }

  datatype Token = Token(mint: string, market: string, lifecycle: string, channels: set<Channel>, conflicted: bool)

  predicate Graduated(t: Token) {
    !t.conflicted && t.lifecycle == GRADUATED_LIFECYCLE && PUMPSWAP_MARKET_PREFIX <= t.market
  }

  function MintOf(t: Token): string {
    t.mint
  }

  // ---- One candidate per mint ----

  /** Mints in the order of their first appearance. */
  function UniqueMints(tokens: seq<Token>): (r: seq<string>)
    ensures Distinct(r)
    ensures forall m :: m in r <==> Seen(tokens, m)
  {
    if tokens == [] then []
    else
      var front := UniqueMints(tokens[..|tokens| - 1]);
      if tokens[|tokens| - 1].mint in front then front else front + [tokens[|tokens| - 1].mint]
  }

  predicate Precedes(a: Token, b: Token) {
    |a.channels| > |b.channels| || (|a.channels| == |b.channels| && a.market != b.market && StrLe(a.market, b.market))
  }

  /** The first of the items that sort lowest by (more channels, market). */
  function Chosen(group: seq<Token>): (r: Token)
    requires group != []
    ensures r in group
    decreases |group|
  {
    if |group| == 1 then group[0]
    else
      var front := Chosen(group[..|group| - 1]);
      if Precedes(group[|group| - 1], front) then group[|group| - 1] else front
  }

  /** More channels, or as many and no higher market. */
  predicate AtLeast(a: Token, b: Token) {
    |a.channels| > |b.channels| || (|a.channels| == |b.channels| && StrLe(a.market, b.market))
  }

  predicate Ties(a: Token, b: Token) {
    |a.channels| == |b.channels| && a.market == b.market
  }

  /** The first of the candidates of a mint that have the most channels and, among those, the lowest market. */
  predicate FirstBest(group: seq<Token>, j: nat) {
    && j < |group|
    && (forall k :: 0 <= k < |group| ==> AtLeast(group[j], group[k]))
    && forall k :: 0 <= k < j ==> !Ties(group[k], group[j])
  }

  lemma {:induction false} ChosenIsBest(group: seq<Token>) returns (j: nat)
    requires group != []
    ensures FirstBest(group, j) && Chosen(group) == group[j]
    decreases |group|
  {
    if |group| == 1 {
      j := 0;
      RanksCompare(group[0], group[0], group[0]);
    } else {
      var front, last := group[..|group| - 1], group[|group| - 1];
      j := ChosenIsBest(front);
      assert group == front + [last];
      RanksCompare(last, front[j], front[j]);
      if Precedes(last, front[j]) {
        NewBest(front, j, last);
        j := |front|;
      }
    }
  }

  /** What precedes another is at least as good as everything that one is at least as good as, and ties with none of it. */
  lemma RanksCompare(a: Token, b: Token, c: Token)
    ensures AtLeast(a, a) && (Precedes(a, b) || AtLeast(b, a))
    ensures Precedes(a, b) && AtLeast(b, c) ==> AtLeast(a, c) && !Ties(c, a)
  {
    StrLeTotal(a.market, a.market);
    StrLeTotal(a.market, b.market);
    if Precedes(a, b) && AtLeast(b, c) && |a.channels| == |b.channels| == |c.channels| {
      StrLeTransitive(a.market, b.market, c.market);
      if c.market == a.market {
        StrLeAntisymmetric(a.market, b.market);
      }
    }
  }

  lemma NewBest(front: seq<Token>, j: nat, last: Token)
    requires FirstBest(front, j) && Precedes(last, front[j])
    ensures FirstBest(front + [last], |front|)
  {
    forall k | 0 <= k < |front| ensures AtLeast(last, front[k]) && !Ties(front[k], last) {
      RanksCompare(last, front[j], front[k]);
    }
    RanksCompare(last, last, last);
  }

  function AllChannels(group: seq<Token>): set<Channel> {
    set t, c | t in group && c in t.channels :: c
  }

  function GroupOf(tokens: seq<Token>, mint: string): (r: seq<Token>)
    ensures forall t :: t in r <==> t in tokens && t.mint == mint
  {
    Filter(tokens, (t: Token) => t.mint == mint)
  }

  predicate Seen(tokens: seq<Token>, mint: string) {
    exists i :: 0 <= i < |tokens| && tokens[i].mint == mint
  }

  function CollapsedMint(tokens: seq<Token>, mint: string): (r: Token)
    requires Seen(tokens, mint)
    ensures r.mint == mint
  {
    var group := GroupOf(tokens, mint);
    assert group != [] by {
      var i :| 0 <= i < |tokens| && tokens[i].mint == mint;
      assert tokens[i] in group;
    }
    Chosen(group).(channels := AllChannels(group))
  }

  function Collapse(tokens: seq<Token>): (r: seq<Token>)
    ensures DistinctBy(r, MintOf)
    ensures forall t :: t in r ==> Seen(tokens, t.mint) && t == CollapsedMint(tokens, t.mint)
  {
    var mints := UniqueMints(tokens);
    seq(|mints|, i requires 0 <= i < |mints| => CollapsedMint(tokens, mints[i]))
  }

  /** A collapsed candidate is one of its mint's candidates, with the channels of all of them. */
  lemma CollapsedFromMembers(tokens: seq<Token>, t: Token)
    requires t in Collapse(tokens)
    ensures exists u :: u in tokens && u.mint == t.mint && u.market == t.market && u.lifecycle == t.lifecycle && u.conflicted == t.conflicted
    ensures forall c :: c in t.channels <==> exists u :: u in tokens && u.mint == t.mint && c in u.channels
  {
    var group := GroupOf(tokens, t.mint);
    var i :| 0 <= i < |tokens| && tokens[i].mint == t.mint;
    assert tokens[i] in group;
    var chosen := Chosen(group);
    assert chosen in tokens && chosen.mint == t.mint && t == chosen.(channels := AllChannels(group));
  }

  /** Which of them: the one with the most channels of its own, then with the lowest market, then the first. */
  lemma CollapsedIsBest(tokens: seq<Token>, t: Token) returns (j: nat)
    requires t in Collapse(tokens)
    ensures var group := Filter(tokens, (u: Token) => u.mint == t.mint);
            FirstBest(group, j) && t == group[j].(channels := t.channels)
  {
    CollapsedFromMembers(tokens, t);
    var i :| 0 <= i < |tokens| && tokens[i].mint == t.mint;
    assert tokens[i] in GroupOf(tokens, t.mint);
    j := ChosenIsBest(GroupOf(tokens, t.mint));
  }

  // ---- Seeded picks ----

  type SeededDigest = (string, nat) -> nat

  function TokenKey(t: Token): seq<string> {
    ["solana-mainnet:" + t.mint, t.market, t.lifecycle]
  }

  function Take<T>(s: seq<T>, n: int): seq<T> {
    if n <= 0 then [] else if n <= |s| then s[..n] else s
  }

  function UniformPick(tokens: seq<Token>, seed: string, domain: string, digest: SeededDigest, count: int): seq<Token> {
    if count <= 0 || tokens == [] then []
    else Take(SeededOrder(SortBy(tokens, ByKey(TokenKey)), counter => digest(seed + "|" + domain, counter)), count)
  }

  lemma PickIsDistinctMembers(tokens: seq<Token>, seed: string, domain: string, digest: SeededDigest, count: int)
    requires DistinctBy(tokens, MintOf)
    ensures var r := UniformPick(tokens, seed, domain, digest, count);
            && |r| == Max(0, Min(count, |tokens|))
            && (forall t :: t in r ==> t in tokens)
            && DistinctBy(r, MintOf)
  {
    if count > 0 && tokens != [] {
      var sorted := SortBy(tokens, ByKey(TokenKey));
      var order := SeededOrder(sorted, counter => digest(seed + "|" + domain, counter));
      SortIsPermutation(tokens, ByKey(TokenKey));
      SeededOrderIsPermutation(sorted, counter => digest(seed + "|" + domain, counter));
      PermutationDistinctBy(tokens, order, MintOf);
    }
  }

  /** For one seed a pick is a function of the set of candidates, not of the order they come in. */
  lemma PickIgnoresOrder(a: seq<Token>, b: seq<Token>, seed: string, domain: string, digest: SeededDigest, count: int)
    requires multiset(a) == multiset(b) && DistinctBy(a, MintOf)
    ensures UniformPick(a, seed, domain, digest, count) == UniformPick(b, seed, domain, digest, count)
  {
    ByKeyIsComparison(TokenKey);
    PermutationMembers(a, b);
    forall c, d | c in a && d in a && TokenKey(c) == TokenKey(d) ensures c == d {
      assert TokenKey(c)[0] == TokenKey(d)[0];
      SameIdentity(c, d);
      if c != d {
        DistinctByMembers(a, MintOf, c, d);
      }
    }
    SortIgnoresArrivalOrder(a, b, ByKey(TokenKey));
  }

  lemma SameIdentity(c: Token, d: Token)
    requires "solana-mainnet:" + c.mint == "solana-mainnet:" + d.mint
    ensures c.mint == d.mint
  {
    assert ("solana-mainnet:" + c.mint)[15..] == c.mint && ("solana-mainnet:" + d.mint)[15..] == d.mint;
  }

  // ---- Round robin over the other categories ----

  /** The hash of `seed|category|name`, as text. */
  type CategoryDigest = (string, Category) -> string

  function NameOf(c: Category): string {
    match c
    case LatestGraduated => "LATEST_GRADUATED"
    case Active => "ACTIVE"
    case Trending => "TRENDING"
    case Top => "TOP"
    case PersistedGraduated => "PERSISTED_GRADUATED"
    case Revival => "REVIVAL"
    case Dump => "DUMP"
    case Consolidation => "CONSOLIDATION"
    case Decay => "DECAY"
  }

  function CategoryKey(seed: string, digest: CategoryDigest): Category -> seq<string> {
    c => [digest(seed, c), NameOf(c)]
  }

  function CategoriesOf(tokens: seq<Token>): set<Category> {
    set t, c | t in tokens && c in NonLatestCategories(t.channels) :: c
  }

  function Listed(categories: set<Category>): seq<Category> {
    Filter(ALL_CATEGORIES, c => c in categories)
  }

  function CategoryOrder(categories: set<Category>, seed: string, digest: CategoryDigest): seq<Category> {
    SortBy(Listed(categories), ByKey(CategoryKey(seed, digest)))
  }

  function RoundRobin(order: seq<Category>, batchSeq: int): (r: Category)
    requires order != []
    ensures r in order
  {
    order[(Max(batchSeq, 1) - 1) % |order|]
  }

  lemma EveryCategoryListed(c: Category)
    ensures c in ALL_CATEGORIES
  {
    assert ALL_CATEGORIES[0] == LatestGraduated && ALL_CATEGORIES[1] == Active && ALL_CATEGORIES[2] == Trending
        && ALL_CATEGORIES[3] == Top && ALL_CATEGORIES[4] == PersistedGraduated && ALL_CATEGORIES[5] == Revival
        && ALL_CATEGORIES[6] == Dump && ALL_CATEGORIES[7] == Consolidation && ALL_CATEGORIES[8] == Decay;
  }

  lemma CategoryOrderIsArrangement(categories: set<Category>, seed: string, digest: CategoryDigest)
    ensures Distinct(CategoryOrder(categories, seed, digest))
    ensures forall c :: c in CategoryOrder(categories, seed, digest) <==> c in categories
  {
    var listed := Listed(categories);
    FilterDistinct(ALL_CATEGORIES, c => c in categories);
    SortIsPermutation(listed, ByKey(CategoryKey(seed, digest)));
    forall c ensures c in listed <==> c in categories {
      EveryCategoryListed(c);
    }
  }

  lemma Remainder(k: nat, q: nat, r: nat)
    requires r < k
    ensures (q * k + r) % k == r
  {
    var x := q * k + r;
    var d, m := x / k, x % k;
    assert d * k + m == q * k + r;
    if d > q {
      Multiples(q + 1, d, k);
    } else if d < q {
      Multiples(d + 1, q, k);
    }
  }

  lemma Multiples(a: nat, b: nat, k: nat)
    requires a <= b
    ensures a * k <= b * k && (a + 1) * k == a * k + k
  {
  }

  lemma ConsecutiveTurns(k: nat, start: nat, i: nat)
    requires 0 < k && i < k
    ensures (start + i) % k == if start % k + i < k then start % k + i else start % k + i - k
  {
    var q, r := start / k, start % k;
    assert start == q * k + r;
    if r + i < k {
      Remainder(k, q, r + i);
    } else {
      Multiples(q, q, k);
      Remainder(k, q + 1, r + i - k);
    }
  }

  /** The turns of as many consecutive batches as there are categories. */
  function Turns(order: seq<Category>, firstSeq: int): seq<Category>
    requires order != []
  {
    seq(|order|, i requires 0 <= i < |order| => RoundRobin(order, firstSeq + i))
  }

  lemma TurnsAreRotation(order: seq<Category>, firstSeq: int)
    requires order != [] && firstSeq >= 1
    ensures var r := (firstSeq - 1) % |order|; Turns(order, firstSeq) == order[r..] + order[..r]
  {
    var k, r := |order|, (firstSeq - 1) % |order|;
    forall i | 0 <= i < k ensures Turns(order, firstSeq)[i] == (order[r..] + order[..r])[i] {
      var at := if r + i < k then r + i else r + i - k;
      ConsecutiveTurns(k, firstSeq - 1, i);
      assert firstSeq + i - 1 == firstSeq - 1 + i;
      assert RoundRobin(order, firstSeq + i) == order[at];
      assert (order[r..] + order[..r])[i] == order[at];
    }
  }

  /** Any k consecutive batches, from the first one on, give each of the k categories exactly one turn. */
  lemma EveryCategoryGetsOneTurn(order: seq<Category>, firstSeq: int)
    requires order != [] && Distinct(order) && firstSeq >= 1
    ensures multiset(Turns(order, firstSeq)) == multiset(order) && Distinct(Turns(order, firstSeq))
  {
    var r := (firstSeq - 1) % |order|;
    TurnsAreRotation(order, firstSeq);
    assert order == order[..r] + order[r..];
    PermutationDistinct(order, Turns(order, firstSeq));
  }

  function TurnOf(categories: set<Category>, seed: string, digest: CategoryDigest, batchSeq: int): Option<Category> {
    var order := CategoryOrder(categories, seed, digest);
    if order == [] then None else Some(RoundRobin(order, batchSeq))
  }

  /** The turns of consecutive batches, each under the seed of its own cycle. */
  function SeededTurns(categories: set<Category>, seeds: seq<string>, digest: CategoryDigest, firstSeq: int): seq<Option<Category>> {
    seq(|seeds|, i requires 0 <= i < |seeds| => TurnOf(categories, seeds[i], digest, firstSeq + i))
  }

  lemma AgreeingSeedsTurn(categories: set<Category>, seeds: seq<string>, digest: CategoryDigest, order: seq<Category>, firstSeq: int)
    requires order != [] && |seeds| == |order|
    requires forall i :: 0 <= i < |seeds| ==> CategoryOrder(categories, seeds[i], digest) == order
    ensures SeededTurns(categories, seeds, digest, firstSeq) == Map(Turns(order, firstSeq), c => Some(c))
  {
  }

  lemma OptionsOf(s: seq<Category>)
    ensures Distinct(s) ==> Distinct(Map(s, c => Some(c)))
    ensures forall c :: c in s <==> Some(c) in Map(s, c => Some(c))
  {
    var r := Map(s, c => Some(c));
    forall c ensures c in s <==> Some(c) in r {
      if c in s {
        var i :| 0 <= i < |s| && s[i] == c;
        assert r[i] == Some(c);
      }
      if Some(c) in r {
        var i :| 0 <= i < |r| && r[i] == Some(c);
        assert s[i] == c;
      }
    }
  }

  /** With one seed per cycle: k consecutive cycles whose seeds order the k categories alike give each
      of them exactly one turn. */
  lemma SeedsThatAgreeAreFair(categories: set<Category>, seeds: seq<string>, digest: CategoryDigest, firstSeq: int)
    requires |seeds| == |categories| > 0 && firstSeq >= 1
    requires forall i :: 0 <= i < |seeds| ==> CategoryOrder(categories, seeds[i], digest) == CategoryOrder(categories, seeds[0], digest)
    ensures Distinct(SeededTurns(categories, seeds, digest, firstSeq))
    ensures forall c :: c in categories <==> Some(c) in SeededTurns(categories, seeds, digest, firstSeq)
  {
    var order := CategoryOrder(categories, seeds[0], digest);
    CategoryOrderIsArrangement(categories, seeds[0], digest);
    assert (set c | c in order) == categories;
    DistinctCardinality(order);
    EveryCategoryGetsOneTurn(order, firstSeq);
    PermutationMembers(order, Turns(order, firstSeq));
    AgreeingSeedsTurn(categories, seeds, digest, order, firstSeq);
    OptionsOf(Turns(order, firstSeq));
  }

  /** Two categories come in the order of their hashes. */
  lemma OrderOfTwo(x: Category, y: Category, seed: string, digest: CategoryDigest)
    requires x != y
    ensures CategoryOrder({x, y}, seed, digest) == if ByKey(CategoryKey(seed, digest))(x, y) then [x, y] else [y, x]
  {
    var order, le := CategoryOrder({x, y}, seed, digest), ByKey(CategoryKey(seed, digest));
    CategoryOrderIsArrangement({x, y}, seed, digest);
    ByKeyIsComparison(CategoryKey(seed, digest));
    SortIsSorted(Listed({x, y}), le);
    NotBothWays(x, y, seed, digest);
    TwoSorted(order, x, y, le);
  }

  lemma TwoSorted(order: seq<Category>, x: Category, y: Category, le: (Category, Category) -> bool)
    requires x != y && Distinct(order) && Sorted(order, le) && forall c :: c in order <==> c in {x, y}
    requires le(x, y) != le(y, x)
    ensures order == if le(x, y) then [x, y] else [y, x]
  {
    assert (set c | c in order) == {x, y} && |{x, y}| == 2;
    DistinctCardinality(order);
    assert order[0] in order && order[1] in order && le(order[0], order[1]);
  }

  lemma NamesDiffer(x: Category, y: Category)
    requires x != y
    ensures NameOf(x) != NameOf(y)
  {
  }

  lemma NotBothWays(x: Category, y: Category, seed: string, digest: CategoryDigest)
    requires x != y
    ensures !(ByKey(CategoryKey(seed, digest))(x, y) && ByKey(CategoryKey(seed, digest))(y, x))
  {
    var key := CategoryKey(seed, digest);
    NamesDiffer(x, y);
    assert key(x)[1] == NameOf(x) && key(y)[1] == NameOf(y);
    ByKeyIsComparison(key);
  }

  /** Cycle seeds change with every batch. Of two categories, two consecutive batches give each one
      turn exactly when the seeds of the two cycles order the hashes of the categories alike. */
  lemma TurnsNeedOneSeed(x: Category, y: Category, first: string, second: string, digest: CategoryDigest, n: int)
    requires x != y && n >= 1
    ensures TurnOf({x, y}, first, digest, n) != TurnOf({x, y}, second, digest, n + 1)
            <==> CategoryOrder({x, y}, first, digest) == CategoryOrder({x, y}, second, digest)
    ensures CategoryOrder({x, y}, first, digest) == CategoryOrder({x, y}, second, digest)
            <==> (ByKey(CategoryKey(first, digest))(x, y) <==> ByKey(CategoryKey(second, digest))(x, y))
  {
    OrderOfTwo(x, y, first, digest);
    OrderOfTwo(x, y, second, digest);
    assert [x, y][0] != [y, x][0];
    assert (n - 1) % 2 + n % 2 == 1;
  }

  /** Hashes of 64 digits under which the seeds of two cycles disagree about two categories. */
  function OpposedDigest(): CategoryDigest {
    (seed: string, c: Category) => seq(64, _ => if (seed == "first") == (c == Active) then '0' else 'f')
  }

  lemma ACategoryTakesBothTurns()
    ensures TurnOf({Active, Trending}, "first", OpposedDigest(), 1) == TurnOf({Active, Trending}, "second", OpposedDigest(), 2)
  {
    OpposedKeys("first", Active, Trending);
    OpposedKeys("second", Trending, Active);
    NotBothWays(Active, Trending, "second", OpposedDigest());
    assert "first"[0] != "second"[0];
    TurnsNeedOneSeed(Active, Trending, "first", "second", OpposedDigest(), 1);
  }

  lemma OpposedKeys(seed: string, x: Category, y: Category)
    requires OpposedDigest()(seed, x) == seq(64, _ => '0') && OpposedDigest()(seed, y) == seq(64, _ => 'f')
    ensures ByKey(CategoryKey(seed, OpposedDigest()))(x, y)
  {
    var low, high := OpposedDigest()(seed, x), OpposedDigest()(seed, y);
    assert low[0] == '0' && high[0] == 'f';
    assert CategoryKey(seed, OpposedDigest())(x) == [low, NameOf(x)] && CategoryKey(seed, OpposedDigest())(y) == [high, NameOf(y)];
  }

  // ---- The two-slot rule ----

  predicate LatestOnly(t: Token) {
    NonLatestCategories(t.channels) == {}
  }

  function LatestPart(tokens: seq<Token>): (r: seq<Token>)
    ensures forall t :: t in r <==> t in tokens && LatestOnly(t)
  {
    Filter(tokens, (t: Token) => LatestOnly(t))
  }

  function OtherPart(tokens: seq<Token>): (r: seq<Token>)
    ensures forall t :: t in r <==> t in tokens && !LatestOnly(t)
  {
    Filter(tokens, (t: Token) => !LatestOnly(t))
  }

  function MembersOf(tokens: seq<Token>, category: Category): (r: seq<Token>)
    ensures forall t :: t in r <==> t in tokens && category in NonLatestCategories(t.channels)
  {
    Filter(tokens, (t: Token) => category in NonLatestCategories(t.channels))
  }

  function TwoSlot(tokens: seq<Token>, seed: string, batchSeq: int, vacancies: int, digest: SeededDigest, category: CategoryDigest): seq<Token> {
    if tokens == [] then []
    else
      var latestOnly := LatestPart(tokens);
      var nonLatest := OtherPart(tokens);
      if vacancies == 1 then UniformPick(tokens, seed, "single", digest, 1)
      else if latestOnly != [] && nonLatest != [] && vacancies >= 2 then
        var first := UniformPick(latestOnly, seed, "LATEST_GRADUATED", digest, 1);
        var order := CategoryOrder(CategoriesOf(nonLatest), seed, category);
        if order == [] then first
        else
          var turn := RoundRobin(order, batchSeq);
          var members := MembersOf(nonLatest, turn);
          first + UniformPick(members, seed, NameOf(turn), digest, 1)
      else UniformPick(if nonLatest != [] then nonLatest else latestOnly, seed, "SINGLE_CATEGORY", digest, vacancies)
  }

  function Select(eligible: seq<Token>, seed: string, batchSeq: int, vacancies: int, digest: SeededDigest, category: CategoryDigest): seq<Token> {
    if vacancies <= 0 then []
    else TwoSlot(Collapse(GraduatedPart(eligible)), seed, batchSeq, vacancies, digest, category)
  }

  /** One latest-only and one other token, the latter of the category whose turn it is. */
  ghost predicate OneOfEach(r: seq<Token>, turn: Category) {
    |r| == 2 && LatestOnly(r[0]) && !LatestOnly(r[1]) && turn in NonLatestCategories(r[1].channels)
  }

  ghost predicate Within(tokens: seq<Token>, r: seq<Token>, vacancies: int) {
    |r| <= vacancies && DistinctBy(r, MintOf) && forall t :: t in r ==> t in tokens
  }

  lemma SinglePicked(tokens: seq<Token>, seed: string, batchSeq: int, digest: SeededDigest, category: CategoryDigest)
    requires DistinctBy(tokens, MintOf)
    ensures var r := TwoSlot(tokens, seed, batchSeq, 1, digest, category); Within(tokens, r, 1) && |r| == Min(1, |tokens|)
  {
    PickIsDistinctMembers(tokens, seed, "single", digest, 1);
  }

  lemma OneKindPicked(tokens: seq<Token>, seed: string, batchSeq: int, vacancies: int, digest: SeededDigest, category: CategoryDigest)
    requires DistinctBy(tokens, MintOf) && vacancies >= 2 && (LatestPart(tokens) == [] || OtherPart(tokens) == [])
    ensures var r := TwoSlot(tokens, seed, batchSeq, vacancies, digest, category); Within(tokens, r, vacancies) && |r| == Min(vacancies, |tokens|)
  {
    FilterDistinctBy(tokens, (t: Token) => LatestOnly(t), MintOf);
    FilterDistinctBy(tokens, (t: Token) => !LatestOnly(t), MintOf);
    PickIsDistinctMembers(if OtherPart(tokens) != [] then OtherPart(tokens) else LatestPart(tokens), seed, "SINGLE_CATEGORY", digest, vacancies);
    OneKind(tokens);
  }

  /** The rule: distinct candidates within the vacancies; with two vacancies and both kinds
      available, exactly one latest-only token and one token of the category whose turn it is;
      otherwise as many as the only kind allows. */
  lemma TwoSlotRule(tokens: seq<Token>, seed: string, batchSeq: int, vacancies: int, digest: SeededDigest, category: CategoryDigest)
    requires DistinctBy(tokens, MintOf) && vacancies > 0
    ensures var r := TwoSlot(tokens, seed, batchSeq, vacancies, digest, category);
            var order := CategoryOrder(CategoriesOf(OtherPart(tokens)), seed, category);
            var both := vacancies >= 2 && LatestPart(tokens) != [] && OtherPart(tokens) != [];
            && Within(tokens, r, vacancies)
            && if both then order != [] && OneOfEach(r, RoundRobin(order, batchSeq)) else |r| == Min(vacancies, |tokens|)
  {
    if vacancies == 1 {
      SinglePicked(tokens, seed, batchSeq, digest, category);
    } else if LatestPart(tokens) != [] && OtherPart(tokens) != [] {
      OneOfEachPicked(tokens, seed, batchSeq, vacancies, digest, category);
    } else {
      OneKindPicked(tokens, seed, batchSeq, vacancies, digest, category);
    }
  }

  /** When one kind is missing, the other kind is everything. */
  lemma {:induction false} OneKind(tokens: seq<Token>)
    ensures |LatestPart(tokens)| + |OtherPart(tokens)| == |tokens|
  {
    if tokens != [] {
      OneKind(tokens[..|tokens| - 1]);
    }
  }

  /** The category whose turn it is has members. */
  lemma TurnHasMembers(others: seq<Token>, seed: string, batchSeq: int, category: CategoryDigest)
    requires others != [] && forall t :: t in others ==> !LatestOnly(t)
    ensures var order := CategoryOrder(CategoriesOf(others), seed, category);
            order != [] && MembersOf(others, RoundRobin(order, batchSeq)) != []
  {
    var order := CategoryOrder(CategoriesOf(others), seed, category);
    CategoryOrderIsArrangement(CategoriesOf(others), seed, category);
    assert others[0] in others;
    var some :| some in NonLatestCategories(others[0].channels);
    assert some in CategoriesOf(others) && some in order;
    var turn := RoundRobin(order, batchSeq);
    assert turn in CategoriesOf(others);
    var t :| t in others && turn in NonLatestCategories(t.channels);
    assert t in MembersOf(others, turn);
  }

  lemma PickOne(tokens: seq<Token>, seed: string, domain: string, digest: SeededDigest) returns (t: Token)
    requires tokens != [] && DistinctBy(tokens, MintOf)
    ensures t in tokens && UniformPick(tokens, seed, domain, digest, 1) == [t]
  {
    PickIsDistinctMembers(tokens, seed, domain, digest, 1);
    var r := UniformPick(tokens, seed, domain, digest, 1);
    t := r[0];
    assert r == [t];
  }

  lemma OneOfEachPicked(tokens: seq<Token>, seed: string, batchSeq: int, vacancies: int, digest: SeededDigest, category: CategoryDigest)
    requires DistinctBy(tokens, MintOf) && vacancies >= 2 && LatestPart(tokens) != [] && OtherPart(tokens) != []
    ensures var order, r := CategoryOrder(CategoriesOf(OtherPart(tokens)), seed, category), TwoSlot(tokens, seed, batchSeq, vacancies, digest, category);
            order != [] && OneOfEach(r, RoundRobin(order, batchSeq)) && Within(tokens, r, vacancies)
  {
    var latest, others := LatestPart(tokens), OtherPart(tokens);
    FilterDistinctBy(tokens, (t: Token) => LatestOnly(t), MintOf);
    FilterDistinctBy(tokens, (t: Token) => !LatestOnly(t), MintOf);
    TurnHasMembers(others, seed, batchSeq, category);
    var turn := RoundRobin(CategoryOrder(CategoriesOf(others), seed, category), batchSeq);
    FilterDistinctBy(others, (t: Token) => turn in NonLatestCategories(t.channels), MintOf);
    var a := PickOne(latest, seed, "LATEST_GRADUATED", digest);
    var b := PickOne(MembersOf(others, turn), seed, NameOf(turn), digest);
    assert TwoSlot(tokens, seed, batchSeq, vacancies, digest, category) == [a] + [b];
    PairIsLawful(tokens, a, b, turn, vacancies);
  }

  lemma PairIsLawful(tokens: seq<Token>, a: Token, b: Token, turn: Category, vacancies: int)
    requires DistinctBy(tokens, MintOf) && a in LatestPart(tokens) && b in MembersOf(OtherPart(tokens), turn) && vacancies >= 2
    ensures OneOfEach([a] + [b], turn) && Within(tokens, [a] + [b], vacancies)
  {
    DistinctByMembers(tokens, MintOf, a, b);
  }

  function GraduatedPart(eligible: seq<Token>): (r: seq<Token>)
    ensures forall t :: t in r <==> t in eligible && Graduated(t)
  {
    Filter(eligible, (t: Token) => Graduated(t))
  }

  lemma CollapsedIsGraduated(eligible: seq<Token>, t: Token)
    requires t in Collapse(GraduatedPart(eligible))
    ensures Graduated(t) && exists u :: u in eligible && Graduated(u) && u.mint == t.mint && u.market == t.market
  {
    CollapsedFromMembers(GraduatedPart(eligible), t);
  }

  lemma CollapseNonEmpty(tokens: seq<Token>)
    requires tokens != []
    ensures Collapse(tokens) != []
  {
    assert Seen(tokens, tokens[0].mint);
    assert tokens[0].mint in UniqueMints(tokens);
  }

  /** Selection only ever returns graduated candidates, at most one per mint, within the vacancies. */
  lemma SelectionIsLawful(eligible: seq<Token>, seed: string, batchSeq: int, vacancies: int, digest: SeededDigest, category: CategoryDigest)
    ensures var r := Select(eligible, seed, batchSeq, vacancies, digest, category);
            && |r| <= Max(vacancies, 0) && DistinctBy(r, MintOf)
            && (forall t :: t in r ==> Graduated(t) && exists u :: u in eligible && Graduated(u) && u.mint == t.mint && u.market == t.market)
            && (r != [] <==> vacancies > 0 && exists u :: u in eligible && Graduated(u))
    ensures forall t :: Graduated(t)
              <==> !t.conflicted && t.lifecycle == "PUMPSWAP_GRADUATED_CONFIRMED" && "solana-mainnet:pumpswap:" <= t.market
  {
    if vacancies > 0 {
      var graduated := GraduatedPart(eligible);
      TwoSlotRule(Collapse(graduated), seed, batchSeq, vacancies, digest, category);
      forall t | t in Collapse(graduated) ensures Graduated(t) && exists u :: u in eligible && Graduated(u) && u.mint == t.mint && u.market == t.market {
        CollapsedIsGraduated(eligible, t);
      }
      if graduated != [] {
        assert graduated[0] in graduated;
        CollapseNonEmpty(graduated);
      } else {
        assert Collapse(graduated) == [];
      }
    }
  }

  lemma TwoSlotSize(tokens: seq<Token>, seed: string, batchSeq: int, digest: SeededDigest, category: CategoryDigest)
    requires DistinctBy(tokens, MintOf)
    ensures |TwoSlot(tokens, seed, batchSeq, 2, digest, category)| == Min(2, |tokens|)
  {
    TwoSlotRule(tokens, seed, batchSeq, 2, digest, category);
    OneKind(tokens);
  }

  /** Two vacancies are filled as far as there are mints with a graduated candidate. */
  lemma SelectionSize(eligible: seq<Token>, seed: string, batchSeq: int, digest: SeededDigest, category: CategoryDigest)
    ensures |Select(eligible, seed, batchSeq, 2, digest, category)| == Min(2, |UniqueMints(GraduatedPart(eligible))|)
  {
    var collapsed := Collapse(GraduatedPart(eligible));
    assert |collapsed| == |UniqueMints(GraduatedPart(eligible))|;
    TwoSlotSize(collapsed, seed, batchSeq, digest, category);
  }
}
