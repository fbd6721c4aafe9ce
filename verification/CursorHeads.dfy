/** Cursor heads of candidate acquisition: each namespace's advancing ranges chain without gaps
    across executions. */
module CursorHeads {
  import opened Common

  datatype Direction = Forward | Backward

  datatype Continuity = Contiguous | Gapped | UnknownContinuity | BlockedContract

  datatype Namespace = Namespace(address: string, pin: string, decoder: string, direction: Direction)

  datatype Boundary = Boundary(slot: Option<int>, signature: Option<string>)

  datatype Cursor = Cursor(
    namespace: Namespace, start: Boundary, end: Boundary, continuity: Continuity, advanced: bool,
    unresolvedReason: Option<string>, mode: string)

  /** One normalized observation, as far as cursors are concerned. */
  datatype RangeItem = RangeItem(ordinal: int, cursor: Option<Cursor>)

  /** A persisted range is identified by execution, round and content. */
  datatype RangeId = RangeId(execution: string, ordinal: int, cursor: Cursor)

  datatype Head = Head(boundary: Boundary, lastRange: RangeId, lastExecution: string, version: nat)

  type Heads = map<Namespace, Head>

  datatype CursorError = NamespaceRangeConflict | StartMismatch | AdvancedPastUnresolvedEvidence | EndBoundaryRequired | RangeNotPersisted

  // ---- Validation against the current heads ----

  /** The range a namespace speaks with: its first one, in item order. */
  function FirstRange(items: seq<RangeItem>, ns: Namespace): (r: Option<Cursor>)
    ensures r.Some? ==> r.value.namespace == ns
    ensures r.None? <==> forall i :: 0 <= i < |items| && items[i].cursor.Some? ==> items[i].cursor.value.namespace != ns
    ensures r.Some? ==> exists i :: 0 <= i < |items| && items[i].cursor == r
  {
    if items == [] then None
    else
      var earlier, last := FirstRange(items[..|items| - 1], ns), items[|items| - 1].cursor;
      if earlier.Some? then earlier else if last.Some? && last.value.namespace == ns then last else None
  }

  predicate StartsAtHead(heads: Heads, c: Cursor) {
    c.namespace in heads ==> c.start == heads[c.namespace].boundary
  }

  /** Within one execution a namespace has one range, and it starts at the current head. */
  ghost predicate RangesFit(heads: Heads, items: seq<RangeItem>) {
    FitSoFar(heads, items, |items|)
  }

  // ---- Advancing ----

  /** A range row is written for the first cursor of each round. */
  predicate Persisted(items: seq<RangeItem>, i: nat)
    requires i < |items|
  {
    items[i].cursor.Some? && forall k :: 0 <= k < i && items[k].ordinal == items[i].ordinal ==> items[k].cursor.None?
  }

  predicate RangePersisted(items: seq<RangeItem>, ordinal: int, c: Cursor) {
    exists i :: 0 <= i < |items| && Persisted(items, i) && items[i].ordinal == ordinal && items[i].cursor == Some(c)
  }

  function NextVersion(heads: Heads, ns: Namespace): nat {
    if ns in heads then heads[ns].version + 1 else 1
  }

  function HeadAt(heads: Heads, execution: string, item: RangeItem): Head
    requires item.cursor.Some?
  {
    var c := item.cursor.value;
    Head(c.end, RangeId(execution, item.ordinal, c), execution, NextVersion(heads, c.namespace))
  }

  /** One advance of a namespace: a range and the execution that committed it. */
  datatype Advance = Advance(execution: string, cursor: Cursor)

  function LogOf(log: seq<Advance>, ns: Namespace): (r: seq<Advance>)
    ensures forall a :: a in r ==> a in log && a.cursor.namespace == ns
  {
    if log == [] then []
    else LogOf(log[..|log| - 1], ns) + if log[|log| - 1].cursor.namespace == ns then [log[|log| - 1]] else []
  }

  /** Each range starts exactly where the one before it ended, and only contiguous ranges advance. */
  ghost predicate Chain(advances: seq<Advance>) {
    && (forall i :: 0 <= i < |advances| ==> advances[i].cursor.continuity == Contiguous && advances[i].cursor.advanced)
    && (forall i :: 0 < i < |advances| ==> advances[i].cursor.start == advances[i - 1].cursor.end)
  }

  /** The head of a namespace is the end of its last advance, and its version their number. */
  ghost predicate HeadFollows(heads: Heads, advances: seq<Advance>, ns: Namespace) {
    if advances == [] then ns !in heads
    else
      && ns in heads
      && heads[ns].version == |advances|
      && heads[ns].boundary == advances[|advances| - 1].cursor.end
      && heads[ns].lastExecution == advances[|advances| - 1].execution
  }

  ghost predicate NamespaceChained(heads: Heads, log: seq<Advance>, ns: Namespace) {
    Chain(LogOf(log, ns)) && HeadFollows(heads, LogOf(log, ns), ns)
  }

  ghost predicate Chained(heads: Heads, log: seq<Advance>) {
    forall ns :: NamespaceChained(heads, log, ns)
  }

  lemma LogAppend(log: seq<Advance>, a: Advance, ns: Namespace)
    ensures LogOf(log + [a], ns) == if a.cursor.namespace == ns then LogOf(log, ns) + [a] else LogOf(log, ns)
  {
    assert (log + [a])[..|log|] == log;
  }

  lemma OtherNamespaceKept(heads: Heads, log: seq<Advance>, ns: Namespace, a: Advance, head: Head)
    requires NamespaceChained(heads, log, ns) && a.cursor.namespace != ns
    ensures NamespaceChained(heads[a.cursor.namespace := head], log + [a], ns)
  {
    LogAppend(log, a, ns);
  }

  lemma ChainExtends(advances: seq<Advance>, a: Advance)
    requires Chain(advances) && a.cursor.continuity == Contiguous && a.cursor.advanced
    requires advances != [] ==> a.cursor.start == advances[|advances| - 1].cursor.end
    ensures Chain(advances + [a])
  {
  }

  lemma HeadExtends(heads: Heads, advances: seq<Advance>, execution: string, item: RangeItem)
    requires item.cursor.Some? && HeadFollows(heads, advances, item.cursor.value.namespace)
    ensures var c := item.cursor.value;
            HeadFollows(heads[c.namespace := HeadAt(heads, execution, item)], advances + [Advance(execution, c)], c.namespace)
  {
  }

  lemma OwnNamespaceExtended(heads: Heads, log: seq<Advance>, execution: string, item: RangeItem)
    requires item.cursor.Some? && NamespaceChained(heads, log, item.cursor.value.namespace)
    requires var c := item.cursor.value; StartsAtHead(heads, c) && c.continuity == Contiguous && c.advanced
    ensures var c := item.cursor.value;
            NamespaceChained(heads[c.namespace := HeadAt(heads, execution, item)], log + [Advance(execution, c)], c.namespace)
  {
    var c := item.cursor.value;
    var advances := LogOf(log, c.namespace);
    LogAppend(log, Advance(execution, c), c.namespace);
    ChainExtends(advances, Advance(execution, c));
    HeadExtends(heads, advances, execution, item);
  }

  /** An advance from the current head extends the chain of its namespace and no other. */
  lemma AdvanceKeepsChain(heads: Heads, log: seq<Advance>, execution: string, item: RangeItem)
    requires Chained(heads, log) && item.cursor.Some?
    requires var c := item.cursor.value; StartsAtHead(heads, c) && c.continuity == Contiguous && c.advanced
    ensures Chained(heads[item.cursor.value.namespace := HeadAt(heads, execution, item)], log + [Advance(execution, item.cursor.value)])
  {
    var c := item.cursor.value;
    var after, longer := heads[c.namespace := HeadAt(heads, execution, item)], log + [Advance(execution, c)];
    forall ns ensures NamespaceChained(after, longer, ns) {
      assert NamespaceChained(heads, log, ns) && NamespaceChained(heads, log, c.namespace);
      if ns == c.namespace {
        OwnNamespaceExtended(heads, log, execution, item);
      } else {
        OtherNamespaceKept(heads, log, ns, Advance(execution, c), HeadAt(heads, execution, item));
      }
    }
  }

  predicate SpeaksFirst(items: seq<RangeItem>, i: nat)
    requires i < |items|
  {
    items[i].cursor.Some? && FirstRange(items[..i], items[i].cursor.value.namespace).None?
  }

  /** A boundary without a slot and without a signature, or with an empty one. */
  predicate NoEnd(b: Boundary) {
    b.slot.None? && (b.signature.None? || b.signature.value == "")
  }

  /** What an advancing range must satisfy: contiguous, with an end, and itself the range its round
      persisted (two namespaces cannot both advance in one round). */
  predicate Advanceable(items: seq<RangeItem>, item: RangeItem) {
    && item.cursor.Some? && item.cursor.value.continuity == Contiguous
    && (item.cursor.value.end.slot.Some? || (item.cursor.value.end.signature.Some? && item.cursor.value.end.signature.value != ""))
    && RangePersisted(items, item.ordinal, item.cursor.value)
  }

  /** The first reason, if any, why an advancing range must not move its head. */
  function AdvanceProblem(items: seq<RangeItem>, item: RangeItem): (r: Option<CursorError>)
    requires item.cursor.Some?
    ensures r.None? <==> Advanceable(items, item)
  {
    var c := item.cursor.value;
    if c.continuity != Contiguous then Some(AdvancedPastUnresolvedEvidence)
    else if NoEnd(c.end) then Some(EndBoundaryRequired)
    else if !RangePersisted(items, item.ordinal, c) then Some(RangeNotPersisted)
    else None
  }

  ghost predicate Committable(items: seq<RangeItem>, n: nat)
    requires n <= |items|
  {
    forall i: nat :: i < n && SpeaksFirst(items, i) && items[i].cursor.value.advanced ==> Advanceable(items, items[i])
  }

  ghost predicate SeenExactly(seen: set<Namespace>, items: seq<RangeItem>) {
    forall ns :: ns in seen <==> FirstRange(items, ns).Some?
  }

  ghost predicate UnseenKept(before: Heads, heads: Heads, seen: set<Namespace>) {
    forall ns :: ns !in seen ==> (ns in heads <==> ns in before) && (ns in heads ==> heads[ns] == before[ns])
  }

  /** The advances one execution makes: the advancing first ranges, in item order. */
  function AdvancesOf(execution: string, items: seq<RangeItem>): seq<Advance>
    decreases |items|
  {
    if items == [] then []
    else
      var last := |items| - 1;
      AdvancesOf(execution, items[..last])
      + if SpeaksFirst(items, last) && items[last].cursor.value.advanced then [Advance(execution, items[last].cursor.value)] else []
  }

  /** The state of the advancing loop before item i. */
  ghost predicate Advanced(execution: string, items: seq<RangeItem>, i: nat, before: Heads, heads: Heads, seen: set<Namespace>) {
    i <= |items| && SeenExactly(seen, items[..i]) && UnseenKept(before, heads, seen) && Committable(items, i)
  }

  lemma SilentItem(execution: string, items: seq<RangeItem>, i: nat, before: Heads, heads: Heads, seen: set<Namespace>)
    requires Advanced(execution, items, i, before, heads, seen) && i < |items|
    requires items[i].cursor.None? || items[i].cursor.value.namespace in seen
    ensures Advanced(execution, items, i + 1, before, heads, seen)
    ensures AdvancesOf(execution, items[..i + 1]) == AdvancesOf(execution, items[..i])
  {
    assert items[..i + 1][..i] == items[..i];
    assert !SpeaksFirst(items, i);
  }

  lemma Speaks(items: seq<RangeItem>, i: nat, seen: set<Namespace>)
    requires i < |items| && SeenExactly(seen, items[..i])
    requires items[i].cursor.Some? && items[i].cursor.value.namespace !in seen
    ensures SpeaksFirst(items, i) && SeenExactly(seen + {items[i].cursor.value.namespace}, items[..i + 1])
  {
    assert items[..i + 1][..i] == items[..i];
  }

  lemma AdvancesExtend(execution: string, items: seq<RangeItem>, i: nat)
    requires i < |items| && SpeaksFirst(items, i)
    ensures AdvancesOf(execution, items[..i + 1])
         == AdvancesOf(execution, items[..i]) + (if items[i].cursor.value.advanced then [Advance(execution, items[i].cursor.value)] else [])
  {
    assert items[..i + 1][..i] == items[..i];
  }

  lemma StillAtHead(before: Heads, heads: Heads, seen: set<Namespace>, items: seq<RangeItem>, i: nat)
    requires RangesFit(before, items) && UnseenKept(before, heads, seen) && i < |items|
    requires items[i].cursor.Some? && items[i].cursor.value.namespace !in seen
    ensures StartsAtHead(heads, items[i].cursor.value)
  {
    assert ItemFits(before, items, i);
  }

  lemma SpeakingItem(execution: string, items: seq<RangeItem>, i: nat, before: Heads, heads: Heads, seen: set<Namespace>)
    requires Advanced(execution, items, i, before, heads, seen) && i < |items| && RangesFit(before, items)
    requires items[i].cursor.Some? && items[i].cursor.value.namespace !in seen
    ensures var c := items[i].cursor.value;
            && StartsAtHead(heads, c) && SpeaksFirst(items, i) && SeenExactly(seen + {c.namespace}, items[..i + 1])
            && AdvancesOf(execution, items[..i + 1]) == AdvancesOf(execution, items[..i]) + (if c.advanced then [Advance(execution, c)] else [])
            && (c.advanced ==> Advanceable(items, items[i])) == Committable(items, i + 1)
  {
    Speaks(items, i, seen);
    AdvancesExtend(execution, items, i);
    StillAtHead(before, heads, seen, items, i);
  }

  /** The map of the validating loop: each namespace seen, with the range it spoke with. */
  ghost predicate Recorded(seen: map<Namespace, Cursor>, items: seq<RangeItem>) {
    forall ns :: FirstRange(items, ns) == if ns in seen then Some(seen[ns]) else None
  }

  ghost predicate ItemFits(heads: Heads, items: seq<RangeItem>, i: nat)
    requires i < |items|
  {
    items[i].cursor.Some? ==>
      StartsAtHead(heads, items[i].cursor.value) && FirstRange(items, items[i].cursor.value.namespace) == items[i].cursor
  }

  ghost predicate FitSoFar(heads: Heads, items: seq<RangeItem>, n: nat)
    requires n <= |items|
  {
    forall i: nat :: i < n ==> ItemFits(heads, items, i)
  }

  /** One item of the validating loop: what its namespace speaks with over the whole list. */
  lemma RecordStep(heads: Heads, seen: map<Namespace, Cursor>, items: seq<RangeItem>, i: nat)
    requires i < |items| && Recorded(seen, items[..i])
    ensures items[i].cursor.None? ==> Recorded(seen, items[..i + 1]) && ItemFits(heads, items, i)
    ensures items[i].cursor.Some? ==>
              var c := items[i].cursor.value;
              && Recorded(if c.namespace in seen then seen else seen[c.namespace := c], items[..i + 1])
              && (ItemFits(heads, items, i) <==> StartsAtHead(heads, c) && (c.namespace in seen ==> seen[c.namespace] == c))
  {
    assert items[..i + 1][..i] == items[..i];
    if items[i].cursor.Some? {
      FirstRangeStays(items, i + 1, |items|, items[i].cursor.value.namespace);
    }
  }

  lemma {:induction false} FirstRangeStays(items: seq<RangeItem>, i: nat, j: nat, ns: Namespace)
    requires i <= j <= |items|
    ensures FirstRange(items[..i], ns).Some? ==> FirstRange(items[..j], ns) == FirstRange(items[..i], ns)
    ensures j == |items| ==> items[..j] == items
    decreases j
  {
    if i < j {
      FirstRangeStays(items, i, j - 1, ns);
      assert items[..j][..j - 1] == items[..j - 1];
    }
  }

  // ---- Two namespaces in one round ----

  /** A round persists one range row, so two namespaces can never both advance in it. */
  lemma OneAdvancePerRound(items: seq<RangeItem>, i: nat, j: nat)
    requires i < j < |items| && items[i].ordinal == items[j].ordinal
    requires SpeaksFirst(items, i) && items[i].cursor.value.advanced
    requires SpeaksFirst(items, j) && items[j].cursor.value.advanced
    ensures !Committable(items, |items|)
  {
    SpeakersDiffer(items, i, j);
    var ordinal, c, d := items[i].ordinal, items[i].cursor.value, items[j].cursor.value;
    if RangePersisted(items, ordinal, c) && RangePersisted(items, ordinal, d) {
      OneRangePerRound(items, ordinal, c, d);
    }
  }

  lemma SpeakersDiffer(items: seq<RangeItem>, i: nat, j: nat)
    requires i < j < |items| && SpeaksFirst(items, i) && SpeaksFirst(items, j)
    ensures items[i].cursor.value.namespace != items[j].cursor.value.namespace
  {
    assert items[..j][i] == items[i];
  }

  lemma OneRangePerRound(items: seq<RangeItem>, ordinal: int, c: Cursor, d: Cursor)
    requires RangePersisted(items, ordinal, c) && RangePersisted(items, ordinal, d)
    ensures c == d
  {
    var a :| 0 <= a < |items| && Persisted(items, a) && items[a].ordinal == ordinal && items[a].cursor == Some(c);
    var b :| 0 <= b < |items| && Persisted(items, b) && items[b].ordinal == ordinal && items[b].cursor == Some(d);
  }

  /** Two contiguous ranges that fit the empty table: apart they would each advance, in one round
      the whole execution is refused. */
  lemma TwoNamespacesAreRefused()
    ensures exists a: RangeItem, b: RangeItem ::
              && RangesFit(map[], [a, b]) && a.ordinal == b.ordinal
              && Committable([a], 1) && Committable([b], 1) && !Committable([a, b], 2)
  {
    var origin, head := Boundary(Some(0), None), Boundary(Some(1), None);
    var forward := Cursor(Namespace("a", "p", "d", Forward), origin, head, Contiguous, true, None, "LIVE_TAIL");
    var backward := Cursor(Namespace("a", "p", "d", Backward), origin, head, Contiguous, true, None, "LIVE_TAIL");
    var a, b := RangeItem(1, Some(forward)), RangeItem(1, Some(backward));
    AloneCommits(a);
    AloneCommits(b);
    TwoSpeak(a, b);
    OneAdvancePerRound([a, b], 0, 1);
  }

  lemma AloneCommits(a: RangeItem)
    requires a.cursor.Some? && a.cursor.value.continuity == Contiguous && !NoEnd(a.cursor.value.end)
    ensures Committable([a], 1)
  {
    assert Persisted([a], 0);
    assert RangePersisted([a], a.ordinal, a.cursor.value);
  }

  lemma TwoSpeak(a: RangeItem, b: RangeItem)
    requires a.cursor.Some? && b.cursor.Some? && a.cursor.value.namespace != b.cursor.value.namespace
    ensures SpeaksFirst([a, b], 0) && SpeaksFirst([a, b], 1) && RangesFit(map[], [a, b])
  {
    var items := [a, b];
    assert items[..0] == [] && items[..1] == [a];
    assert FirstRange([a], a.cursor.value.namespace) == a.cursor by {
      assert [a][..0] == [];
    }
    assert FirstRange(items, a.cursor.value.namespace) == a.cursor;
    assert FirstRange(items, b.cursor.value.namespace) == b.cursor;
    assert forall i: nat :: i < 2 ==> ItemFits(map[], items, i);
  }

  // ---- The durable cursor table ----

  class CursorTable {
    var heads: Heads
    ghost var log: seq<Advance>

    ghost predicate Valid()
      reads this
    {
      Chained(heads, log)
    }

    constructor ()
      ensures Valid() && heads == map[] && log == []
    {
      heads, log := map[], [];
    }

    method ValidateCurrentCursorHeads(items: seq<RangeItem>) returns (error: Option<CursorError>)
      ensures error.None? <==> RangesFit(heads, items)
      ensures error.Some? ==> error.value in {StartMismatch, NamespaceRangeConflict}
      ensures error == Some(NamespaceRangeConflict) ==>
                exists i :: 0 <= i < |items| && items[i].cursor.Some? && FirstRange(items, items[i].cursor.value.namespace) != items[i].cursor
      ensures error == Some(StartMismatch) ==> exists i :: 0 <= i < |items| && items[i].cursor.Some? && !StartsAtHead(heads, items[i].cursor.value)
    {
      var seen: map<Namespace, Cursor> := map[];
      for i := 0 to |items|
        invariant Recorded(seen, items[..i])
        invariant FitSoFar(heads, items, i)
        invariant forall ns :: ns in seen ==> StartsAtHead(heads, seen[ns])
      {
        RecordStep(heads, seen, items, i);
        var cursor := items[i].cursor;
        if cursor.None? {
          continue;
        }
        var ns := cursor.value.namespace;
        if ns in seen {
          if seen[ns] != cursor.value {
            return Some(NamespaceRangeConflict);
          }
          continue;
        }
        seen := seen[ns := cursor.value];
        if !StartsAtHead(heads, cursor.value) {
          return Some(StartMismatch);
        }
      }
      return None;
    }

    /** Moves the head of one namespace past an advancing range. */
    method AdvanceHead(execution: string, items: seq<RangeItem>, i: nat) returns (error: Option<CursorError>)
      requires i < |items| && items[i].cursor.Some? && items[i].cursor.value.advanced
      requires Chained(heads, log) && StartsAtHead(heads, items[i].cursor.value)
      modifies this
      ensures error == AdvanceProblem(items, items[i])
      ensures error.None? ==> Chained(heads, log) && log == old(log) + [Advance(execution, items[i].cursor.value)]
      ensures error.None? ==> heads == old(heads)[items[i].cursor.value.namespace := HeadAt(old(heads), execution, items[i])]
      ensures error.Some? ==> heads == old(heads) && log == old(log)
    {
      var c := items[i].cursor.value;
      if c.continuity != Contiguous {
        return Some(AdvancedPastUnresolvedEvidence);
      }
      if NoEnd(c.end) {
        return Some(EndBoundaryRequired);
      }
      if !RangePersisted(items, items[i].ordinal, c) {
        return Some(RangeNotPersisted);
      }
      AdvanceKeepsChain(heads, log, execution, items[i]);
      heads := heads[c.namespace := HeadAt(heads, execution, items[i])];
      log := log + [Advance(execution, c)];
      return None;
    }

    /** Moves the head of every namespace whose range advances. */
    method AdvanceCurrentCursorHeads(execution: string, items: seq<RangeItem>) returns (error: Option<CursorError>)
      requires Valid() && RangesFit(heads, items)
      modifies this
      ensures error.None? ==> Valid() && log == old(log) + AdvancesOf(execution, items)
      ensures error.None? <==> Committable(items, |items|)
    {
      var seen: set<Namespace> := {};
      ghost var before, start := heads, log;
      for i := 0 to |items|
        invariant Advanced(execution, items, i, before, heads, seen)
        invariant Chained(heads, log)
        invariant log == start + AdvancesOf(execution, items[..i])
      {
        if items[i].cursor.None? {
          SilentItem(execution, items, i, before, heads, seen);
          continue;
        }
        var c := items[i].cursor.value;
        if c.namespace in seen {
          SilentItem(execution, items, i, before, heads, seen);
          continue;
        }
        SpeakingItem(execution, items, i, before, heads, seen);
        seen := seen + {c.namespace};
        if !c.advanced {
          continue;
        }
        error := AdvanceHead(execution, items, i);
        if error.Some? {
          return;
        }
        assert start + AdvancesOf(execution, items[..i]) + [Advance(execution, c)] == start + (AdvancesOf(execution, items[..i]) + [Advance(execution, c)]);
      }
      assert items[..|items|] == items;
      return None;
    }

    /** The cursor part of one execution: a rejected execution moves no head. */
    method CommitExecution(execution: string, items: seq<RangeItem>) returns (error: Option<CursorError>)
      requires Valid()
      modifies this
      ensures Valid()
      ensures error.Some? ==> heads == old(heads) && log == old(log)
      ensures error.None? ==> log == old(log) + AdvancesOf(execution, items)
      ensures error.None? <==> RangesFit(old(heads), items) && Committable(items, |items|)
    {
      error := ValidateCurrentCursorHeads(items);
      if error.Some? {
        return;
      }
      var savedHeads := heads;
      ghost var savedLog := log;
      error := AdvanceCurrentCursorHeads(execution, items);
      if error.Some? {
        heads, log := savedHeads, savedLog;
      }
    }

    /** Any sequence of executions keeps every namespace chained from its first advance on. */
    method CommitAll(executions: seq<(string, seq<RangeItem>)>)
      requires Valid()
      modifies this
      ensures Valid()
      ensures |log| >= |old(log)| && log[..|old(log)|] == old(log)
    {
      for i := 0 to |executions|
        invariant Valid() && |log| >= |old(log)| && log[..|old(log)|] == old(log)
      {
        var _ := CommitExecution(executions[i].0, executions[i].1);
      }
    }
  }
}
