/** Cross-batch selection cooldown: a rotation table with one row per mint and pair stands in for
    the full selection history. */
module SelectionRotation {
  import opened Common

  const COOLDOWN_WINDOW := 3

  datatype ItemStatus = Selected | Rejected | Unclassified

  datatype Item = Item(
    status: ItemStatus, watchOnly: bool, auditSupport: bool, mint: string, pair: string, fingerprint: string)

  datatype Row = Row(lastBatchId: string, lastBatchSeq: int, lastFingerprint: string, selectionCount: nat)

  type Key = (string, string)
  type Table = map<Key, Row>

  datatype Reason = TokenSelectionCooldown | PairSelectionCooldown

  datatype Rejection = Rejection(item: Item, reason: Reason)

  /** Only real, named selections count; watch-only and audit support never start a cooldown. */
  predicate Recorded(item: Item) {
    item.status == Selected && !item.watchOnly && !item.auditSupport && item.mint != "" && item.pair != ""
  }

  function KeyOf(item: Item): Key {
    (item.mint, item.pair)
  }

  function Upsert(rows: Table, item: Item, batchId: string, batchSeq: int): Table {
    if !Recorded(item) then rows
    else rows[KeyOf(item) := Row(batchId, batchSeq, item.fingerprint,
                                 if KeyOf(item) in rows then rows[KeyOf(item)].selectionCount + 1 else 1)]
  }

  function RecordAll(rows: Table, items: seq<Item>, batchId: string, batchSeq: int): Table
    decreases |items|
  {
    if items == [] then rows
    else Upsert(RecordAll(rows, items[..|items| - 1], batchId, batchSeq), items[|items| - 1], batchId, batchSeq)
  }

  function CountRecorded(items: seq<Item>): nat {
    if items == [] then 0
    else CountRecorded(items[..|items| - 1]) + if Recorded(items[|items| - 1]) then 1 else 0
  }

  // ---- Gates over the table ----

  predicate TokenGate(rows: Table, mint: string, currentSeq: int, window: int) {
    forall k :: k in rows && k.0 == mint ==> currentSeq - rows[k].lastBatchSeq >= window
  }

  predicate PairGate(rows: Table, pair: string, currentSeq: int, window: int) {
    forall k :: k in rows && k.1 == pair ==> currentSeq - rows[k].lastBatchSeq >= window
  }

  class RotationState {
    var rows: Table

    constructor ()
      ensures rows == map[]
    {
      rows := map[];
    }

    method RecordSelectionRotationState(items: seq<Item>, batchId: string, batchSeq: int) returns (upserted: nat)
      modifies this
      ensures rows == RecordAll(old(rows), items, batchId, batchSeq)
      ensures upserted == CountRecorded(items)
    {
      upserted := 0;
      for i := 0 to |items|
        invariant rows == RecordAll(old(rows), items[..i], batchId, batchSeq)
        invariant upserted == CountRecorded(items[..i])
      {
        assert items[..i + 1][..i] == items[..i];
        var item := items[i];
        if item.status != Selected || item.watchOnly || item.auditSupport {
          continue;
        }
        if item.mint == "" || item.pair == "" {
          continue;
        }
        var count := if KeyOf(item) in rows then rows[KeyOf(item)].selectionCount + 1 else 1;
        rows := rows[KeyOf(item) := Row(batchId, batchSeq, item.fingerprint, count)];
        upserted := upserted + 1;
      }
      assert items[..|items|] == items;
    }

    /** MAX(last_selected_batch_seq) over the rows of the given keys; None when there is no row. */
    method Latest(keys: set<Key>) returns (latest: Option<int>)
      requires keys <= rows.Keys
      ensures latest.None? <==> keys == {}
      ensures latest.Some? ==> exists k :: k in keys && rows[k].lastBatchSeq == latest.value
      ensures latest.Some? ==> forall k :: k in keys ==> rows[k].lastBatchSeq <= latest.value
    {
      latest := None;
      var open := keys;
      while open != {}
        invariant open <= keys
        invariant latest.None? <==> open == keys
        invariant latest.Some? ==> exists k :: k in keys - open && rows[k].lastBatchSeq == latest.value
        invariant latest.Some? ==> forall k :: k in keys - open ==> rows[k].lastBatchSeq <= latest.value
        decreases open
      {
        var k :| k in open;
        if latest.None? || latest.value < rows[k].lastBatchSeq {
          latest := Some(rows[k].lastBatchSeq);
        }
        open := open - {k};
      }
    }

    /** The query by mint: every pair row of the mint counts, the latest one decides. */
    method CheckTokenSelectionCooldown(mint: string, currentSeq: int, window: int) returns (ok: bool)
      ensures ok <==> TokenGate(rows, mint, currentSeq, window)
    {
      var keys := set k | k in rows && k.0 == mint;
      var latest := Latest(keys);
      ok := latest.None? || currentSeq - latest.value >= window;
      assert forall k :: k in rows && k.0 == mint ==> k in keys;
      if !ok {
        ghost var k :| k in keys && rows[k].lastBatchSeq == latest.value;
        assert currentSeq - rows[k].lastBatchSeq < window;
      }
    }

    method CheckPairSelectionCooldown(pair: string, currentSeq: int, window: int) returns (ok: bool)
      ensures ok <==> PairGate(rows, pair, currentSeq, window)
    {
      var keys := set k | k in rows && k.1 == pair;
      var latest := Latest(keys);
      ok := latest.None? || currentSeq - latest.value >= window;
      assert forall k :: k in rows && k.1 == pair ==> k in keys;
      if !ok {
        ghost var k :| k in keys && rows[k].lastBatchSeq == latest.value;
        assert currentSeq - rows[k].lastBatchSeq < window;
      }
    }

    /** Splits the candidates in order; the token check is reported before the pair check. */
    method ApplySelectionCooldownGates(candidates: seq<Item>, currentSeq: int, window: int)
      returns (eligible: seq<Item>, rejected: seq<Rejection>)
      ensures (eligible, rejected) == Gated(rows, candidates, currentSeq, window)
    {
      eligible, rejected := [], [];
      for i := 0 to |candidates|
        invariant (eligible, rejected) == Gated(rows, candidates[..i], currentSeq, window)
      {
        assert candidates[..i + 1][..i] == candidates[..i];
        var candidate := candidates[i];
        var tokenOk := CheckTokenSelectionCooldown(candidate.mint, currentSeq, window);
        if !tokenOk {
          rejected := rejected + [Rejection(candidate, TokenSelectionCooldown)];
          continue;
        }
        var pairOk := CheckPairSelectionCooldown(candidate.pair, currentSeq, window);
        if !pairOk {
          rejected := rejected + [Rejection(candidate, PairSelectionCooldown)];
          continue;
        }
        eligible := eligible + [candidate];
      }
      assert candidates[..|candidates|] == candidates;
    }
  }

  function Gated(rows: Table, candidates: seq<Item>, currentSeq: int, window: int): (seq<Item>, seq<Rejection>) {
    if candidates == [] then ([], [])
    else
      var (eligible, rejected) := Gated(rows, candidates[..|candidates| - 1], currentSeq, window);
      var c := candidates[|candidates| - 1];
      if !TokenGate(rows, c.mint, currentSeq, window) then (eligible, rejected + [Rejection(c, TokenSelectionCooldown)])
      else if !PairGate(rows, c.pair, currentSeq, window) then (eligible, rejected + [Rejection(c, PairSelectionCooldown)])
      else (eligible + [c], rejected)
  }

  function ItemsOf(rejected: seq<Rejection>): seq<Item> {
    if rejected == [] then [] else ItemsOf(rejected[..|rejected| - 1]) + [rejected[|rejected| - 1].item]
  }

  type Split = (seq<Item>, seq<Rejection>)

  /** One more candidate went on or was rejected. */
  predicate Grew(before: Split, after: Split, c: Item) {
    || (after.0 == before.0 + [c] && after.1 == before.1)
    || (after.0 == before.0 && after.1 != [] && after.1[..|after.1| - 1] == before.1 && after.1[|after.1| - 1].item == c)
  }

  lemma GatedStep(rows: Table, candidates: seq<Item>, currentSeq: int, window: int)
    requires candidates != []
    ensures Grew(Gated(rows, candidates[..|candidates| - 1], currentSeq, window), Gated(rows, candidates, currentSeq, window),
                 candidates[|candidates| - 1])
  {
  }

  /** The candidates are those that went on and those that were rejected. */
  ghost predicate Partitioned(candidates: seq<Item>, split: Split) {
    multiset(candidates) == multiset(split.0) + multiset(ItemsOf(split.1))
  }

  lemma PartitionStep(front: seq<Item>, c: Item, before: Split, after: Split)
    requires Partitioned(front, before) && Grew(before, after, c)
    ensures Partitioned(front + [c], after)
  {
    if after.0 != before.0 + [c] {
      assert ItemsOf(after.1) == ItemsOf(before.1) + [c];
    }
  }

  /** No candidate is lost or invented by the gates. */
  lemma {:induction false} GatesPartition(rows: Table, candidates: seq<Item>, currentSeq: int, window: int)
    ensures Partitioned(candidates, Gated(rows, candidates, currentSeq, window))
  {
    if candidates != [] {
      var front, c := candidates[..|candidates| - 1], candidates[|candidates| - 1];
      GatesPartition(rows, front, currentSeq, window);
      GatedStep(rows, candidates, currentSeq, window);
      PartitionStep(front, c, Gated(rows, front, currentSeq, window), Gated(rows, candidates, currentSeq, window));
      assert candidates == front + [c];
    }
  }

  /** Exactly the candidates that pass both checks go on, and a rejection names the failed check. */
  lemma {:induction false} GatesDecide(rows: Table, candidates: seq<Item>, currentSeq: int, window: int)
    ensures var (eligible, rejected) := Gated(rows, candidates, currentSeq, window);
            && (forall c :: c in eligible ==>
                  TokenGate(rows, c.mint, currentSeq, window) && PairGate(rows, c.pair, currentSeq, window))
            && (forall r :: r in rejected ==>
                  && (r.reason == TokenSelectionCooldown <==> !TokenGate(rows, r.item.mint, currentSeq, window))
                  && (r.reason == PairSelectionCooldown ==> !PairGate(rows, r.item.pair, currentSeq, window)))
  {
    if candidates != [] {
      GatesDecide(rows, candidates[..|candidates| - 1], currentSeq, window);
    }
  }

  // ---- The table against the full history ----

  datatype Batch = Batch(id: string, seqNo: int, items: seq<Item>)

  /** Batch sequence numbers are row identifiers: positive and strictly increasing. */
  ghost predicate Increasing(history: seq<Batch>) {
    && (forall i :: 0 <= i < |history| ==> history[i].seqNo >= 1)
    && (forall i, j :: 0 <= i < j < |history| ==> history[i].seqNo < history[j].seqNo)
  }

  function TableAfter(history: seq<Batch>): Table {
    if history == [] then map[]
    else
      var b := history[|history| - 1];
      RecordAll(TableAfter(history[..|history| - 1]), b.items, b.id, b.seqNo)
  }

  predicate Records(b: Batch, k: Key) {
    exists i :: 0 <= i < |b.items| && Recorded(b.items[i]) && KeyOf(b.items[i]) == k
  }

  function TimesIn(items: seq<Item>, k: Key): nat {
    if items == [] then 0
    else TimesIn(items[..|items| - 1], k)
         + if Recorded(items[|items| - 1]) && KeyOf(items[|items| - 1]) == k then 1 else 0
  }

  function TimesRecorded(history: seq<Batch>, k: Key): nat {
    if history == [] then 0
    else TimesRecorded(history[..|history| - 1], k) + TimesIn(history[|history| - 1].items, k)
  }

  /** A batch records a key exactly when it holds a selected item of it, named in full, that is neither
      watch-only nor audit support; and it upserts one row for each such item. */
  lemma {:induction false} RecordedExactly(items: seq<Item>, k: Key)
    ensures TimesIn(items, k) > 0
            <==> exists i :: 0 <= i < |items| && Counts(items[i]) && items[i].mint == k.0 && items[i].pair == k.1
    ensures CountRecorded(items) == |Filter(items, Counts)|
    decreases |items|
  {
    if items != [] {
      var front := items[..|items| - 1];
      RecordedExactly(front, k);
      if i :| 0 <= i < |items| && Counts(items[i]) && items[i].mint == k.0 && items[i].pair == k.1 {
        if i < |front| { assert front[i] == items[i]; }
      }
      if i :| 0 <= i < |front| && Counts(front[i]) && front[i].mint == k.0 && front[i].pair == k.1 {
        assert items[i] == front[i];
      }
    }
  }

  predicate Counts(item: Item) {
    item.status == Selected && !(item.watchOnly || item.auditSupport || item.mint == "" || item.pair == "")
  }

  /** Recording one batch: a key it records gets the batch's number, any other row is untouched. */
  lemma {:induction false} RecordAllRows(rows: Table, items: seq<Item>, id: string, seqNo: int, k: Key)
    ensures var r := RecordAll(rows, items, id, seqNo);
            && (k in r <==> k in rows || TimesIn(items, k) > 0)
            && (TimesIn(items, k) > 0 ==> r[k].lastBatchSeq == seqNo && r[k].lastBatchId == id)
            && (TimesIn(items, k) == 0 && k in rows ==> r[k] == rows[k])
            && (k in r ==> r[k].selectionCount == TimesIn(items, k) + if k in rows then rows[k].selectionCount else 0)
    ensures TimesIn(items, k) > 0 <==> exists i :: 0 <= i < |items| && Recorded(items[i]) && KeyOf(items[i]) == k
    decreases |items|
  {
    if items != [] {
      var front := items[..|items| - 1];
      RecordAllRows(rows, front, id, seqNo, k);
      if i :| 0 <= i < |items| && Recorded(items[i]) && KeyOf(items[i]) == k {
        if i < |front| { assert front[i] == items[i]; }
      }
      if i :| 0 <= i < |front| && Recorded(front[i]) && KeyOf(front[i]) == k {
        assert items[i] == front[i];
      }
    }
  }

  /** Refinement: each row holds the last selecting sequence number of its mint and pair and the
      number of recorded selections, and there is a row exactly for the keys ever recorded. */
  lemma {:induction false} RowsMatchHistory(history: seq<Batch>, k: Key)
    requires Increasing(history)
    ensures var rows := TableAfter(history);
            && (k in rows <==> exists i :: 0 <= i < |history| && Records(history[i], k))
            && (k in rows ==> rows[k].selectionCount == TimesRecorded(history, k))
            && (k in rows ==> exists i :: 0 <= i < |history| && Records(history[i], k) && rows[k].lastBatchSeq == history[i].seqNo)
            && (k in rows ==> forall i :: 0 <= i < |history| && Records(history[i], k) ==> history[i].seqNo <= rows[k].lastBatchSeq)
    ensures k !in TableAfter(history) ==> TimesRecorded(history, k) == 0
  {
    if history != [] {
      var front, b := history[..|history| - 1], history[|history| - 1];
      RowsMatchHistory(front, k);
      RecordAllRows(TableAfter(front), b.items, b.id, b.seqNo, k);
      assert forall i :: 0 <= i < |front| ==> front[i] == history[i];
      if Records(b, k) {
        assert history[|front|] == b;
      } else if k in TableAfter(front) {
        var i :| 0 <= i < |front| && Records(front[i], k) && TableAfter(front)[k].lastBatchSeq == front[i].seqNo;
        assert Records(history[i], k);
      }
    }
  }

  predicate RecordsMint(b: Batch, mint: string) {
    exists i :: 0 <= i < |b.items| && Recorded(b.items[i]) && b.items[i].mint == mint
  }

  predicate RecordsPair(b: Batch, pair: string) {
    exists i :: 0 <= i < |b.items| && Recorded(b.items[i]) && b.items[i].pair == pair
  }

  // ---- The table against any history ----

  /** Batch j is the last one of the history to record the key. */
  ghost predicate LastRecords(history: seq<Batch>, j: nat, k: Key) {
    && j < |history| && Records(history[j], k)
    && forall l :: j < l < |history| ==> !Records(history[l], k)
  }

  /** In whatever order the numbers come, a row holds the number of the last batch that recorded it. */
  lemma {:induction false} RowsHoldLastRecord(history: seq<Batch>, k: Key)
    ensures k in TableAfter(history) <==> exists j: nat :: LastRecords(history, j, k)
    ensures forall j: nat :: LastRecords(history, j, k) ==>
                               k in TableAfter(history) && TableAfter(history)[k].lastBatchSeq == history[j].seqNo
  {
    if history != [] {
      var front, b := history[..|history| - 1], history[|history| - 1];
      RowsHoldLastRecord(front, k);
      RecordAllRows(TableAfter(front), b.items, b.id, b.seqNo, k);
      assert forall i :: 0 <= i < |front| ==> front[i] == history[i];
      if Records(b, k) {
        assert LastRecords(history, |front|, k);
      } else {
        forall j: nat ensures LastRecords(history, j, k) <==> LastRecords(front, j, k) {
          assert history[|front|] == b;
        }
      }
    }
  }

  /** The last record of a key that some batch recorded. */
  lemma {:induction false} LastRecordExists(history: seq<Batch>, i: nat, k: Key) returns (j: nat)
    requires i < |history| && Records(history[i], k)
    ensures i <= j && LastRecords(history, j, k)
    decreases |history| - i
  {
    if l :| i < l < |history| && Records(history[l], k) {
      j := LastRecordExists(history, l, k);
    } else {
      j := i;
    }
  }

  predicate RecordsSome(b: Batch, of: Key -> bool) {
    exists i :: 0 <= i < |b.items| && Recorded(b.items[i]) && of(KeyOf(b.items[i]))
  }

  /** The check over the rows of some keys, and the same check over every past batch. */
  predicate Gate(rows: Table, of: Key -> bool, currentSeq: int, window: int) {
    forall k :: k in rows && of(k) ==> currentSeq - rows[k].lastBatchSeq >= window
  }

  predicate Scan(history: seq<Batch>, of: Key -> bool, currentSeq: int, window: int) {
    forall i :: 0 <= i < |history| && RecordsSome(history[i], of) ==> currentSeq - history[i].seqNo >= window
  }

  ghost predicate GateAnswersScan(history: seq<Batch>, of: Key -> bool) {
    forall currentSeq, window :: Gate(TableAfter(history), of, currentSeq, window) <==> Scan(history, of, currentSeq, window)
  }

  /** Every batch that recorded one of the keys is outlived by a row at least as new. */
  ghost predicate NothingForgotten(history: seq<Batch>, of: Key -> bool) {
    forall i: nat :: i < |history| && RecordsSome(history[i], of) ==> Outlived(history, of, i)
  }

  ghost predicate Outlived(history: seq<Batch>, of: Key -> bool, i: nat)
    requires i < |history|
  {
    exists k: Key, j: nat :: of(k) && LastRecords(history, j, k) && history[j].seqNo >= history[i].seqNo
  }

  /** For any history: the table answers every check as a scan of all past batches would, exactly
      when no selection is forgotten by all the rows of its mint, or of its pair. */
  lemma GateAnswersScanExactly(history: seq<Batch>, of: Key -> bool)
    ensures GateAnswersScan(history, of) <==> NothingForgotten(history, of)
  {
    if NothingForgotten(history, of) {
      forall currentSeq, window ensures Gate(TableAfter(history), of, currentSeq, window) <==> Scan(history, of, currentSeq, window) {
        ScanImpliesGate(history, of, currentSeq, window);
        GateImpliesScan(history, of, currentSeq, window);
      }
    }
    if GateAnswersScan(history, of) {
      forall i: nat | i < |history| && RecordsSome(history[i], of) ensures Outlived(history, of, i) {
        var rows := TableAfter(history);
        assert Gate(rows, of, history[i].seqNo, 1) <==> Scan(history, of, history[i].seqNo, 1);
        var k :| k in rows && of(k) && history[i].seqNo - rows[k].lastBatchSeq < 1;
        RowsHoldLastRecord(history, k);
        var j: nat :| LastRecords(history, j, k);
        assert history[j].seqNo >= history[i].seqNo;
      }
    }
  }

  /** The table never holds back what the history would admit. */
  lemma ScanImpliesGate(history: seq<Batch>, of: Key -> bool, currentSeq: int, window: int)
    ensures Scan(history, of, currentSeq, window) ==> Gate(TableAfter(history), of, currentSeq, window)
  {
    var rows := TableAfter(history);
    if Scan(history, of, currentSeq, window) {
      forall k | k in rows && of(k) ensures currentSeq - rows[k].lastBatchSeq >= window {
        RowsHoldLastRecord(history, k);
        var j: nat :| LastRecords(history, j, k);
        assert RecordsSome(history[j], of);
      }
    }
  }

  lemma GateImpliesScan(history: seq<Batch>, of: Key -> bool, currentSeq: int, window: int)
    requires NothingForgotten(history, of)
    ensures Gate(TableAfter(history), of, currentSeq, window) ==> Scan(history, of, currentSeq, window)
  {
    if Gate(TableAfter(history), of, currentSeq, window) {
      forall i | 0 <= i < |history| && RecordsSome(history[i], of) ensures currentSeq - history[i].seqNo >= window {
        assert Outlived(history, of, i);
        var k: Key, j: nat :| of(k) && LastRecords(history, j, k) && history[j].seqNo >= history[i].seqNo;
        RowsHoldLastRecord(history, k);
      }
    }
  }

  function OfMint(mint: string): Key -> bool {
    (k: Key) => k.0 == mint
  }

  function OfPair(pair: string): Key -> bool {
    (k: Key) => k.1 == pair
  }

  /** The token check: exact for any history. */
  lemma TokenGateExactly(history: seq<Batch>, mint: string)
    ensures (forall currentSeq, window :: TokenGate(TableAfter(history), mint, currentSeq, window)
                                          <==> forall i :: 0 <= i < |history| && RecordsMint(history[i], mint) ==> currentSeq - history[i].seqNo >= window)
            <==> forall i: nat :: i < |history| && RecordsMint(history[i], mint) ==> Outlived(history, OfMint(mint), i)
  {
    var of := OfMint(mint);
    GateAnswersScanExactly(history, of);
    assert forall b: Batch :: RecordsSome(b, of) <==> RecordsMint(b, mint);
    assert forall currentSeq, window :: Gate(TableAfter(history), of, currentSeq, window) <==> TokenGate(TableAfter(history), mint, currentSeq, window);
  }

  /** The pair check: exact for any history. */
  lemma PairGateExactly(history: seq<Batch>, pair: string)
    ensures (forall currentSeq, window :: PairGate(TableAfter(history), pair, currentSeq, window)
                                          <==> forall i :: 0 <= i < |history| && RecordsPair(history[i], pair) ==> currentSeq - history[i].seqNo >= window)
            <==> forall i: nat :: i < |history| && RecordsPair(history[i], pair) ==> Outlived(history, OfPair(pair), i)
  {
    var of := OfPair(pair);
    GateAnswersScanExactly(history, of);
    assert forall b: Batch :: RecordsSome(b, of) <==> RecordsPair(b, pair);
    assert forall currentSeq, window :: Gate(TableAfter(history), of, currentSeq, window) <==> PairGate(TableAfter(history), pair, currentSeq, window);
  }

  /** With increasing numbers the last record of a key is also its newest. */
  lemma IncreasingForgetsNothing(history: seq<Batch>, of: Key -> bool)
    requires Increasing(history)
    ensures NothingForgotten(history, of)
  {
    forall i: nat | i < |history| && RecordsSome(history[i], of) ensures Outlived(history, of, i) {
      var n :| 0 <= n < |history[i].items| && Recorded(history[i].items[n]) && of(KeyOf(history[i].items[n]));
      var k := KeyOf(history[i].items[n]);
      assert Records(history[i], k);
      var j := LastRecordExists(history, i, k);
      assert of(k) && LastRecords(history, j, k) && history[j].seqNo >= history[i].seqNo;
    }
  }

  /** With increasing numbers the token check over the table answers as a scan of every past batch would. */
  lemma TokenGateEqualsScan(history: seq<Batch>, mint: string, currentSeq: int, window: int)
    requires Increasing(history)
    ensures TokenGate(TableAfter(history), mint, currentSeq, window)
            <==> forall i :: 0 <= i < |history| && RecordsMint(history[i], mint) ==> currentSeq - history[i].seqNo >= window
  {
    IncreasingForgetsNothing(history, OfMint(mint));
    assert forall b: Batch :: RecordsSome(b, OfMint(mint)) <==> RecordsMint(b, mint);
    TokenGateExactly(history, mint);
  }

  lemma PairGateEqualsScan(history: seq<Batch>, pair: string, currentSeq: int, window: int)
    requires Increasing(history)
    ensures PairGate(TableAfter(history), pair, currentSeq, window)
            <==> forall i :: 0 <= i < |history| && RecordsPair(history[i], pair) ==> currentSeq - history[i].seqNo >= window
  {
    IncreasingForgetsNothing(history, OfPair(pair));
    assert forall b: Batch :: RecordsSome(b, OfPair(pair)) <==> RecordsPair(b, pair);
    PairGateExactly(history, pair);
  }

  // ---- Spacing over whole runs ----

  /** Batch i was assembled from items that passed both gates, asked with a sequence number no
      greater than the batch's own, against the table as it then stood. */
  ghost predicate PassedGate(history: seq<Batch>, i: nat, gateSeq: int)
    requires i < |history|
  {
    && gateSeq <= history[i].seqNo
    && forall n :: 0 <= n < |history[i].items| && Recorded(history[i].items[n]) ==>
                     && TokenGate(TableAfter(history[..i]), history[i].items[n].mint, gateSeq, COOLDOWN_WINDOW)
                     && PairGate(TableAfter(history[..i]), history[i].items[n].pair, gateSeq, COOLDOWN_WINDOW)
  }

  /** Two different batches that select the same mint, or the same pair, are at least three apart. */
  lemma SelectionsAreSpaced(history: seq<Batch>, gateSeqs: seq<int>, i: nat, j: nat)
    requires Increasing(history) && |gateSeqs| == |history| && i < j < |history|
    requires forall b :: 0 <= b < |history| ==> PassedGate(history, b, gateSeqs[b])
    requires exists m, n :: 0 <= m < |history[i].items| && 0 <= n < |history[j].items|
                            && Recorded(history[i].items[m]) && Recorded(history[j].items[n])
                            && (history[i].items[m].mint == history[j].items[n].mint
                                || history[i].items[m].pair == history[j].items[n].pair)
    ensures history[j].seqNo - history[i].seqNo >= 3
  {
    var m, n :| 0 <= m < |history[i].items| && 0 <= n < |history[j].items|
                && Recorded(history[i].items[m]) && Recorded(history[j].items[n])
                && (history[i].items[m].mint == history[j].items[n].mint
                    || history[i].items[m].pair == history[j].items[n].pair);
    var past := history[..j];
    assert past[i] == history[i];
    assert PassedGate(history, j, gateSeqs[j]);
    if history[i].items[m].mint == history[j].items[n].mint {
      assert RecordsMint(past[i], history[j].items[n].mint);
      TokenGateEqualsScan(past, history[j].items[n].mint, gateSeqs[j], COOLDOWN_WINDOW);
    } else {
      assert RecordsPair(past[i], history[j].items[n].pair);
      PairGateEqualsScan(past, history[j].items[n].pair, gateSeqs[j], COOLDOWN_WINDOW);
    }
  }

  /** next is MAX(last_selected_batch_seq) + 1 over the whole table, or 1 when it is empty. */
  ghost predicate IsNextBatchSeq(rows: Table, next: int) {
    && (rows == map[] ==> next == 1)
    && (rows != map[] ==> exists k :: k in rows && next == rows[k].lastBatchSeq + 1)
    && (forall k :: k in rows ==> rows[k].lastBatchSeq < next)
  }

  /** Gating at MAX+1 never uses a number beyond the batch that is about to be assembled. */
  lemma NextSeqIsSafeGate(history: seq<Batch>, j: nat, next: int)
    requires Increasing(history) && j < |history|
    requires IsNextBatchSeq(TableAfter(history[..j]), next)
    ensures next <= history[j].seqNo
  {
    var rows := TableAfter(history[..j]);
    if rows != map[] {
      var k :| k in rows && next == rows[k].lastBatchSeq + 1;
      RowsMatchHistory(history[..j], k);
      var i :| 0 <= i < j && Records(history[..j][i], k) && rows[k].lastBatchSeq == history[..j][i].seqNo;
      assert history[i].seqNo < history[j].seqNo;
    }
  }

  /** A batch that records a selection, under a number not yet used, raises the next number. */
  lemma RecordingRaisesNext(rows: Table, items: seq<Item>, id: string, seqNo: int, before: int, after: int)
    requires IsNextBatchSeq(rows, before) && seqNo >= before
    requires IsNextBatchSeq(RecordAll(rows, items, id, seqNo), after)
    requires exists i :: 0 <= i < |items| && Recorded(items[i])
    ensures after > before
  {
    var i :| 0 <= i < |items| && Recorded(items[i]);
    RecordAllRows(rows, items, id, seqNo, KeyOf(items[i]));
    assert KeyOf(items[i]) in RecordAll(rows, items, id, seqNo);
  }

  /** The increasing order is needed: a batch recorded with an older number overwrites the newer
      one, and the table then admits a token that a scan of the history would still hold back. */
  lemma OldNumberForgetsNewerSelection()
    ensures var item := Item(Selected, false, false, "m", "p", "");
            var history := [Batch("b1", 9, [item]), Batch("b2", 1, [item])];
            TokenGate(TableAfter(history), "m", 10, COOLDOWN_WINDOW)
            && RecordsMint(history[0], "m") && 10 - history[0].seqNo < COOLDOWN_WINDOW
  {
    var item := Item(Selected, false, false, "m", "p", "");
    var b1, b2 := Batch("b1", 9, [item]), Batch("b2", 1, [item]);
    var history := [b1, b2];
    assert history[..1] == [b1] && [b1][..0] == [] && [item][..0] == [];
    assert Recorded(item);
    assert TableAfter([]) == map[];
    assert TableAfter([b1]) == RecordAll(map[], [item], "b1", 9);
    assert RecordAll(map[], [item], "b1", 9) == Upsert(map[], item, "b1", 9);
    assert TableAfter(history) == RecordAll(TableAfter([b1]), [item], "b2", 1);
    assert RecordAll(TableAfter([b1]), [item], "b2", 1) == Upsert(TableAfter([b1]), item, "b2", 1);
    assert Recorded(history[0].items[0]);
  }
}
