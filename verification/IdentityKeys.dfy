/** Text encodings that turn several identity parts into one key. */
module IdentityKeys {
  import opened Common

  // ---- Length-prefixed parts ----

  const DIGITS := "0123456789"

  function Decimal(n: nat): (text: string)
    ensures |text| > 0
    ensures ':' !in text
  {
    if n < 10 then [DIGITS[n]] else Decimal(n / 10) + [DIGITS[n % 10]]
  }

  function DigitValue(c: char): Option<nat> {
    if '0' <= c <= '9' then Some((c - '0') as nat) else None
  }

  function Number(text: string): Option<nat> {
    if text == [] then Some(0)
    else
      var front := Number(text[..|text| - 1]);
      var digit := DigitValue(text[|text| - 1]);
      if front.None? || digit.None? then None else Some(10 * front.value + digit.value)
  }

  lemma DigitReads(d: nat)
    requires d < 10
    ensures DigitValue(DIGITS[d]) == Some(d)
  {
  }

  lemma NumberSnoc(front: string, n: nat, d: nat)
    requires Number(front) == Some(n) && d < 10
    ensures Number(front + [DIGITS[d]]) == Some(10 * n + d)
  {
    DigitReads(d);
    assert (front + [DIGITS[d]])[..|front|] == front;
  }

  lemma {:induction false} NumberReadsDecimal(n: nat)
    ensures Number(Decimal(n)) == Some(n)
  {
    if n < 10 {
      NumberSnoc([], 0, n);
      assert [] + [DIGITS[n]] == [DIGITS[n]];
    } else {
      NumberReadsDecimal(n / 10);
      NumberSnoc(Decimal(n / 10), n / 10, n % 10);
    }
  }

  /** `len:part` for every part, joined without a separator. */
  function EncodeParts(parts: seq<string>): string {
    if parts == [] then [] else Decimal(|parts[0]|) + ":" + parts[0] + EncodeParts(parts[1..])
  }

  /** The text before the first occurrence of c, if there is one. */
  function IndexOf(text: string, c: char): (r: Option<nat>)
    ensures r.None? <==> c !in text
    ensures r.Some? ==> r.value < |text| && text[r.value] == c && c !in text[..r.value]
  {
    if text == [] then None
    else if text[0] == c then Some(0)
    else
      var rest := IndexOf(text[1..], c);
      if rest.None? then None
      else
        assert text[..rest.value + 1] == [text[0]] + text[1..][..rest.value];
        Some(rest.value + 1)
  }

  function DecodeParts(text: string): Option<seq<string>>
    decreases |text|
  {
    if text == [] then Some([])
    else
      var colon := IndexOf(text, ':');
      if colon.None? then None
      else
        var length := Number(text[..colon.value]);
        var body := text[colon.value + 1..];
        if length.None? || length.value > |body| then None
        else
          var rest := DecodeParts(body[length.value..]);
          if rest.None? then None else Some([body[..length.value]] + rest.value)
  }

  lemma FirstIndex(before: string, c: char, after: string)
    requires c !in before
    ensures IndexOf(before + [c] + after, c) == Some(|before|)
  {
    var text := before + [c] + after;
    assert text[|before|] == c;
    assert c in text;
    var i := IndexOf(text, c).value;
    assert forall k :: 0 <= k < |before| ==> text[k] == before[k];
    assert forall k :: 0 <= k < i ==> text[..i][k] == text[k];
  }

  lemma DecodeOnePart(part: string, rest: string)
    requires DecodeParts(rest).Some?
    ensures DecodeParts(Decimal(|part|) + ":" + part + rest) == Some([part] + DecodeParts(rest).value)
  {
    var size := Decimal(|part|);
    var text := size + ":" + part + rest;
    assert text == size + [':'] + (part + rest);
    FirstIndex(size, ':', part + rest);
    NumberReadsDecimal(|part|);
    assert text[..|size|] == size;
    assert text[|size| + 1..] == part + rest;
    assert (part + rest)[..|part|] == part && (part + rest)[|part|..] == rest;
  }

  /** Round trip: decoding an encoding gives back exactly the parts. */
  lemma {:induction false} DecodeUndoesEncode(parts: seq<string>)
    ensures DecodeParts(EncodeParts(parts)) == Some(parts)
  {
    if parts != [] {
      DecodeUndoesEncode(parts[1..]);
      DecodeOnePart(parts[0], EncodeParts(parts[1..]));
      assert parts == [parts[0]] + parts[1..];
    }
  }

  /** Different part lists never share an encoding, whatever characters the parts contain. */
  lemma EncodePartsInjective(a: seq<string>, b: seq<string>)
    requires EncodeParts(a) == EncodeParts(b)
    ensures a == b
  {
    DecodeUndoesEncode(a);
    DecodeUndoesEncode(b);
  }

  // ---- Batch-scoped object identifiers ----

  /** SHA-256 of a text, truncated; only injectivity is used. */
  type TextDigest = string -> nat

  ghost predicate Injective(digest: TextDigest) {
    forall a, b :: digest(a) == digest(b) ==> a == b
  }

  datatype ObjectId = ObjectId(kind: string, batchDigest: nat, semanticDigest: nat)

  const OBJECT_TAG := "PrinterV1|batch-object-v1|"

  function BatchScopedObjectId(digest: TextDigest, objectKind: string, batchId: string, parts: seq<string>): Option<ObjectId> {
    var kind, batch := Trim(objectKind), Trim(batchId);
    if kind == "" || batch == "" || parts == [] || "" in parts then None
    else Some(ObjectId(kind, digest(batch), digest(OBJECT_TAG + EncodeParts([kind] + parts))))
  }

  /** Two identifiers agree exactly when kind, batch and every part agree. */
  lemma ObjectIdsIdentify(digest: TextDigest, k1: string, b1: string, p1: seq<string>, k2: string, b2: string, p2: seq<string>)
    requires Injective(digest)
    requires BatchScopedObjectId(digest, k1, b1, p1).Some? && BatchScopedObjectId(digest, k2, b2, p2).Some?
    ensures BatchScopedObjectId(digest, k1, b1, p1) == BatchScopedObjectId(digest, k2, b2, p2)
            <==> Trim(k1) == Trim(k2) && Trim(b1) == Trim(b2) && p1 == p2
  {
    if BatchScopedObjectId(digest, k1, b1, p1) == BatchScopedObjectId(digest, k2, b2, p2) {
      var s1, s2 := EncodeParts([Trim(k1)] + p1), EncodeParts([Trim(k2)] + p2);
      assert OBJECT_TAG + s1 == OBJECT_TAG + s2;
      assert s1 == (OBJECT_TAG + s1)[|OBJECT_TAG|..] == s2;
      EncodePartsInjective([Trim(k1)] + p1, [Trim(k2)] + p2);
      assert p1 == ([Trim(k1)] + p1)[1..] == p2;
    }
  }

  // ---- mint | market | lifecycle ----

  const NETWORK_PREFIX := "solana-mainnet:"

  function JoinKey(mint: string, market: string, lifecycle: string): string {
    NETWORK_PREFIX + mint + "|" + market + "|" + lifecycle
  }

  /** None when the mint is blank: the source rejects such a candidate. */
  function CandidateIdentityKey(mint: string, market: string, lifecycle: string): Option<string> {
    if Trim(mint) == "" then None else Some(JoinKey(Trim(mint), Trim(market), Trim(lifecycle)))
  }

  lemma SplitAtFirst(a: string, x: string, b: string, y: string, c: char)
    requires c !in a && c !in b && a + [c] + x == b + [c] + y
    ensures a == b && x == y
  {
    FirstIndex(a, c, x);
    FirstIndex(b, c, y);
    assert a == (a + [c] + x)[..|a|] == b;
    assert x == (a + [c] + x)[|a| + 1..] == y;
  }

  lemma SplitAtLast(x: string, a: string, y: string, b: string, c: char)
    requires c !in a && c !in b && x + [c] + a == y + [c] + b
    ensures a == b && x == y
  {
    var text := x + [c] + a;
    assert text[|x|] == c && text[|y|] == c;
    assert forall k :: |x| < k < |text| ==> text[k] == a[k - |x| - 1];
    assert forall k :: |y| < k < |text| ==> text[k] == b[k - |y| - 1];
    assert |x| == |y|;
    assert x == text[..|x|] == y;
    assert a == text[|x| + 1..] == b;
  }

  /** The bar-separated key identifies its parts when mint and lifecycle contain no bar; the
      market may contain any character. */
  lemma JoinKeyInjective(m1: string, k1: string, l1: string, m2: string, k2: string, l2: string)
    requires '|' !in m1 && '|' !in l1 && '|' !in m2 && '|' !in l2
    requires JoinKey(m1, k1, l1) == JoinKey(m2, k2, l2)
    ensures m1 == m2 && k1 == k2 && l1 == l2
  {
    var t1, t2 := JoinKey(m1, k1, l1), JoinKey(m2, k2, l2);
    assert t1 == NETWORK_PREFIX + (m1 + "|" + k1 + "|" + l1);
    assert t2 == NETWORK_PREFIX + (m2 + "|" + k2 + "|" + l2);
    assert m1 + "|" + k1 + "|" + l1 == t1[|NETWORK_PREFIX|..] == m2 + "|" + k2 + "|" + l2;
    assert m1 + "|" + k1 + "|" + l1 == m1 + ['|'] + (k1 + "|" + l1);
    assert m2 + "|" + k2 + "|" + l2 == m2 + ['|'] + (k2 + "|" + l2);
    SplitAtFirst(m1, k1 + "|" + l1, m2, k2 + "|" + l2, '|');
    SplitAtLast(k1, l1, k2, l2, '|');
  }

  // ---- When two identities share a key ----

  /** The key without its network prefix. */
  function BarText(mint: string, market: string, lifecycle: string): string {
    mint + "|" + market + "|" + lifecycle
  }

  lemma KeysAgree(m1: string, k1: string, l1: string, m2: string, k2: string, l2: string)
    ensures JoinKey(m1, k1, l1) == JoinKey(m2, k2, l2) <==> BarText(m1, k1, l1) == BarText(m2, k2, l2)
  {
    var t1, t2 := JoinKey(m1, k1, l1), JoinKey(m2, k2, l2);
    assert t1 == NETWORK_PREFIX + BarText(m1, k1, l1) && t1[|NETWORK_PREFIX|..] == BarText(m1, k1, l1);
    assert t2 == NETWORK_PREFIX + BarText(m2, k2, l2) && t2[|NETWORK_PREFIX|..] == BarText(m2, k2, l2);
  }

  lemma BarTextParts(mint: string, market: string, lifecycle: string)
    ensures var t, p, q := BarText(mint, market, lifecycle), |mint|, |mint| + 1 + |market|;
            && q < |t| && t[p] == '|' && t[q] == '|'
            && t[..p] == mint && t[p + 1..q] == market && t[q + 1..] == lifecycle
  {
  }

  lemma CutAgain(t: string, p: nat, q: nat)
    requires p < q < |t| && t[p] == '|' && t[q] == '|'
    ensures BarText(t[..p], t[p + 1..q], t[q + 1..]) == t
  {
    assert t == t[..p] + [t[p]] + t[p + 1..q] + [t[q]] + t[q + 1..];
  }

  lemma FirstBar(text: string) returns (p: nat)
    requires '|' in text
    ensures p < |text| && text[p] == '|' && '|' !in text[..p] && forall i: nat :: i < p ==> text[i] != '|'
  {
    p := 0;
    while text[p] != '|'
      invariant p < |text| && (forall i: nat :: i < p ==> text[i] != '|') && exists i :: p <= i < |text| && text[i] == '|'
      decreases |text| - p
    {
      p := p + 1;
    }
  }

  lemma LastBar(text: string) returns (q: nat)
    requires '|' in text
    ensures q < |text| && text[q] == '|' && '|' !in text[q + 1..] && forall i :: q < i < |text| ==> text[i] != '|'
  {
    q := |text| - 1;
    while text[q] != '|'
      invariant q < |text| && (forall i :: q < i < |text| ==> text[i] != '|') && exists i :: 0 <= i <= q && text[i] == '|'
      decreases q
    {
      q := q - 1;
    }
  }

  /** An identity shares its key with another one whose mint and lifecycle hold no bar exactly when
      its own mint or lifecycle holds one. */
  lemma JoinKeyCollidesExactly(m: string, k: string, l: string)
    ensures (exists m2, k2, l2 :: '|' !in m2 && '|' !in l2 && (m2, k2, l2) != (m, k, l) && JoinKey(m2, k2, l2) == JoinKey(m, k, l))
            <==> '|' in m || '|' in l
  {
    if '|' in m || '|' in l {
      var t := BarText(m, k, l);
      BarTextParts(m, k, l);
      var p := FirstBar(t);
      var q := LastBar(t);
      assert p <= |m| && |m| + 1 + |k| <= q;
      CutAgain(t, p, q);
      KeysAgree(t[..p], t[p + 1..q], t[q + 1..], m, k, l);
      assert JoinKey(t[..p], t[p + 1..q], t[q + 1..]) == JoinKey(m, k, l);
    } else if m2, k2, l2 :| '|' !in m2 && '|' !in l2 && (m2, k2, l2) != (m, k, l) && JoinKey(m2, k2, l2) == JoinKey(m, k, l) {
      JoinKeyInjective(m2, k2, l2, m, k, l);
      assert false;
    }
  }

  /** Two positions at which an accepted identity with this text can have its bars. */
  predicate CleanCut(t: string, p: nat, q: nat) {
    && p < q < |t| && t[p] == '|' && t[q] == '|' && t[..p] != ""
    && Trim(t[..p]) == t[..p] && Trim(t[p + 1..q]) == t[p + 1..q] && Trim(t[q + 1..]) == t[q + 1..]
  }

  /** Another accepted identity, not merely the same one with other padding. */
  predicate SharesKey(m: string, k: string, l: string, m2: string, k2: string, l2: string) {
    && CandidateIdentityKey(m2, k2, l2) == CandidateIdentityKey(m, k, l)
    && (Trim(m2), Trim(k2), Trim(l2)) != (Trim(m), Trim(k), Trim(l))
  }

  /** The source trims the parts and refuses a blank mint. An accepted identity shares its key with
      another one exactly when its text can be cut at two other bars into three parts free of
      padding, the first of them not empty. */
  lemma AcceptedKeySharedExactly(m: string, k: string, l: string)
    requires CandidateIdentityKey(m, k, l).Some?
    ensures var a, b, c := Trim(m), Trim(k), Trim(l);
            (exists m2, k2, l2 :: SharesKey(m, k, l, m2, k2, l2))
            <==> exists p: nat, q: nat :: CleanCut(BarText(a, b, c), p, q) && (p, q) != (|a|, |a| + 1 + |b|)
  {
    var a, b, c := Trim(m), Trim(k), Trim(l);
    if m2, k2, l2 :| SharesKey(m, k, l, m2, k2, l2) {
      OtherCut(m, k, l, m2, k2, l2);
    }
    if p: nat, q: nat :| CleanCut(BarText(a, b, c), p, q) && (p, q) != (|a|, |a| + 1 + |b|) {
      CutShares(m, k, l, BarText(a, b, c), p, q);
    }
  }

  lemma CutShares(m: string, k: string, l: string, t: string, p: nat, q: nat)
    requires Trim(m) != "" && t == BarText(Trim(m), Trim(k), Trim(l))
    requires CleanCut(t, p, q) && (p, q) != (|Trim(m)|, |Trim(m)| + 1 + |Trim(k)|)
    ensures SharesKey(m, k, l, t[..p], t[p + 1..q], t[q + 1..])
  {
    var a, b, c := Trim(m), Trim(k), Trim(l);
    assert |t[..p]| == p && |t[p + 1..q]| == q - p - 1;
    CutAgain(t, p, q);
    KeysAgree(t[..p], t[p + 1..q], t[q + 1..], a, b, c);
  }

  lemma OtherCut(m: string, k: string, l: string, m2: string, k2: string, l2: string)
    requires CandidateIdentityKey(m, k, l).Some? && SharesKey(m, k, l, m2, k2, l2)
    ensures var p, q := |Trim(m2)|, |Trim(m2)| + 1 + |Trim(k2)|;
            CleanCut(BarText(Trim(m), Trim(k), Trim(l)), p, q) && (p, q) != (|Trim(m)|, |Trim(m)| + 1 + |Trim(k)|)
  {
    KeysAgree(Trim(m), Trim(k), Trim(l), Trim(m2), Trim(k2), Trim(l2));
    BarTextParts(Trim(m), Trim(k), Trim(l));
    BarTextParts(Trim(m2), Trim(k2), Trim(l2));
    TrimTwice(m2);
    TrimTwice(k2);
    TrimTwice(l2);
  }

  lemma {:induction false} TrimRightEnds(s: string)
    ensures TrimRight(s) <= s && (TrimRight(s) != [] ==> !IsBlank(TrimRight(s)[|TrimRight(s)| - 1]))
  {
    if s != [] && IsBlank(s[|s| - 1]) {
      TrimRightEnds(s[..|s| - 1]);
    }
  }

  lemma {:induction false} TrimLeftStarts(s: string)
    ensures TrimLeft(s) != [] ==> !IsBlank(TrimLeft(s)[0])
  {
    if s != [] && IsBlank(s[0]) {
      TrimLeftStarts(s[1..]);
    }
  }

  lemma TrimTwice(s: string)
    ensures Trim(Trim(s)) == Trim(s)
  {
    TrimLeftStarts(s);
    TrimRightEnds(TrimLeft(s));
  }

  /** A bar in the mint or in the lifecycle, and an accepted identity that shares the key. */
  lemma JoinKeyCollides()
    ensures SharesKey("a|b", "c", "d", "a", "b|c", "d")
    ensures SharesKey("a", "b", "c|d", "a", "b|c", "d")
  {
    assert BarText("a|b", "c", "d") == "a|b|c|d" == BarText("a", "b|c", "d");
    assert BarText("a", "b", "c|d") == "a|b|c|d";
    KeysAgree("a|b", "c", "d", "a", "b|c", "d");
    KeysAgree("a", "b", "c|d", "a", "b|c", "d");
    assert "a|b" != "a" && "c|d" != "d";
  }

  /** A bar that starts the mint does no harm here: the mint before it would be blank. */
  lemma LeadingBarSharesNoKey(m2: string, k2: string, l2: string)
    ensures CandidateIdentityKey("|b", "k", "l").Some? && !SharesKey("|b", "k", "l", m2, k2, l2)
  {
    var t := BarText("|b", "k", "l");
    assert t == "|b|k|l";
    if SharesKey("|b", "k", "l", m2, k2, l2) {
      OtherCut("|b", "k", "l", m2, k2, l2);
      assert false;
    }
  }
}
