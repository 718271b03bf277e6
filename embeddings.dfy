/** The placeholder embedding generator: a text's embedding is its MD5 digest, one
    value per byte, padded with zeros to the standard dimension, and documents are
    ranked against a query by a similarity score. */
module Embeddings {
  import opened Seqs
  import opened Sorting

  /** The standard embedding size. */
  const Dimension: nat := 384

  type Byte = b: int | 0 <= b < 256

  /** An MD5 digest: sixteen bytes. */
  type Digest = d: seq<Byte> | |d| == 16 witness seq(16, i => 0)

  /** The hash function itself, left abstract: `hashlib.md5(text.encode()).digest()`. */
  type Md5 = string -> Digest

  const HexDigits: string := "0123456789abcdef"

  function HexChar(d: nat): char
    requires d < 16
  {
    HexDigits[d]
  }

  predicate IsHexChar(c: char) {
    '0' <= c <= '9' || 'a' <= c <= 'f' || 'A' <= c <= 'F'
  }

  /** `int(c, 16)` for one hexadecimal digit. */
  function HexValue(c: char): (v: nat)
    requires IsHexChar(c)
    ensures v < 16
  {
    if '0' <= c <= '9' then (c as int - '0' as int) as nat
    else if 'a' <= c <= 'f' then (c as int - 'a' as int + 10) as nat
    else (c as int - 'A' as int + 10) as nat
  }

  /** `hexdigest()`: two lower-case hexadecimal digits per byte, high nibble first. */
  function HexDigest(d: seq<Byte>): (h: string)
    ensures |h| == 2 * |d|
    ensures forall i :: 0 <= i < |h| ==> IsHexChar(h[i])
  {
    seq(2 * |d|, i requires 0 <= i < 2 * |d| =>
      if i % 2 == 0 then HexChar(d[i / 2] / 16) else HexChar(d[i / 2] % 16))
  }

  /** `int(pair, 16)` for a pair of hexadecimal digits. */
  function HexPairValue(pair: string): nat
    requires |pair| == 2 && IsHexChar(pair[0]) && IsHexChar(pair[1])
  {
    HexValue(pair[0]) * 16 + HexValue(pair[1])
  }

  lemma HexCharValue(d: nat)
    requires d < 16
    ensures IsHexChar(HexChar(d)) && HexValue(HexChar(d)) == d
  {
  }

  /** Reading a hex pair of the digest back gives the digest byte it encodes. */
  lemma HexPairRoundTrip(d: seq<Byte>, k: nat)
    requires k < |d|
    ensures HexPairValue(HexDigest(d)[2 * k..2 * k + 2]) == d[k]
  {
    var pair := HexDigest(d)[2 * k..2 * k + 2];
    assert pair[0] == HexChar(d[k] / 16);
    assert pair[1] == HexChar(d[k] % 16);
    HexCharValue(d[k] / 16);
    HexCharValue(d[k] % 16);
  }

  /** `e` is the embedding of a text with digest `digest`: the digest bytes in order,
      then zeros up to the standard dimension. */
  predicate IsEmbeddingOf(e: seq<Byte>, digest: Digest) {
    |e| == Dimension && e[..16] == digest && forall i :: 16 <= i < Dimension ==> e[i] == 0
  }

  /** `generate_embedding`: one value per hex pair of the digest, then zero padding, then
      truncation to the standard dimension. The values are the bytes themselves; the
      division by 255 is a rescaling the model leaves out. */
  method GenerateEmbedding(text: string, md5: Md5) returns (e: seq<Byte>)
    ensures IsEmbeddingOf(e, md5(text))
  {
    var digest := md5(text);
    var hex := HexDigest(digest);
    e := [];
    var i := 0;
    ghost var k := 0;
    while i < |hex| && |e| < Dimension
      invariant 0 <= k <= |digest| && i == 2 * k
      invariant e == digest[..k]
    {
      HexPairRoundTrip(digest, k);
      e := e + [HexPairValue(hex[i..i + 2]) as Byte];
      assert digest[..k + 1] == digest[..k] + [digest[k]];
      i := i + 2;
      k := k + 1;
    }
    while |e| < Dimension
      invariant 16 <= |e| <= Dimension
      invariant e[..16] == digest
      invariant forall j :: 16 <= j < |e| ==> e[j] == 0
    {
      e := e + [0];
    }
    e := e[..Dimension];
  }

  /** `generate_embeddings_batch`: one embedding per text, in input order. */
  method GenerateEmbeddingsBatch(texts: seq<string>, md5: Md5) returns (es: seq<seq<Byte>>)
    ensures |es| == |texts|
    ensures forall i :: 0 <= i < |texts| ==> IsEmbeddingOf(es[i], md5(texts[i]))
  {
    es := [];
    for i := 0 to |texts|
      invariant |es| == i
      invariant forall j :: 0 <= j < i ==> IsEmbeddingOf(es[j], md5(texts[j]))
    {
      var e := GenerateEmbedding(texts[i], md5);
      es := es + [e];
    }
  }

  /** A text's embedding depends on nothing but the text. */
  lemma EmbeddingDeterministic(e1: seq<Byte>, e2: seq<Byte>, t1: string, t2: string, md5: Md5)
    requires IsEmbeddingOf(e1, md5(t1)) && IsEmbeddingOf(e2, md5(t2)) && t1 == t2
    ensures e1 == e2
  {
    assert e1 == e1[..16] + e1[16..];
    assert e2 == e2[..16] + e2[16..];
    assert e1[16..] == e2[16..];
  }

  /** The squared Euclidean norm. */
  function SquaredNorm(v: seq<Byte>): nat {
    if v == [] then 0 else v[0] * v[0] + SquaredNorm(v[1..])
  }

  /** A vector has norm zero exactly when every entry is zero. */
  lemma {:induction false} SquaredNormZero(v: seq<Byte>)
    ensures SquaredNorm(v) == 0 <==> forall i :: 0 <= i < |v| ==> v[i] == 0
  {
    if v != [] {
      SquaredNormZero(v[1..]);
      if forall i :: 0 <= i < |v| ==> v[i] == 0 {
        forall i | 0 <= i < |v[1..]| ensures v[1..][i] == 0 {
          assert v[1..][i] == v[i + 1];
        }
      }
      if SquaredNorm(v) == 0 {
        assert v[0] * v[0] == 0;
        forall i | 0 <= i < |v| ensures v[i] == 0 {
          if i > 0 {
            assert v[i] == v[1..][i - 1];
          }
        }
      }
    }
  }

  /** Cosine similarity, left abstract: the floating-point quotient is not modelled. */
  type Cosine = (seq<Byte>, seq<Byte>) -> real

  /** `similarity`: zero when either vector has norm zero, the cosine otherwise. */
  function Similarity(e1: seq<Byte>, e2: seq<Byte>, cosine: Cosine): (r: real)
    ensures (forall i :: 0 <= i < |e1| ==> e1[i] == 0) ==> r == 0.0
    ensures (forall i :: 0 <= i < |e2| ==> e2[i] == 0) ==> r == 0.0
    ensures SquaredNorm(e1) != 0 && SquaredNorm(e2) != 0 ==> r == cosine(e1, e2)
  {
    SquaredNormZero(e1);
    SquaredNormZero(e2);
    if SquaredNorm(e1) == 0 || SquaredNorm(e2) == 0 then 0.0 else cosine(e1, e2)
  }

  /** A document index with its similarity to the query. */
  datatype Scored = Scored(index: nat, score: real)

  function ScoreKey(p: Scored): Key { Key(p.score, 0.0) }
  function IndexTag(p: Scored): int { p.index }

  /** `similar_indices`: the indices of the pairs at or above the threshold, in order. */
  function IndicesAbove(s: seq<Scored>, threshold: real): (r: seq<nat>)
    ensures |r| <= |s|
  {
    if s == [] then []
    else (if s[0].score >= threshold then [s[0].index] else []) + IndicesAbove(s[1..], threshold)
  }

  /** `a` is listed before `b`: higher score first, equal scores by ascending index. */
  predicate Before(score: nat -> real, a: nat, b: nat) {
    score(a) > score(b) || (score(a) == score(b) && a < b)
  }

  predicate ScoreOrdered(r: seq<nat>, score: nat -> real) {
    forall k, l :: 0 <= k < l < |r| ==> Before(score, r[k], r[l])
  }

  /** Every pair of `s` records its index's score. */
  predicate Consistent(s: seq<Scored>, score: nat -> real) {
    forall i :: 0 <= i < |s| ==> s[i].score == score(s[i].index)
  }

  /** The indices kept are exactly those of the pairs at or above the threshold. */
  lemma {:induction false} IndicesAboveMembers(s: seq<Scored>, threshold: real, score: nat -> real)
    requires Consistent(s, score)
    ensures forall k :: 0 <= k < |IndicesAbove(s, threshold)| ==>
      Scored(IndicesAbove(s, threshold)[k], score(IndicesAbove(s, threshold)[k])) in s
      && score(IndicesAbove(s, threshold)[k]) >= threshold
    ensures forall i :: 0 <= i < |s| && s[i].score >= threshold ==> s[i].index in IndicesAbove(s, threshold)
  {
    if s != [] {
      IndicesAboveMembers(s[1..], threshold, score);
      var r := IndicesAbove(s, threshold);
      var tail := IndicesAbove(s[1..], threshold);
      if s[0].score >= threshold {
        assert r == [s[0].index] + tail;
      } else {
        assert r == tail;
      }
      forall i | 0 <= i < |s| && s[i].score >= threshold ensures s[i].index in r {
        if i > 0 {
          assert s[i] == s[1..][i - 1];
        }
      }
    }
  }

  /** Filtering by threshold keeps the ranked order of the pairs. */
  lemma {:induction false} IndicesAboveOrdered(s: seq<Scored>, threshold: real, score: nat -> real)
    requires Consistent(s, score)
    requires RankedBy(s, ScoreKey, IndexTag)
    ensures ScoreOrdered(IndicesAbove(s, threshold), score)
  {
    if s != [] {
      IndicesAboveOrdered(s[1..], threshold, score);
      var r := IndicesAbove(s, threshold);
      var tail := IndicesAbove(s[1..], threshold);
      if s[0].score >= threshold {
        assert r == [s[0].index] + tail;
        HeadBeforeRest(s, threshold, score);
        forall k, l | 0 <= k < l < |r| ensures Before(score, r[k], r[l]) {
          if k > 0 {
            assert r[k] == tail[k - 1] && r[l] == tail[l - 1];
          } else {
            assert r[0] == s[0].index && r[l] == tail[l - 1];
          }
        }
      } else {
        assert r == tail;
      }
    }
  }

  /** The first pair of a ranked sequence comes before every index kept from the rest. */
  lemma HeadBeforeRest(s: seq<Scored>, threshold: real, score: nat -> real)
    requires s != [] && Consistent(s, score)
    requires RankedBy(s, ScoreKey, IndexTag)
    ensures forall l :: 0 <= l < |IndicesAbove(s[1..], threshold)| ==>
      Before(score, s[0].index, IndicesAbove(s[1..], threshold)[l])
  {
    var tail := IndicesAbove(s[1..], threshold);
    IndicesAboveMembers(s[1..], threshold, score);
    forall l | 0 <= l < |tail| ensures Before(score, s[0].index, tail[l]) {
      var i :| 0 <= i < |s[1..]| && s[1..][i] == Scored(tail[l], score(tail[l]));
      assert s[i + 1] == s[1..][i];
      assert Precedes(s[0], s[i + 1], ScoreKey, IndexTag);
    }
  }

  /** Sorting the scored indices keeps every pair, ranks them, and keeps them consistent
      with the scores. */
  lemma SortedScores(unsorted: seq<Scored>, score: nat -> real)
    requires forall j :: 0 <= j < |unsorted| ==> unsorted[j] == Scored(j, score(j))
    ensures var sorted := SortDesc(unsorted, ScoreKey);
      Consistent(sorted, score) && RankedBy(sorted, ScoreKey, IndexTag)
      && (forall k :: 0 <= k < |sorted| ==> sorted[k].index < |unsorted|)
      && (forall i :: 0 <= i < |unsorted| ==> Scored(i, score(i)) in sorted)
  {
    var sorted := SortDesc(unsorted, ScoreKey);
    assert TagsIncreasing(unsorted, IndexTag);
    SortDescRanked(unsorted, ScoreKey, IndexTag);
    forall k | 0 <= k < |sorted|
      ensures sorted[k].score == score(sorted[k].index) && sorted[k].index < |unsorted|
    {
      assert sorted[k] in multiset(unsorted);
    }
    forall i | 0 <= i < |unsorted| ensures Scored(i, score(i)) in sorted {
      assert unsorted[i] in multiset(sorted);
    }
  }

  /** Sorting the scored indices and cutting at the threshold lists exactly the indices at
      or above the threshold, highest score first and equal scores by ascending index. */
  lemma ThresholdRanking(unsorted: seq<Scored>, threshold: real, score: nat -> real)
    requires forall j :: 0 <= j < |unsorted| ==> unsorted[j] == Scored(j, score(j))
    ensures var r := IndicesAbove(SortDesc(unsorted, ScoreKey), threshold);
      (forall k :: 0 <= k < |r| ==> r[k] < |unsorted|)
      && (forall i :: 0 <= i < |unsorted| ==> (i in r <==> score(i) >= threshold))
      && ScoreOrdered(r, score)
  {
    var sorted := SortDesc(unsorted, ScoreKey);
    SortedScores(unsorted, score);
    var r := IndicesAbove(sorted, threshold);
    IndicesAboveMembers(sorted, threshold, score);
    IndicesAboveOrdered(sorted, threshold, score);
    forall k | 0 <= k < |r| ensures r[k] < |unsorted| {
      var j :| 0 <= j < |sorted| && sorted[j] == Scored(r[k], score(r[k]));
    }
    forall i | 0 <= i < |unsorted| && score(i) >= threshold ensures i in r {
      var j :| 0 <= j < |sorted| && sorted[j] == Scored(i, score(i));
    }
  }

  /** `find_similar_documents`: the indices of the documents whose similarity to the query
      is at least the threshold, by similarity highest first, equal similarities by index. */
  method FindSimilarDocuments(query: seq<Byte>, docs: seq<seq<Byte>>, threshold: real, cosine: Cosine)
    returns (indices: seq<nat>)
    ensures forall k :: 0 <= k < |indices| ==> indices[k] < |docs|
    ensures forall i :: 0 <= i < |docs| ==>
      (i in indices <==> Similarity(query, docs[i], cosine) >= threshold)
    ensures ScoreOrdered(indices, (i: nat) => if i < |docs| then Similarity(query, docs[i], cosine) else 0.0)
  {
    var score := (i: nat) => if i < |docs| then Similarity(query, docs[i], cosine) else 0.0;
    var similarities: seq<Scored> := [];
    for i := 0 to |docs|
      invariant |similarities| == i
      invariant forall j :: 0 <= j < i ==> similarities[j] == Scored(j, score(j))
    {
      var similarity := Similarity(query, docs[i], cosine);
      similarities := similarities + [Scored(i, similarity)];
    }
    ThresholdRanking(similarities, threshold, score);
    similarities := SortDesc(similarities, ScoreKey);
    indices := IndicesAbove(similarities, threshold);
  }
}
