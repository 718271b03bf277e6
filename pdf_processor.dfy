/** Splitting extracted document text into overlapping chunks, and the keyword and
    date-pattern classification of medical text. */
module PdfProcessor {
  import opened Wrappers
  import opened Seqs
  import opened Text

  // ---------------------------------------------------------------------------
  // Chunking

  /** The chunks `chunk_text` produces from offset `start` on: a chunk of up to
      `chunkSize` characters, then, unless that chunk reached the end of the text, the
      chunks from `step` characters further on. */
  function ChunksFrom(text: string, start: nat, chunkSize: nat, step: nat): seq<string>
    requires step > 0
    decreases |text| - start
  {
    if start >= |text| then []
    else
      var end := Min(start + chunkSize, |text|);
      [text[start..end]] + (if end == |text| then [] else ChunksFrom(text, start + step, chunkSize, step))
  }

  /** The chunks of the whole text. */
  function Chunks(text: string, chunkSize: nat, overlap: int): seq<string>
    requires overlap < chunkSize
  {
    ChunksFrom(text, 0, chunkSize, chunkSize - overlap)
  }

  /** `chunk_text`: consecutive chunks start `chunk_size - overlap` characters apart. */
  method ChunkText(text: string, chunkSize: nat, overlap: int) returns (chunks: seq<string>)
    requires overlap < chunkSize
    ensures chunks == Chunks(text, chunkSize, overlap)
  {
    chunks := [];
    var start := 0;
    var textLen := |text|;
    while start < textLen
      invariant chunks + ChunksFrom(text, start, chunkSize, chunkSize - overlap)
        == Chunks(text, chunkSize, overlap)
      decreases textLen - start
    {
      var end := Min(start + chunkSize, textLen);
      chunks := chunks + [text[start..end]];
      if end == textLen {
        break;
      }
      start := start + chunkSize - overlap;
    }
  }

  /** Where chunk `i` starts, relative to the first, when chunks start `step` apart:
      `i` steps on (`ChunkStartProduct` shows this is `i * step`). */
  function ChunkStart(i: nat, step: nat): nat {
    if i == 0 then 0 else ChunkStart(i - 1, step) + step
  }

  lemma {:induction false} ChunkStartProduct(i: nat, step: nat)
    ensures ChunkStart(i, step) == i * step
  {
    if i > 0 {
      ChunkStartProduct(i - 1, step);
      assert (i - 1) * step + step == i * step;
    }
  }

  /** Chunk `i` from offset `start` begins `i * step` characters further on and holds up to
      `chunkSize` characters; only the last chunk may reach the end of the text. */
  lemma {:induction false} ChunkAtIndex(text: string, start: nat, chunkSize: nat, step: nat, i: nat)
    requires step > 0
    requires i < |ChunksFrom(text, start, chunkSize, step)|
    ensures start + ChunkStart(i, step) < |text|
    ensures ChunksFrom(text, start, chunkSize, step)[i]
      == text[start + ChunkStart(i, step)..Min(start + ChunkStart(i, step) + chunkSize, |text|)]
    ensures i < |ChunksFrom(text, start, chunkSize, step)| - 1 ==> start + ChunkStart(i, step) + chunkSize < |text|
    ensures |ChunksFrom(text, start, chunkSize, step)[i]| <= chunkSize
    ensures i < |ChunksFrom(text, start, chunkSize, step)| - 1 ==> |ChunksFrom(text, start, chunkSize, step)[i]| == chunkSize
    decreases i
  {
    var r := ChunksFrom(text, start, chunkSize, step);
    var end := Min(start + chunkSize, |text|);
    if i > 0 {
      assert end < |text|;
      var rest := ChunksFrom(text, start + step, chunkSize, step);
      assert r == [text[start..end]] + rest;
      assert r[i] == rest[i - 1];
      ChunkAtIndex(text, start + step, chunkSize, step, i - 1);
      assert (start + step) + ChunkStart(i - 1, step) == start + ChunkStart(i, step);
    } else if |r| > 1 {
      assert end < |text|;
    }
  }

  /** The chunks stop at the first one that reaches the end of the text, or when the next
      start would lie past it. */
  lemma {:induction false} ChunksFromEnd(text: string, start: nat, chunkSize: nat, step: nat)
    requires step > 0
    ensures (|ChunksFrom(text, start, chunkSize, step)| == 0 <==> start >= |text|)
    ensures var n := |ChunksFrom(text, start, chunkSize, step)|;
      n > 0 ==> start + ChunkStart(n - 1, step) + chunkSize >= |text| || start + ChunkStart(n, step) >= |text|
    decreases |text| - start
  {
    if start < |text| && start + chunkSize < |text| {
      var rest := ChunksFrom(text, start + step, chunkSize, step);
      ChunksFromEnd(text, start + step, chunkSize, step);
      var n := |rest| + 1;
      if n >= 2 {
        assert (start + step) + ChunkStart(n - 2, step) == start + ChunkStart(n - 1, step);
        assert (start + step) + ChunkStart(n - 1, step) == start + ChunkStart(n, step);
      } else {
        assert ChunkStart(1, step) == step;
      }
    }
  }

  /** Chunk `i` of `chunk_text` starts at `i * (chunk_size - overlap)` and runs for
      `chunk_size` characters or to the end of the text, and there are no chunks exactly
      when the text is empty. */
  lemma ChunkOffsets(text: string, chunkSize: nat, overlap: int)
    requires overlap < chunkSize
    ensures |Chunks(text, chunkSize, overlap)| == 0 <==> |text| == 0
    ensures forall i :: 0 <= i < |Chunks(text, chunkSize, overlap)| ==>
      ChunkStart(i, chunkSize - overlap) < |text|
      && Chunks(text, chunkSize, overlap)[i]
        == text[ChunkStart(i, chunkSize - overlap)..Min(ChunkStart(i, chunkSize - overlap) + chunkSize, |text|)]
  {
    var step: nat := chunkSize - overlap;
    assert Chunks(text, chunkSize, overlap) == ChunksFrom(text, 0, chunkSize, step);
    ChunksFromEnd(text, 0, chunkSize, step);
    ChunksFromOffsets(text, chunkSize, step);
  }

  /** `ChunkAtIndex` for every chunk from the start of the text. */
  lemma ChunksFromOffsets(text: string, chunkSize: nat, step: nat)
    requires step > 0
    ensures var r := ChunksFrom(text, 0, chunkSize, step);
      forall i :: 0 <= i < |r| ==>
        ChunkStart(i, step) < |text| && r[i] == text[ChunkStart(i, step)..Min(ChunkStart(i, step) + chunkSize, |text|)]
  {
    var r := ChunksFrom(text, 0, chunkSize, step);
    forall i | 0 <= i < |r|
      ensures ChunkStart(i, step) < |text| && r[i] == text[ChunkStart(i, step)..Min(ChunkStart(i, step) + chunkSize, |text|)]
    {
      ChunkAtIndex(text, 0, chunkSize, step, i);
    }
  }

  /** Each chunk of `chunk_text` holds at most `chunk_size` characters, and all but the last
      exactly that many. */
  lemma ChunkSizes(text: string, chunkSize: nat, overlap: int)
    requires overlap < chunkSize
    ensures forall i :: 0 <= i < |Chunks(text, chunkSize, overlap)| ==>
      |Chunks(text, chunkSize, overlap)[i]| <= chunkSize
    ensures forall i :: 0 <= i < |Chunks(text, chunkSize, overlap)| - 1 ==>
      |Chunks(text, chunkSize, overlap)[i]| == chunkSize
  {
    var step: nat := chunkSize - overlap;
    var r := ChunksFrom(text, 0, chunkSize, step);
    assert Chunks(text, chunkSize, overlap) == r;
    forall i | 0 <= i < |r| ensures |r[i]| <= chunkSize && (i < |r| - 1 ==> |r[i]| == chunkSize) {
      ChunkAtIndex(text, 0, chunkSize, step, i);
    }
  }

  /** With a step no longer than the chunk size, the last chunk from `start` ends where
      the text ends. */
  lemma {:induction false} LastChunkFrom(text: string, start: nat, chunkSize: nat, step: nat)
    requires 0 < step <= chunkSize
    ensures var r := ChunksFrom(text, start, chunkSize, step);
      |r| > 0 ==> start + ChunkStart(|r| - 1, step) + |r[|r| - 1]| == |text|
    decreases |text| - start
  {
    var r := ChunksFrom(text, start, chunkSize, step);
    if start < |text| {
      if start + chunkSize < |text| {
        var rest := ChunksFrom(text, start + step, chunkSize, step);
        assert r == [text[start..start + chunkSize]] + rest;
        LastChunkFrom(text, start + step, chunkSize, step);
        var n := |rest|;
        assert n > 0 && |r| == n + 1;
        assert r[n] == rest[n - 1];
        assert ChunkStart(n, step) == ChunkStart(n - 1, step) + step;
      } else {
        assert r == [text[start..|text|]];
      }
    }
  }
  /** With a non-negative overlap the last chunk of `chunk_text` ends where the text ends. */
  lemma LastChunkEndsText(text: string, chunkSize: nat, overlap: nat)
    requires overlap < chunkSize
    ensures var r := Chunks(text, chunkSize, overlap);
      |r| > 0 ==> ChunkStart(|r| - 1, chunkSize - overlap) + |r[|r| - 1]| == |text|
  {
    LastChunkFrom(text, 0, chunkSize, chunkSize - overlap);
  }

  /** Every chunk after the first, minus its first `overlap` characters. */
  function Tails(chunks: seq<string>, overlap: nat): string {
    if chunks == [] then ""
    else (if overlap <= |chunks[0]| then chunks[0][overlap..] else "") + Tails(chunks[1..], overlap)
  }

  /** The first chunk followed by every later chunk minus its first `overlap` characters. */
  function Reassemble(chunks: seq<string>, overlap: nat): string {
    if chunks == [] then "" else chunks[0] + Tails(chunks[1..], overlap)
  }

  /** The sequence algebra of one gluing step: the text from `b` is a chunk ending at `e`
      followed by `more`, and the chunk's first `overlap` characters end at `c`. */
  lemma GlueStep(text: string, a: nat, b: nat, c: nat, e: nat, first: string, more: string, overlap: nat)
    requires a <= b <= c <= e <= |text| && c == b + overlap
    requires first == text[b..e]
    requires text[b..] == first + more
    ensures text[a..] == text[a..c] + (first[overlap..] + more)
  {
    assert more == text[e..] by {
      assert text[b..] == text[b..e] + text[e..];
    }
    assert first[overlap..] == text[c..e];
    assert text[a..] == text[a..c] + text[c..e] + text[e..];
  }

  /** Chunking from `start` with a non-negative overlap loses nothing of `text[start..]`. */
  lemma {:induction false} ReassembleFrom(text: string, start: nat, chunkSize: nat, overlap: nat)
    requires overlap < chunkSize && start <= |text|
    ensures Reassemble(ChunksFrom(text, start, chunkSize, chunkSize - overlap), overlap) == text[start..]
    decreases |text| - start
  {
    var step: nat := chunkSize - overlap;
    var r := ChunksFrom(text, start, chunkSize, step);
    if start < |text| {
      var end := Min(start + chunkSize, |text|);
      if end < |text| {
        var rest := ChunksFrom(text, start + step, chunkSize, step);
        assert r == [text[start..end]] + rest;
        ReassembleFrom(text, start + step, chunkSize, overlap);
        ChunkAtIndex(text, start + step, chunkSize, step, 0);
        var e1 := Min(start + step + chunkSize, |text|);
        assert r[1..] == rest;
        assert overlap <= |rest[0]|;
        assert Tails(rest, overlap) == rest[0][overlap..] + Tails(rest[1..], overlap);
        GlueStep(text, start, start + step, end, e1, rest[0], Tails(rest[1..], overlap), overlap);
      } else {
        assert r == [text[start..end]];
      }
    }
  }

  /** Gluing the chunks of `chunk_text` with a non-negative overlap gives back the text. */
  lemma ChunksReassemble(text: string, chunkSize: nat, overlap: nat)
    requires overlap < chunkSize
    ensures Reassemble(Chunks(text, chunkSize, overlap), overlap) == text
  {
    ReassembleFrom(text, 0, chunkSize, overlap);
  }

  // ---------------------------------------------------------------------------
  // Medical data extraction

  /** The structured record `extract_medical_data` returns; only the test type and the
      test date are ever filled in. */
  datatype MedicalData = MedicalData(
    testType: string,
    testDate: string,
    results: map<string, string>,
    normalRanges: map<string, string>,
    abnormalValues: seq<string>,
    recommendations: seq<string>,
    keyFindings: seq<string>)

  /** A test-type rule: a Hebrew phrase searched in the text as given, an English phrase
      searched in the lower-cased text, and the test type both stand for. */
  datatype TestRule = TestRule(hebrew: string, english: string, testType: string)

  /** The rules in the order they are tried. */
  const TestRules: seq<TestRule> := [
    TestRule("תוצאות בדיקת דם", "blood test", "blood_test"),
    TestRule("אולטרסאונד", "ultrasound", "ultrasound"),
    TestRule("בדיקת שתן", "urine test", "urine_test"),
    TestRule("בדיקה גנטית", "genetic test", "genetic_test")
  ]

  predicate RuleHits(text: string, rule: TestRule) {
    Contains(text, rule.hebrew) || Contains(Lower(text), rule.english)
  }

  /** `\d{1,2}/` at position `p`: the length matched. At most one of the two digit
      counts can be followed by a slash, so the match is unique. */
  function NumberSlashAt(s: string, p: nat): Option<nat> {
    if p + 2 < |s| && IsDigit(s[p]) && IsDigit(s[p + 1]) && s[p + 2] == '/' then Some(3)
    else if p + 1 < |s| && IsDigit(s[p]) && s[p + 1] == '/' then Some(2)
    else None
  }

  /** The length of a match of `\d{1,2}/\d{1,2}/\d{4}` starting at position `p`, if any. */
  function DateMatchAt(s: string, p: nat): (r: Option<nat>)
    ensures r.Some? ==> p + r.value <= |s|
  {
    match NumberSlashAt(s, p)
    case None => None
    case Some(a) =>
      match NumberSlashAt(s, p + a)
      case None => None
      case Some(b) =>
        var y := p + a + b;
        if y + 4 <= |s| && AllDigits(s[y..y + 4]) then Some(a + b + 4) else None
  }

  /** `re.findall(pattern, s[from:])[0]`: the match that starts leftmost. */
  function FirstDate(s: string, from: nat): (r: Option<string>)
    ensures r.Some? ==>
      exists p :: (from <= p < |s| && DateMatchAt(s, p).Some?
        && r.value == s[p..p + DateMatchAt(s, p).value]
        && forall q :: from <= q < p ==> DateMatchAt(s, q).None?)
    ensures r.None? ==> forall q :: from <= q < |s| ==> DateMatchAt(s, q).None?
    decreases |s| - from
  {
    if from >= |s| then None
    else match DateMatchAt(s, from)
      case Some(n) => Some(s[from..from + n])
      case None => FirstDate(s, from + 1)
  }

  /** `extract_medical_data`: the test type of the first rule that hits, and the first
      date-like match; every other field stays empty. */
  method ExtractMedicalData(text: string) returns (data: MedicalData)
    ensures data.testType == "" <==> forall j :: 0 <= j < |TestRules| ==> !RuleHits(text, TestRules[j])
    ensures forall j :: 0 <= j < |TestRules| ==>
      (RuleHits(text, TestRules[j]) && (forall k :: 0 <= k < j ==> !RuleHits(text, TestRules[k]))
       ==> data.testType == TestRules[j].testType)
    ensures data.testDate == FirstDate(text, 0).GetOr("")
    ensures data.results == map[] && data.normalRanges == map[]
    ensures data.abnormalValues == [] && data.recommendations == [] && data.keyFindings == []
  {
    data := MedicalData("", "", map[], map[], [], [], []);
    var lower := Lower(text);
    if Contains(text, "תוצאות בדיקת דם") || Contains(lower, "blood test") {
      data := data.(testType := "blood_test");
    } else if Contains(text, "אולטרסאונד") || Contains(lower, "ultrasound") {
      data := data.(testType := "ultrasound");
    } else if Contains(text, "בדיקת שתן") || Contains(lower, "urine test") {
      data := data.(testType := "urine_test");
    } else if Contains(text, "בדיקה גנטית") || Contains(lower, "genetic test") {
      data := data.(testType := "genetic_test");
    }
    assert TestRules[0].hebrew == "תוצאות בדיקת דם" && TestRules[0].english == "blood test";
    assert TestRules[1].hebrew == "אולטרסאונד" && TestRules[1].english == "ultrasound";
    assert TestRules[2].hebrew == "בדיקת שתן" && TestRules[2].english == "urine test";
    assert TestRules[3].hebrew == "בדיקה גנטית" && TestRules[3].english == "genetic test";
    var dates := FirstDate(text, 0);
    if dates.Some? {
      data := data.(testDate := dates.value);
    }
  }
}
