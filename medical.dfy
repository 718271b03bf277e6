/** The medical-document endpoints: the checks an upload passes, the chunk ids and
    per-chunk metadata handed to the vector store, the document record stored for the
    user, and the filtering of vector-store query results. Text extraction, the
    metadata extractor, the vector store and the document id generator are
    collaborators whose answers are parameters. */
module MedicalApi {
  import opened Wrappers
  import opened Values
  import opened Seqs
  import opened Text
  import PdfProcessor
  import UserProfile

  /** `repr` of a list of strings, as an f-string renders it (quotes inside the strings
      are not escaped). */
  function ListRepr(items: seq<string>): string {
    "[" + Join(Map(items, (s: string) => "'" + s + "'"), ", ") + "]"
  }

  /** The upload checks, in the order the endpoint makes them: the file name must end in
      ".pdf" in any case, the type must be supported, the user must have a profile, and
      the extracted text must not be blank. */
  function UploadCheck(filename: string, docType: string, supportedTypes: seq<string>,
                       hasProfile: bool, text: string): (r: Option<HttpError>)
    ensures r == None <==> EndsWith(Lower(filename), ".pdf") && docType in supportedTypes && hasProfile && !IsBlank(text)
    ensures !EndsWith(Lower(filename), ".pdf") ==> r == Some(HttpError(400, "Only PDF files are supported"))
    ensures r.Some? && r.value.status == 404 <==> EndsWith(Lower(filename), ".pdf") && docType in supportedTypes && !hasProfile
  {
    if !EndsWith(Lower(filename), ".pdf") then Some(HttpError(400, "Only PDF files are supported"))
    else if docType !in supportedTypes then
      Some(HttpError(400, "Document type must be one of: " + ListRepr(supportedTypes)))
    else if !hasProfile then Some(HttpError(404, "User profile not found"))
    else if IsBlank(text) then Some(HttpError(400, "No text content found in PDF"))
    else None
  }

  /** The id of chunk `i` of a document. */
  function ChunkId(documentId: string, i: nat): string {
    documentId + "_chunk_" + NatToString(i)
  }

  /** `chunk_ids`: one id per chunk, in chunk order. */
  function ChunkIds(documentId: string, n: nat): (ids: seq<string>)
    ensures |ids| == n
    ensures forall i :: 0 <= i < n ==> ids[i] == ChunkId(documentId, i)
  {
    if n == 0 then [] else ChunkIds(documentId, n - 1) + [ChunkId(documentId, n - 1)]
  }

  /** Different chunks of a document get different ids. */
  lemma ChunkIdsDistinct(documentId: string, n: nat, i: nat, j: nat)
    requires i < n && j < n && i != j
    ensures ChunkIds(documentId, n)[i] != ChunkIds(documentId, n)[j]
  {
    var prefix := documentId + "_chunk_";
    if ChunkId(documentId, i) == ChunkId(documentId, j) {
      assert NatToString(i) == ChunkId(documentId, i)[|prefix|..];
      assert NatToString(j) == ChunkId(documentId, j)[|prefix|..];
      NatToStringInjective(i, j);
    }
  }

  /** The metadata of chunk `i` of `n`: a copy of the document's metadata with the
      chunk's position added. */
  function ChunkMetadata(metadata: Metadata, i: nat, n: nat): Metadata {
    metadata["chunk_index" := Int(i)]["total_chunks" := Int(n)]
  }

  /** The chunk-metadata loop: each chunk gets its own copy of the metadata, and the
      document's metadata itself is left as it was. */
  method ChunkMetadatas(metadata: Metadata, n: nat) returns (metadatas: seq<Metadata>)
    ensures |metadatas| == n
    ensures forall i :: 0 <= i < n ==> metadatas[i] == ChunkMetadata(metadata, i, n)
  {
    metadatas := seq(n, _ => metadata);
    var i := 0;
    while i < n
      invariant 0 <= i <= n && |metadatas| == n
      invariant forall k :: 0 <= k < i ==> metadatas[k] == ChunkMetadata(metadata, k, n)
      invariant forall k :: i <= k < n ==> metadatas[k] == metadata
    {
      var copy := metadatas[i];
      copy := copy["chunk_index" := Int(i)];
      copy := copy["total_chunks" := Int(n)];
      metadatas := metadatas[i := copy];
      i := i + 1;
    }
  }

  /** Each chunk's metadata holds everything of the document's metadata except the two
      position keys, and those say where the chunk is. */
  lemma ChunkMetadataMeaning(metadata: Metadata, i: nat, n: nat)
    ensures ChunkMetadata(metadata, i, n)["chunk_index"] == Int(i)
    ensures ChunkMetadata(metadata, i, n)["total_chunks"] == Int(n)
    ensures forall k :: k in metadata && k != "chunk_index" && k != "total_chunks" ==>
      k in ChunkMetadata(metadata, i, n) && ChunkMetadata(metadata, i, n)[k] == metadata[k]
    ensures ChunkMetadata(metadata, i, n).Keys == metadata.Keys + {"chunk_index", "total_chunks"}
  {
  }

  /** What the upload hands to the vector store. */
  datatype VectorBatch = VectorBatch(chunks: seq<string>, metadatas: seq<Metadata>, ids: seq<string>)

  /** The answer of a successful upload. */
  datatype UploadResponse = UploadResponse(
    documentId: string, userId: string, docType: string, uploadDate: int, status: string,
    chunksCount: int, message: string)

  /** Everything a successful upload produces. */
  datatype Upload = Upload(response: UploadResponse, batch: VectorBatch, document: UserProfile.MedicalDocument)

  /** The document metadata: the extractor's metadata with the user, the upload time,
      the file name and the document date set. */
  function DocumentMetadata(extracted: Metadata, userId: string, filename: string,
                            documentDate: Option<string>, now: int): Metadata {
    extracted["user_id" := Str(userId)]["upload_date" := Time(now)]["original_filename" := Str(filename)]
      ["document_date" := if documentDate.Some? then Str(documentDate.value) else Null]
  }

  /** `upload_medical_document`. `text` is the text extracted from the file, `extracted`
      the metadata extractor's answer, `documentId` the fresh document id and `now` the
      current time. On success the document is chunked (1000 characters, 200 overlap),
      one id and one metadata copy go with each chunk, and the document record is
      appended to the user's profile. */
  method UploadMedicalDocument(profiles: UserProfile.ProfileStore, userId: string, docType: string,
                               documentDate: Option<string>, filename: string, text: string,
                               supportedTypes: seq<string>, extracted: Metadata, documentId: string, now: int)
    returns (r: Result<Upload, HttpError>)
    requires profiles.Valid()
    modifies profiles
    ensures profiles.Valid()
    ensures var check := UploadCheck(filename, docType, supportedTypes, userId in old(profiles.profiles), text);
      (r.Err? <==> check.Some?) && (r.Err? ==> r.error == check.value)
    ensures r.Err? ==> profiles.profiles == old(profiles.profiles)
    ensures r.Ok? ==>
      var chunks := PdfProcessor.Chunks(text, 1000, 200);
      var metadata := DocumentMetadata(extracted, userId, filename, documentDate, now);
      && r.value.batch.chunks == chunks
      && r.value.batch.ids == ChunkIds(documentId, |chunks|)
      && |r.value.batch.metadatas| == |chunks|
      && (forall i :: 0 <= i < |chunks| ==> r.value.batch.metadatas[i] == ChunkMetadata(metadata, i, |chunks|))
      && r.value.document == UserProfile.MedicalDocument(documentId, docType, now, documentDate, filename,
           |text|, |chunks|, "processed", metadata)
      && r.value.response == UploadResponse(documentId, userId, docType, now, "processed", |chunks|,
           "Document uploaded and processed successfully")
      && profiles.profiles == old(profiles.profiles)[userId := old(profiles.profiles)[userId].(
           medicalDocuments := old(profiles.profiles)[userId].medicalDocuments + [r.value.document])]
  {
    if !EndsWith(Lower(filename), ".pdf") {
      return Err(HttpError(400, "Only PDF files are supported"));
    }
    if docType !in supportedTypes {
      return Err(HttpError(400, "Document type must be one of: " + ListRepr(supportedTypes)));
    }
    if profiles.Find(userId).None? {
      return Err(HttpError(404, "User profile not found"));
    }
    if IsBlank(text) {
      return Err(HttpError(400, "No text content found in PDF"));
    }
    var chunks := PdfProcessor.ChunkText(text, 1000, 200);
    var metadata := DocumentMetadata(extracted, userId, filename, documentDate, now);
    var ids := ChunkIds(documentId, |chunks|);
    var metadatas := ChunkMetadatas(metadata, |chunks|);
    var document := UserProfile.MedicalDocument(documentId, docType, now, documentDate, filename,
                                                |text|, |chunks|, "processed", metadata);
    var added := profiles.AddMedicalDocument(userId, document);
    r := Ok(Upload(
      UploadResponse(documentId, userId, docType, now, "processed", |chunks|, "Document uploaded and processed successfully"),
      VectorBatch(chunks, metadatas, ids),
      document));
  }

  // ---------------------------------------------------------------------------
  // Query results

  /** A vector-store hit with its chunk metadata. */
  datatype QueryResult = QueryResult(document: string, metadata: Metadata)

  /** Reading the keys the filter looks at fails on this hit: `user_id` is always read,
      `doc_type` only when the user matches and a type is asked for. */
  predicate KeyMissing(h: QueryResult, userId: string, docType: Option<string>) {
    "user_id" !in h.metadata
    || (h.metadata["user_id"] == Str(userId) && docType.Some? && "doc_type" !in h.metadata)
  }

  /** The hit belongs to the user and, when a type is asked for, is of that type. */
  predicate Keeps(h: QueryResult, userId: string, docType: Option<string>) {
    && "user_id" in h.metadata && h.metadata["user_id"] == Str(userId)
    && (docType.None? || ("doc_type" in h.metadata && h.metadata["doc_type"] == Str(docType.value)))
  }

  /** The answer of `query_documents`. */
  datatype QueryAnswer = QueryAnswer(query: string, userId: string, results: seq<QueryResult>, totalFound: nat)

  /** `query_documents` over the vector store's hits: the hits that belong to the user
      (and are of the type, when one is given), in their original order, with their
      number. Reading a missing key fails the whole query. */
  method QueryDocuments(hits: seq<QueryResult>, query: string, userId: string, docType: Option<string>)
    returns (r: Result<QueryAnswer, HttpError>)
    ensures r.Err? <==> exists i :: 0 <= i < |hits| && KeyMissing(hits[i], userId, docType)
    ensures r.Err? ==> r.error == HttpError(500, "Failed to query documents")
    ensures r.Ok? ==> r.value.query == query && r.value.userId == userId
    ensures r.Ok? ==> r.value.results == Filter(hits, h => Keeps(h, userId, docType))
    ensures r.Ok? ==> r.value.totalFound == |r.value.results|
  {
    var filtered := [];
    var i := 0;
    while i < |hits|
      invariant 0 <= i <= |hits|
      invariant forall k :: 0 <= k < i ==> !KeyMissing(hits[k], userId, docType)
      invariant filtered == Filter(hits[..i], h => Keeps(h, userId, docType))
    {
      var h := hits[i];
      if "user_id" !in h.metadata {
        return Err(HttpError(500, "Failed to query documents"));
      }
      if h.metadata["user_id"] == Str(userId) {
        if docType.Some? && "doc_type" !in h.metadata {
          return Err(HttpError(500, "Failed to query documents"));
        }
        if docType.None? || h.metadata["doc_type"] == Str(docType.value) {
          filtered := filtered + [h];
        }
      }
      FilterConcat(hits[..i], [h], h => Keeps(h, userId, docType));
      assert hits[..i + 1] == hits[..i] + [h];
      i := i + 1;
    }
    assert hits[..i] == hits;
    r := Ok(QueryAnswer(query, userId, filtered, |filtered|));
  }
}
